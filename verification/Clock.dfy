/** Instants and durations, in seconds. */
module Clock {
  type Time = int

  const MINUTE: Time := 60
  const HOUR: Time := 60 * MINUTE
}
