/** The session record of internal/models, as the store keeps it and the handlers write it. */
module Sessions {
  import opened Options
  import opened Clock

  /** A zero expiry is `None`: such a session never expires. */
  datatype Session = Session(user: nat, org: nat, provider: string, expiry: Option<Time>)

  predicate Expired(s: Session, now: Time) {
    s.expiry.Some? && s.expiry.value < now
  }
}
