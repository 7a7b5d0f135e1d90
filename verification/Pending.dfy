/** The map of identities that wait to be linked, of internal/auth/linking.go. */
module Pending {
  import opened Options
  import opened Clock

  /** `expires` is never the zero time: it is set when the entry is put in. */
  datatype PendingLink = PendingLink(provider: string, subject: string, email: string, expires: Time)

  type Table = map<nat, PendingLink>

  predicate Stale(pl: PendingLink, now: Time) { pl.expires < now }

  function Put(m: Table, token: nat, pl: PendingLink, ttl: Time, now: Time): Table {
    m[token := pl.(expires := now + if ttl <= 0 then 10 * MINUTE else ttl)]
  }

  /** Lookup, expiry and deletion happen under one lock. */
  function Get(m: Table, token: nat, now: Time): (Table, Option<PendingLink>) {
    if token !in m then (m, None)
    else if Stale(m[token], now) then (m - {token}, None)
    else (m, Some(m[token]))
  }

  class PendingMap {
    var m: Table

    constructor ()
      ensures m == map[]
    {
      m := map[];
    }

    method PutPending(pl: PendingLink, ttl: Time, token: nat, now: Time)
      modifies this
      ensures m == Put(old(m), token, pl, ttl, now)
    {
      var life := ttl;
      if life <= 0 {
        life := 10 * MINUTE;
      }
      m := m[token := pl.(expires := now + life)];
    }

    method GetPending(token: nat, now: Time) returns (r: Option<PendingLink>)
      modifies this
      ensures (m, r) == Get(old(m), token, now)
    {
      if token !in m {
        return None;
      }
      var pl := m[token];
      if pl.expires < now {
        m := m - {token};
        return None;
      }
      return Some(pl);
    }

    method DelPending(token: nat)
      modifies this
      ensures m == old(m) - {token}
    {
      m := m - {token};
    }
  }

  /** What was put in is given back until its life is over, unless it is deleted or put over. */
  lemma GetAfterPut(m: Table, token: nat, pl: PendingLink, ttl: Time, now: Time, later: Time)
    requires now <= later
    ensures var life := if ttl <= 0 then 10 * MINUTE else ttl;
            Get(Put(m, token, pl, ttl, now), token, later).1
            == if later <= now + life then Some(pl.(expires := now + life)) else None
  {
  }
}
