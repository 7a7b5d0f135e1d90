/**
 The tables behind the repository of internal/repo, and the statements the handlers run on them.  Each
 statement is one atomic step: a function from tables to tables, and a method that does it in place.
 */
module Repo {
  import opened Options
  import opened Clock

  type UserId = nat
  type OrgId = nat

  /** In the order the enum is declared in, which is the order SQL compares by. */
  datatype Role = Owner | Admin | Member | Viewer {
    function Position(): nat {
      match this case Owner => 0 case Admin => 1 case Member => 2 case Viewer => 3
    }
  }

  datatype User = User(email: string, name: Option<string>)
  datatype Org = Org(slug: string, createdAt: Time)
  datatype Invite = Invite(org: OrgId, email: string, role: Role, inviter: UserId, expires: Time, usedAt: Option<Time>)

  type Users = map<UserId, User>
  type Identities = map<(string, string), UserId>
  type Orgs = map<OrgId, Org>
  type Memberships = map<(OrgId, UserId), Role>
  type Invites = map<string, Invite>

  /** `totp` holds the secrets of the users who enrolled a second factor. */
  datatype Tables = Tables(
    users: Users, identities: Identities, creds: map<string, UserId>,
    orgs: Orgs, memberships: Memberships, invites: Invites, totp: map<UserId, string>)

  // ---------- The schema ----------

  ghost predicate EmailsUnique(users: Users) {
    forall u, v | u in users && v in users && users[u].email == users[v].email :: u == v
  }

  ghost predicate SlugsUnique(orgs: Orgs) {
    forall o, p | o in orgs && p in orgs && orgs[o].slug == orgs[p].slug :: o == p
  }

  /** One credential per user; one per name is a matter of the map. */
  ghost predicate CredsUnique(creds: map<string, UserId>) {
    forall m, n | m in creds && n in creds && creds[m] == creds[n] :: m == n
  }

  ghost predicate ReferencesHold(t: Tables) {
    && (forall k | k in t.memberships :: k.0 in t.orgs && k.1 in t.users)
    && (forall k | k in t.identities :: t.identities[k] in t.users)
    && (forall k | k in t.creds :: t.creds[k] in t.users)
    && (forall h | h in t.invites :: t.invites[h].org in t.orgs && t.invites[h].inviter in t.users)
    && t.totp.Keys <= t.users.Keys
  }

  /** Every constraint of the schema. */
  ghost predicate SchemaOk(t: Tables) {
    EmailsUnique(t.users) && SlugsUnique(t.orgs) && CredsUnique(t.creds) && ReferencesHold(t)
  }

  // ---------- Statements that read ----------

  ghost function UserByEmail(users: Users, email: string): (r: Option<UserId>)
    ensures r.Some? ==> r.value in users && users[r.value].email == email
    ensures r.None? ==> forall u | u in users :: users[u].email != email
  {
    if exists u :: u in users && users[u].email == email then
      var u :| u in users && users[u].email == email; Some(u)
    else None
  }

  ghost predicate SlugTaken(orgs: Orgs, slug: string) {
    exists o :: o in orgs && orgs[o].slug == slug
  }

  function UserByIdentity(t: Tables, provider: string, subject: string): Option<UserId> {
    if (provider, subject) in t.identities && t.identities[(provider, subject)] in t.users
    then Some(t.identities[(provider, subject)]) else None
  }

  function UserByUsername(t: Tables, username: string): Option<UserId> {
    if username in t.creds && t.creds[username] in t.users then Some(t.creds[username]) else None
  }

  /** `o` is a row PickUserOrg may return: the last role in the order comes first, then the oldest. */
  ghost predicate IsPick(t: Tables, u: UserId, o: OrgId) {
    && (o, u) in t.memberships && o in t.orgs
    && forall p | (p, u) in t.memberships && p in t.orgs ::
         var a, b := t.memberships[(o, u)].Position(), t.memberships[(p, u)].Position();
         a > b || (a == b && t.orgs[o].createdAt <= t.orgs[p].createdAt)
  }

  /** Descending order on an enum that starts with Owner: the organisation with the weakest role comes first. */
  lemma PickHasWeakestRole(t: Tables, u: UserId, o: OrgId, p: OrgId)
    requires IsPick(t, u, o) && (p, u) in t.memberships && p in t.orgs
    ensures t.memberships[(o, u)].Position() >= t.memberships[(p, u)].Position()
    ensures t.memberships[(o, u)] == Owner ==> t.memberships[(p, u)] == Owner
  {
  }

  /** The one role is below the other. */
  predicate Below(a: Role, b: Role) {
    match a
    case Owner => false
    case Admin => b == Owner
    case Member => b == Owner || b == Admin
    case Viewer => b != Viewer
  }

  /** The organisation picked is one of the user's with the lowest role, and the oldest of those. */
  lemma PickIff(t: Tables, u: UserId, o: OrgId)
    ensures IsPick(t, u, o) <==>
            && (o, u) in t.memberships && o in t.orgs
            && forall p | (p, u) in t.memberships && p in t.orgs ::
                 var mine, other := t.memberships[(o, u)], t.memberships[(p, u)];
                 Below(mine, other) || (mine == other && t.orgs[o].createdAt <= t.orgs[p].createdAt)
  {
    forall a, b ensures Below(a, b) <==> a.Position() > b.Position() {
    }
  }

  /** Whoever is in some organisation has one that is picked. */
  lemma {:induction false} PickExists(t: Tables, u: UserId, among: set<OrgId>) returns (o: OrgId)
    requires among != {} && forall p | p in among :: (p, u) in t.memberships && p in t.orgs
    ensures o in among
    ensures forall p | p in among ::
              var a, b := t.memberships[(o, u)].Position(), t.memberships[(p, u)].Position();
              a > b || (a == b && t.orgs[o].createdAt <= t.orgs[p].createdAt)
    decreases among
  {
    o :| o in among;
    var rest := among - {o};
    if rest != {} {
      var p := PickExists(t, u, rest);
      var a, b := t.memberships[(o, u)].Position(), t.memberships[(p, u)].Position();
      assert among == rest + {o};
      if !(a > b || (a == b && t.orgs[o].createdAt <= t.orgs[p].createdAt)) {
        o := p;
      }
    }
  }

  lemma MembersHavePick(t: Tables, u: UserId, p: OrgId) returns (o: OrgId)
    requires (p, u) in t.memberships && p in t.orgs
    ensures IsPick(t, u, o)
  {
    var among := set q | q in t.orgs && (q, u) in t.memberships;
    assert p in among;
    o := PickExists(t, u, among);
  }

  // ---------- Statements that write; `None` is a violated constraint ----------

  /** A new row, or, if the address is taken, that row with its name filled in when it has none. */
  ghost function UpsertUser(users: Users, email: string, name: string, newId: UserId): (Users, UserId) {
    match UserByEmail(users, email)
    case Some(u) => (users[u := users[u].(name := if users[u].name.Some? then users[u].name else Some(name))], u)
    case None => (users[newId := User(email, Some(name))], newId)
  }

  function CreateCredential(t: Tables, u: UserId, username: string): Option<Tables> {
    if username in t.creds || u in t.creds.Values || u !in t.users then None
    else Some(t.(creds := t.creds[username := u]))
  }

  ghost function CreateOrg(t: Tables, slug: string, newId: OrgId, now: Time): Option<Tables> {
    if SlugTaken(t.orgs, slug) then None else Some(t.(orgs := t.orgs[newId := Org(slug, now)]))
  }

  /** A new row, or the role of the row that is there overwritten. */
  function EnsureMembership(t: Tables, o: OrgId, u: UserId, role: Role): Option<Tables> {
    if o !in t.orgs || u !in t.users then None
    else Some(t.(memberships := t.memberships[(o, u) := role]))
  }

  /** A new row, or nothing at all, and no error, when the identity has a row already. */
  function LinkIdentity(t: Tables, u: UserId, provider: string, subject: string): Option<Tables> {
    if (provider, subject) in t.identities then Some(t)
    else if u !in t.users then None
    else Some(t.(identities := t.identities[(provider, subject) := u]))
  }

  function CreateInvite(t: Tables, hash: string, inv: Invite): Option<Tables> {
    if hash in t.invites || inv.org !in t.orgs || inv.inviter !in t.users then None
    else Some(t.(invites := t.invites[hash := inv]))
  }

  /** Notes the time of use in a row that has none; that no row was changed is no error. */
  function UseInvite(t: Tables, hash: string, now: Time): Tables {
    if hash in t.invites && t.invites[hash].usedAt == None
    then t.(invites := t.invites[hash := t.invites[hash].(usedAt := Some(now))])
    else t
  }

  /** A secret for a user: a new row or the old one overwritten. */
  function SetTotp(t: Tables, u: UserId, secret: string): Option<Tables> {
    if u !in t.users then None else Some(t.(totp := t.totp[u := secret]))
  }

  lemma UpsertKeepsEmailsUnique(users: Users, email: string, name: string, newId: UserId)
    requires EmailsUnique(users) && newId !in users
    ensures var (users', u) := UpsertUser(users, email, name, newId);
            && EmailsUnique(users') && u in users' && users'[u].email == email
            && forall v | v in users :: v in users' && users'[v].email == users[v].email
  {
  }

  // ---------- The same statements, in place ----------

  /** Nothing but the row of `k` changed between the two versions of a table. */
  ghost predicate SameBut<K(!new), V>(before: map<K, V>, after: map<K, V>, k: K) {
    forall l | l != k :: (l in before <==> l in after) && (l in before ==> after[l] == before[l])
  }

  class Database {
    var users: Users
    var identities: Identities
    var creds: map<string, UserId>
    var orgs: Orgs
    var memberships: Memberships
    var invites: Invites
    var totp: map<UserId, string>

    constructor ()
      ensures Valid() && T() == Tables(map[], map[], map[], map[], map[], map[], map[])
    {
      users, identities, creds, orgs, memberships, invites, totp := map[], map[], map[], map[], map[], map[], map[];
    }

    ghost function T(): Tables
      reads this
    {
      Tables(users, identities, creds, orgs, memberships, invites, totp)
    }

    ghost predicate Valid()
      reads this
    {
      SchemaOk(T())
    }

    method FindByEmail(email: string) returns (r: Option<UserId>)
      requires Valid()
      ensures r == UserByEmail(users, email)
    {
      var todo := users.Keys;
      while todo != {}
        invariant todo <= users.Keys
        invariant forall u | u in users && u !in todo :: users[u].email != email
        decreases todo
      {
        var u :| u in todo;
        if users[u].email == email {
          return Some(u);
        }
        todo := todo - {u};
      }
      return None;
    }

    /** The user returned holds the address; a name is filled in, never replaced. */
    method Upsert(email: string, name: string, newId: UserId) returns (u: UserId)
      requires Valid() && newId !in users
      modifies this`users
      ensures Valid() && (users, u) == UpsertUser(old(users), email, name, newId)
      ensures SameBut(old(users), users, u) && u in users && users[u].email == email
      ensures u in old(users) && old(users)[u].name.Some? ==> users[u] == old(users)[u]
      ensures u !in old(users) ==> u == newId && forall v | v in old(users) :: old(users)[v].email != email
    {
      UpsertKeepsEmailsUnique(users, email, name, newId);
      var found := FindByEmail(email);
      if found.Some? {
        u := found.value;
        users := users[u := users[u].(name := if users[u].name.Some? then users[u].name else Some(name))];
      } else {
        u := newId;
        users := users[u := User(email, Some(name))];
      }
    }

    /** Refused when the user or the name has a credential, or the user is missing. */
    method InsertCredential(u: UserId, username: string) returns (ok: bool)
      requires Valid()
      modifies this`creds
      ensures Valid() && SameBut(old(creds), creds, username)
      ensures ok <==> u in users && username !in old(creds) && forall n | n in old(creds) :: old(creds)[n] != u
      ensures ok ==> UserByUsername(T(), username) == Some(u)
      ensures !ok ==> creds == old(creds)
      ensures CreateCredential(old(T()), u, username) == if ok then Some(T()) else None
    {
      ok := !(username in creds || u in creds.Values || u !in users);
      if ok {
        creds := creds[username := u];
      }
    }

    /** Refused when the slug is taken. */
    method InsertOrg(slug: string, newId: OrgId, now: Time) returns (ok: bool)
      requires Valid() && newId !in orgs
      modifies this`orgs
      ensures Valid() && SameBut(old(orgs), orgs, newId)
      ensures ok <==> forall o | o in old(orgs) :: old(orgs)[o].slug != slug
      ensures if ok then newId in orgs && orgs[newId] == Org(slug, now) else orgs == old(orgs)
      ensures CreateOrg(old(T()), slug, newId, now) == if ok then Some(T()) else None
    {
      var todo := orgs.Keys;
      while todo != {}
        invariant todo <= orgs.Keys && orgs == old(orgs)
        invariant forall o | o in orgs && o !in todo :: orgs[o].slug != slug
        decreases todo
      {
        var o :| o in todo;
        if orgs[o].slug == slug {
          return false;
        }
        todo := todo - {o};
      }
      orgs := orgs[newId := Org(slug, now)];
      return true;
    }

    /** Whatever the role was, it is the given one now; refused when the user or the organisation is missing. */
    method UpsertMembership(o: OrgId, u: UserId, role: Role) returns (ok: bool)
      requires Valid()
      modifies this`memberships
      ensures Valid() && SameBut(old(memberships), memberships, (o, u))
      ensures ok <==> o in orgs && u in users
      ensures if ok then (o, u) in memberships && memberships[(o, u)] == role else memberships == old(memberships)
      ensures EnsureMembership(old(T()), o, u, role) == if ok then Some(T()) else None
    {
      ok := o in orgs && u in users;
      if ok {
        memberships := memberships[(o, u) := role];
      }
    }

    /** A linked identity stays with its user, and the call succeeds all the same, whoever it was meant for. */
    method InsertIdentity(u: UserId, provider: string, subject: string) returns (ok: bool)
      requires Valid()
      modifies this`identities
      ensures Valid() && SameBut(old(identities), identities, (provider, subject))
      ensures old(UserByIdentity(T(), provider, subject)).Some? ==>
                ok && UserByIdentity(T(), provider, subject) == old(UserByIdentity(T(), provider, subject))
      ensures old(UserByIdentity(T(), provider, subject)) == None ==>
                (ok <==> u in users) && UserByIdentity(T(), provider, subject) == if ok then Some(u) else None
      ensures LinkIdentity(old(T()), u, provider, subject) == if ok then Some(T()) else None
    {
      if (provider, subject) in identities {
        return true;
      }
      ok := u in users;
      if ok {
        identities := identities[(provider, subject) := u];
      }
    }

    /** Refused when the hash is taken, or the organisation or the inviter is missing. */
    method InsertInvite(hash: string, inv: Invite) returns (ok: bool)
      requires Valid()
      modifies this`invites
      ensures Valid() && SameBut(old(invites), invites, hash)
      ensures ok <==> hash !in old(invites) && inv.org in orgs && inv.inviter in users
      ensures if ok then hash in invites && invites[hash] == inv else invites == old(invites)
      ensures CreateInvite(old(T()), hash, inv) == if ok then Some(T()) else None
    {
      ok := hash !in invites && inv.org in orgs && inv.inviter in users;
      if ok {
        invites := invites[hash := inv];
      }
    }

    /** The first use is the one that is kept; nothing else of the row changes, and no row appears. */
    method MarkUsed(hash: string, now: Time)
      requires Valid()
      modifies this`invites
      ensures Valid() && SameBut(old(invites), invites, hash) && invites.Keys == old(invites).Keys
      ensures hash in invites ==>
                var was := old(invites)[hash];
                invites[hash] == if was.usedAt.Some? then was else was.(usedAt := Some(now))
      ensures T() == UseInvite(old(T()), hash, now)
    {
      if hash in invites && invites[hash].usedAt == None {
        invites := invites[hash := invites[hash].(usedAt := Some(now))];
      }
    }

    /** The user counts as enrolled from here on, under the new secret. */
    method UpsertTotp(u: UserId, secret: string) returns (ok: bool)
      requires Valid()
      modifies this`totp
      ensures Valid() && SameBut(old(totp), totp, u) && (ok <==> u in users)
      ensures if ok then u in totp && totp[u] == secret else totp == old(totp)
      ensures SetTotp(old(T()), u, secret) == if ok then Some(T()) else None
    {
      ok := u in users;
      if ok {
        totp := totp[u := secret];
      }
    }
  }
}
