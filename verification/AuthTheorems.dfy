/** What holds in every run, of any requests, interleaved in any way, with any calls failing. */
module AuthTheorems {
  import opened Text
  import opened Repo
  import opened AuthMachine
  import opened AuthFootprints
  import opened AuthInvariants
  import opened AuthSteps

  /** A run from tables that obey the schema, with nothing in flight. */
  ghost predicate RunFrom(s: State, run: seq<Action>) {
    Initial(s) && WellFormed(s.db) && ValidRun(s, run)
  }

  lemma {:induction false} ReachedInv(s: State, run: seq<Action>)
    requires RunFrom(s, run)
    ensures Inv(Execute(s, run)) && Grows(s, Execute(s, run))
  {
    InitialInv(s);
    RunKeepsInv(s, run);
  }

  // ---------- Sessions ----------

  /** Every stored session names an existing user, an existing organisation and a membership joining them. */
  lemma {:induction false} SessionsNameMembers(s: State, run: seq<Action>, sid: nat)
    requires RunFrom(s, run) && sid in Execute(s, run).sessions
    ensures var t := Execute(s, run); var x := t.sessions[sid];
            x.user in t.db.users && x.org in t.db.orgs && (x.org, x.user) in t.db.memberships
  {
    ReachedInv(s, run);
  }

  /** The constraints of the schema hold throughout: no address, slug or user's credential is there twice. */
  lemma {:induction false} SchemaHolds(s: State, run: seq<Action>)
    requires RunFrom(s, run)
    ensures SchemaOk(Execute(s, run).db)
  {
    ReachedInv(s, run);
  }

  // ---------- Linked identities ----------

  /** A linked identity keeps its user, and that user its address, whatever happens later. */
  lemma {:induction false} LinksNeverMove(
      s: State, run: seq<Action>, more: seq<Action>, provider: string, subject: string)
    requires RunFrom(s, run) && ValidRun(Execute(s, run), more)
    requires (provider, subject) in Execute(s, run).db.identities
    ensures var t := Execute(s, run); var u := Execute(t, more);
            var user := t.db.identities[(provider, subject)];
            && (provider, subject) in u.db.identities && u.db.identities[(provider, subject)] == user
            && user in t.db.users && user in u.db.users && u.db.users[user].email == t.db.users[user].email
  {
    ReachedInv(s, run);
    RunKeepsInv(Execute(s, run), more);
    var t := Execute(s, run);
    assert RefsOk(t.db.identities, t.db.creds, t.db.users);
  }

  /** Action `i` of the run is a callback at which the provider made this claim. */
  predicate SaidAt(run: seq<Action>, i: nat, c: Claim) {
    i < |run| && run[i].StartCallback? && run[i].claim == c
  }

  lemma NextGiven(s: State, a: Action, c: Claim)
    requires Enabled(s, a)
    ensures c in Next(s, a).given <==> c in s.given || SaidAt([a], 0, c)
  {
    hide AdvanceProc;
    if a.Advance? {
      AdvanceTouches(s, a.rid, a.o);
    }
  }

  /** What was claimed was said at some callback of the run. */
  lemma {:induction false} GivenInRun(s: State, run: seq<Action>, c: Claim)
    requires ValidRun(s, run) && c !in s.given && c in Execute(s, run).given
    ensures exists i: nat :: SaidAt(run, i, c)
    decreases run
  {
    hide Next;
    hide Enabled;
    if run != [] {
      NextGiven(s, run[0], c);
      if SaidAt([run[0]], 0, c) {
        assert SaidAt(run, 0, c);
      } else {
        GivenInRun(Next(s, run[0]), run[1..], c);
        var i: nat :| SaidAt(run[1..], i, c);
        assert SaidAt(run, i + 1, c);
      }
    }
  }

  /**
   Every identity linked in the run was claimed, by its provider at a callback of the run that handed out a
   token, for the address of the user it is linked to.
   */
  lemma LinkedAddressWasClaimed(s: State, run: seq<Action>, provider: string, subject: string)
    returns (token: nat, i: nat)
    requires RunFrom(s, run)
    requires var t := Execute(s, run);
             (provider, subject) in t.db.identities && (provider, subject) !in s.db.identities
    ensures var t := Execute(s, run); var user := t.db.identities[(provider, subject)];
            && token in t.asserted && SaidAt(run, i, t.asserted[token])
            && t.asserted[token].provider == provider && t.asserted[token].subject == subject
            && user in t.db.users && t.db.users[user].email == Norm(t.asserted[token].raw)
  {
    hide Norm;
    ReachedInv(s, run);
    var t := Execute(s, run);
    assert LinksOk(t.db.identities, t.db.users, t.asserted, t.seeded);
    var email := t.db.users[t.db.identities[(provider, subject)]].email;
    token :| HandedOut(t.asserted, token, provider, subject, email);
    assert t.asserted[token] in t.asserted.Values;
    GivenInRun(s, run, t.asserted[token]);
    i :| SaidAt(run, i, t.asserted[token]);
  }

  // ---------- Callbacks ----------

  /** A callback never enters the branch that grants memberships, and changes no table at all. */
  lemma {:induction false} CallbackWritesNoTable(s: State, run: seq<Action>, rid: nat, o: Oracle)
    requires RunFrom(s, run)
    requires var t := Execute(s, run);
             Enabled(t, Advance(rid, o)) && t.procs[rid].Callback?
    ensures var t := Execute(s, run);
            && !t.procs[rid].cb.CbResolve? && !t.procs[rid].cb.CbEnsure?
            && Next(t, Advance(rid, o)).db == t.db
  {
    ReachedInv(s, run);
    var t := Execute(s, run);
    assert ProcInv(t, t.procs[rid]);
    CallbackKeeps(t, rid, t.procs[rid].cb, o);
  }

  // ---------- Organisations made by a signup ----------

  /** A new organisation was made by a signup, has a slug of the documented form, and no Owner but its maker. */
  lemma {:induction false} SignupOrgHasOneOwner(s: State, run: seq<Action>, org: OrgId)
    requires RunFrom(s, run) && org in Execute(s, run).db.orgs && org !in s.db.orgs
    ensures var t := Execute(s, run);
            && org in t.creators && Slug.PlainSlug(t.db.orgs[org].slug)
            && forall u | (org, u) in t.db.memberships && t.db.memberships[(org, u)] == Owner :: u == t.creators[org]
  {
    ReachedInv(s, run);
  }

  /** No stored invite carries Owner. */
  lemma {:induction false} InvitesNeverOwner(s: State, run: seq<Action>, hash: string)
    requires RunFrom(s, run) && hash in Execute(s, run).db.invites
    ensures Execute(s, run).db.invites[hash].role != Owner
  {
    ReachedInv(s, run);
  }

  /** An invite its maker sent to this address, with this role. */
  predicate InvitedByMaker(t: State, org: OrgId, user: UserId, role: Role, hash: string) {
    && org in t.creators && user in t.db.users && hash in t.db.invites
    && t.db.invites[hash].org == org && t.db.invites[hash].role == role
    && t.db.invites[hash].email == t.db.users[user].email
    && t.db.invites[hash].inviter == t.creators[org]
  }

  /**
   Whoever is in an organisation made by a signup either made it, and is its Owner, or was invited by its
   maker in the role held; that goes for the maker in any other role too.
   */
  lemma MembersWereInvited(s: State, run: seq<Action>, org: OrgId, user: UserId) returns (hash: string)
    requires RunFrom(s, run)
    requires var t := Execute(s, run);
             && org in t.creators && (org, user) in t.db.memberships
             && !(user == t.creators[org] && t.db.memberships[(org, user)] == Owner)
    ensures var t := Execute(s, run); InvitedByMaker(t, org, user, t.db.memberships[(org, user)], hash)
  {
    ReachedInv(s, run);
    var t := Execute(s, run);
    assert Rightful(t.creators, t.db.memberships, t.db.invites, t.db.users, org, user);
    var email := t.db.users[user].email;
    hash :| hash in t.db.invites && Accounts(t.db.invites[hash], org, t.db.memberships[(org, user)], email);
  }

  /** So every session in such an organisation is its maker's, or that of someone its maker invited. */
  lemma {:induction false} SessionsStayInTenant(s: State, run: seq<Action>, sid: nat)
    requires RunFrom(s, run)
    requires var t := Execute(s, run); sid in t.sessions && t.sessions[sid].org in t.creators
    ensures var t := Execute(s, run); var x := t.sessions[sid];
            x.user == t.creators[x.org] || exists role, hash :: InvitedByMaker(t, x.org, x.user, role, hash)
  {
    SessionsNameMembers(s, run, sid);
    var t := Execute(s, run);
    var x := t.sessions[sid];
    if x.user != t.creators[x.org] {
      var hash := MembersWereInvited(s, run, x.org, x.user);
    }
  }

  // ---------- Accepting invites ----------

  lemma AcceptMemberFacts(t: State, rid: nat)
    requires Inv(t) && rid in t.procs && t.procs[rid].Accept? && t.procs[rid].ac.AcMember?
    ensures var pc := t.procs[rid].ac;
            && pc.hash in t.db.invites && SameInvite(t.db.invites[pc.hash], pc.inv)
            && forall v :: v in t.db.users && t.db.users[v].email == pc.inv.email <==> v == pc.user
  {
    assert ProcInv(t, t.procs[rid]);
    assert EmailsUnique(t.db.users);
  }

  /**
   The only membership an accept writes is the invited organisation with the one user who holds the
   invited address, in the role of the stored invite.
   */
  lemma {:induction false} AcceptWritesTheInvite(s: State, run: seq<Action>, rid: nat, o: Oracle)
    requires RunFrom(s, run)
    requires var t := Execute(s, run); Enabled(t, Advance(rid, o)) && t.procs[rid].Accept?
    ensures var t := Execute(s, run); var u := Next(t, Advance(rid, o)); var pc := t.procs[rid].ac;
            u.db.memberships != t.db.memberships ==>
              && pc.AcMember? && pc.hash in t.db.invites
              && var inv := t.db.invites[pc.hash];
                 && (forall v :: v in t.db.users && t.db.users[v].email == inv.email <==> v == pc.user)
                 && u.db.memberships == t.db.memberships[(inv.org, pc.user) := inv.role]
  {
    hide Inv;
    hide Grows;
    hide AdvanceAccept;
    hide Execute;
    ReachedInv(s, run);
    var t := Execute(s, run);
    AdvanceTouches(t, rid, o);
    if t.procs[rid].ac.AcMember? {
      AcceptMemberFacts(t, rid);
    }
  }

  /** The instant an invite was used at is set once. */
  lemma {:induction false} UsedOnceForAll(s: State, run: seq<Action>, more: seq<Action>, hash: string)
    requires RunFrom(s, run) && ValidRun(Execute(s, run), more)
    requires var t := Execute(s, run); hash in t.db.invites && t.db.invites[hash].usedAt.Some?
    ensures var t := Execute(s, run); var u := Execute(t, more);
            hash in u.db.invites && u.db.invites[hash].usedAt == t.db.invites[hash].usedAt
  {
    ReachedInv(s, run);
    RunKeepsInv(Execute(s, run), more);
  }

  /** The invite can no longer be taken up. */
  predicate Dead(s: State, hash: string) {
    hash in s.db.invites && (s.db.invites[hash].usedAt.Some? || s.clock > s.db.invites[hash].expires)
  }

  /** The accept has not looked yet, has seen that the invite is dead, or was refused. */
  predicate Refusing(s: State, rid: nat, hash: string) {
    rid in s.procs &&
    match s.procs[rid]
    case Accept(AcLookup(h)) => h == hash
    case Accept(AcCheck(h, inv)) => h == hash && (inv.usedAt.Some? || s.clock > inv.expires)
    case Done(ok) => !ok
    case _ => false
  }

  lemma RefusingStep(s: State, a: Action, rid: nat, hash: string)
    requires Inv(s) && Enabled(s, a) && Dead(s, hash) && Refusing(s, rid, hash)
    ensures Dead(Next(s, a), hash) && Refusing(Next(s, a), rid, hash)
  {
    hide Inv;
    hide AdvanceProc;
    NextKeepsInv(s, a);
    if a.Advance? && a.rid == rid {
      RefusingAdvances(s, a.o, rid, hash);
    } else if a.Advance? {
      OthersStand(s, a.rid, a.o, rid);
    }
  }

  lemma RefusingAdvances(s: State, o: Oracle, rid: nat, hash: string)
    requires Dead(s, hash) && Refusing(s, rid, hash) && Enabled(s, Advance(rid, o))
    ensures Refusing(AdvanceProc(s, rid, o), rid, hash)
  {
  }

  lemma OthersStand(s: State, moving: nat, o: Oracle, rid: nat)
    requires Inv(s) && Enabled(s, Advance(moving, o)) && moving != rid && rid in s.procs
    ensures rid in AdvanceProc(s, moving, o).procs && AdvanceProc(s, moving, o).procs[rid] == s.procs[rid]
  {
    hide AdvanceProc;
    hide TablesInv;
    hide ProcInv;
    hide Grows;
    AdvanceKeeps(s, moving, o);
  }

  /** An accept that looks an invite up after it was used, or after it expired, is refused in every continuation. */
  lemma {:induction false} DeadInviteIsRefused(s: State, more: seq<Action>, rid: nat, hash: string)
    requires Inv(s) && ValidRun(s, more) && Dead(s, hash) && Refusing(s, rid, hash)
    ensures Refusing(Execute(s, more), rid, hash)
    decreases more
  {
    hide Inv;
    hide Next;
    hide Dead;
    hide Refusing;
    if more != [] {
      NextKeepsInv(s, more[0]);
      RefusingStep(s, more[0], rid, hash);
      DeadInviteIsRefused(Next(s, more[0]), more[1..], rid, hash);
    }
  }

  predicate Succeeded(s: State, rid: nat) { rid in s.procs && s.procs[rid] == Done(true) }
}
