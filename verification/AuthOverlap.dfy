/** What the checks before a write do not rule out: runs in which two requests overlap. */
module AuthOverlap {
  import opened Options
  import opened Clock
  import opened Text
  import opened Repo
  import opened Pending
  import opened AuthMachine
  import opened AuthInvariants
  import opened AuthRuns
  import opened AuthTheorems

  /** The invite can still be taken up. */
  predicate Live(s: State, hash: string) {
    hash in s.db.invites && s.db.invites[hash].usedAt == None && s.clock <= s.db.invites[hash].expires
  }

  /** An accept looks a live invite up and finds it in order. */
  lemma LooksUp(s: State, rid: nat, hash: string) returns (run: seq<Action>, t: State)
    requires Inv(s) && Live(s, hash) && rid !in s.procs
    ensures Leads(s, run, t)
    ensures t == s.(procs := s.procs[rid := Accept(AcEmail(hash, s.db.invites[hash]))])
  {
    hide Inv;
    hide ValidRun;
    hide Execute;
    var start := StartAccept(rid, hash);
    var t0 := Next(s, start);
    var run0 := [start];
    StartLeads(s, start);
    var o1, run1, t1 := StepWell(t0, rid, 0);
    LeadsOn(s, run0, t0, run1, t1);
    assert t1 == Goto(t0, rid, Accept(AcCheck(hash, s.db.invites[hash])));
    var o2, run2, t2 := StepWell(t1, rid, 0);
    LeadsOn(s, run0 + run1, t1, run2, t2);
    run, t := run0 + run1 + run2, t2;
  }

  /** The e-mail address finds its user or makes one. */
  lemma FindsUser(s: State, rid: nat, hash: string, inv: Invite) returns (run: seq<Action>, t: State, user: UserId)
    requires Inv(s) && rid in s.procs && s.procs[rid] == Accept(AcEmail(hash, inv))
    ensures Leads(s, run, t) && t.procs == s.procs[rid := Accept(AcMember(hash, inv, user))]
    ensures t.db.memberships == s.db.memberships && t.creators == s.creators
  {
    hide Inv;
    hide ValidRun;
    hide Execute;
    hide UpsertUser;
    var o, run1, t1 := StepWell(s, rid, 0);
    if t1.procs[rid].ac.AcMember? {
      user := t1.procs[rid].ac.user;
      return run1, t1, user;
    }
    var o2, run2, t2 := StepWell(t1, rid, 0);
    LeadsOn(s, run1, t1, run2, t2);
    user := t2.procs[rid].ac.user;
    return run1 + run2, t2, user;
  }

  lemma MembershipFits(s: State, rid: nat, hash: string, inv: Invite, user: UserId)
    requires Inv(s) && rid in s.procs && s.procs[rid] == Accept(AcMember(hash, inv, user))
    ensures inv.org in s.db.orgs && user in s.db.users && s.db.users[user].email == inv.email
  {
    assert ProcInv(s, s.procs[rid]);
  }

  lemma JoinStep(s: State, rid: nat, o: Oracle, hash: string, inv: Invite, user: UserId)
    requires rid in s.procs && s.procs[rid] == Accept(AcMember(hash, inv, user)) && o.call == Fine
    requires inv.org in s.db.orgs && user in s.db.users
    ensures AdvanceProc(s, rid, o)
         == s.(db := s.db.(memberships := s.db.memberships[(inv.org, user) := inv.role]),
               procs := s.procs[rid := Accept(AcUse(hash, inv, user))])
  {
  }

  lemma UseStep(s: State, rid: nat, o: Oracle, hash: string, inv: Invite, user: UserId)
    requires rid in s.procs && s.procs[rid] == Accept(AcUse(hash, inv, user)) && o.call == Fine
    ensures AdvanceProc(s, rid, o)
         == s.(db := UseInvite(s.db, hash, s.clock), procs := s.procs[rid := Accept(AcSession(hash, inv, user))])
  {
    hide UseInvite;
  }

  /** From the membership on, nothing stops an accept: not even an invite that was used meanwhile. */
  lemma Completes(s: State, rid: nat, hash: string, inv: Invite, user: UserId) returns (run: seq<Action>, t: State)
    requires Inv(s) && rid in s.procs && s.procs[rid] == Accept(AcMember(hash, inv, user))
    ensures Leads(s, run, t) && t.procs == s.procs[rid := Done(true)]
    ensures t.db.memberships == s.db.memberships[(inv.org, user) := inv.role] && t.creators == s.creators
    ensures t.db.users == s.db.users
  {
    hide Inv;
    hide ValidRun;
    hide Execute;
    hide UseInvite;
    hide AdvanceProc;
    MembershipFits(s, rid, hash, inv, user);
    var o1, run1, t1 := StepWell(s, rid, 0);
    JoinStep(s, rid, o1, hash, inv, user);
    var o2, run2, t2 := StepWell(t1, rid, 0);
    UseStep(t1, rid, o2, hash, inv, user);
    UseKeepsOthers(t1.db, hash, t1.clock);
    LeadsOn(s, run1, t1, run2, t2);
    var o3, run3, t3 := StepWell(t2, rid, 0);
    SessionStep(t2, rid, o3, hash, inv, user);
    LeadsOn(s, run1 + run2, t2, run3, t3);
    run, t := run1 + run2 + run3, t3;
  }

  lemma SessionStep(s: State, rid: nat, o: Oracle, hash: string, inv: Invite, user: UserId)
    requires rid in s.procs && s.procs[rid] == Accept(AcSession(hash, inv, user))
    ensures AdvanceProc(s, rid, o) == Goto(WithSession(s, user, inv.org, "invite", o.newId), rid, Done(true))
  {
    hide WithSession;
  }

  lemma UseKeepsOthers(t: Tables, hash: string, now: int)
    ensures UseInvite(t, hash, now).(invites := t.invites) == t
  {
  }

  /** The accept joins the holder of the address, in the role of the invite. */
  lemma AcceptCompletes(s: State, rid: nat, hash: string, inv: Invite)
      returns (run: seq<Action>, t: State, user: UserId)
    requires Inv(s) && rid in s.procs && s.procs[rid] == Accept(AcEmail(hash, inv))
    ensures Leads(s, run, t) && t.procs == s.procs[rid := Done(true)]
    ensures UserWith(t, user, inv.email) && t.creators == s.creators
    ensures t.db.memberships == s.db.memberships[(inv.org, user) := inv.role]
  {
    hide Inv;
    hide ValidRun;
    hide Execute;
    var run1, t1, found := FindsUser(s, rid, hash, inv);
    user := found;
    MembershipFits(t1, rid, hash, inv, user);
    var run2, t2 := Completes(t1, rid, hash, inv, user);
    LeadsOn(s, run1, t1, run2, t2);
    run, t := run1 + run2, t2;
  }

  /**
   An invite is not taken up at most once: UseInvite does not look at the number of rows it changed, so from
   every state with a live invite two accepts that overlap can both be answered well.
   */
  lemma OverlappingAcceptsSucceed(s: State, a: nat, b: nat, hash: string) returns (run: seq<Action>)
    requires Inv(s) && Live(s, hash) && a !in s.procs && b !in s.procs && a != b
    ensures ValidRun(s, run) && Succeeded(Execute(s, run), a) && Succeeded(Execute(s, run), b)
  {
    hide Inv;
    hide ValidRun;
    hide Execute;
    var inv := s.db.invites[hash];
    var run1, t1 := LooksUp(s, a, hash);
    var run2, t2 := LooksUp(t1, b, hash);
    LeadsOn(s, run1, t1, run2, t2);
    var run3, t3, _ := AcceptCompletes(t2, a, hash, inv);
    LeadsOn(s, run1 + run2, t2, run3, t3);
    var run4, t4, _ := AcceptCompletes(t3, b, hash, inv);
    LeadsOn(s, run1 + run2 + run3, t3, run4, t4);
    run := run1 + run2 + run3 + run4;
  }

  // ---------- Links ----------

  lemma TokenStep(s: State, rid: nat, o: Oracle, claim: Claim, email: string)
    requires rid in s.procs && s.procs[rid] == Callback(CbPending(claim, email))
    ensures AdvanceProc(s, rid, o) == Goto(WithPending(s, claim, email, o.newId), rid, Done(true))
  {
    hide WithPending;
  }

  lemma CallbackWaits(s: State, rid: nat, claim: Claim) returns (run: seq<Action>, t: State)
    requires Inv(s) && rid !in s.procs && (claim.provider, claim.subject) !in s.db.identities
    requires AddressHeld(s.db.users, Norm(claim.raw))
    ensures Leads(s, run, t)
    ensures t == s.(given := s.given + {claim}, procs := s.procs[rid := Callback(CbPending(claim, Norm(claim.raw)))])
  {
    hide Inv;
    hide ValidRun;
    hide Execute;
    hide Norm;
    var start := StartCallback(rid, claim);
    var t0 := Next(s, start);
    StartLeads(s, start);
    var o1, run1, t1 := StepWell(t0, rid, 0);
    LeadsOn(s, [start], t0, run1, t1);
    var o2, run2, t2 := StepWell(t1, rid, 0);
    LeadsOn(s, [start] + run1, t1, run2, t2);
    run, t := [start] + run1 + run2, t2;
  }

  /** A callback hands out a token for an identity that is not linked, when a user holds the address. */
  lemma Offers(s: State, rid: nat, claim: Claim) returns (token: nat, run: seq<Action>, t: State)
    requires Inv(s) && rid !in s.procs && (claim.provider, claim.subject) !in s.db.identities
    requires AddressHeld(s.db.users, Norm(claim.raw))
    ensures Leads(s, run, t) && t.db == s.db && t.clock == s.clock && t.procs == s.procs[rid := Done(true)]
    ensures token !in s.pending
    ensures t.pending ==
            s.pending[token := PendingLink(claim.provider, claim.subject, Norm(claim.raw), s.clock + 10 * MINUTE)]
  {
    hide Inv;
    hide ValidRun;
    hide Execute;
    hide Norm;
    hide AdvanceProc;
    var run1, t1 := CallbackWaits(s, rid, claim);
    var o, run2, t2 := StepWell(t1, rid, 0);
    LeadsOn(s, run1, t1, run2, t2);
    TokenStep(t1, rid, o, claim, Norm(claim.raw));
    PendingIssued(t1);
    token, run, t := o.newId, run1 + run2, t2;
  }

  lemma PendingIssued(s: State)
    requires Inv(s)
    ensures s.pending.Keys <= s.issued
  {
  }

  /** The second factor is no obstacle: either the user has none, or the code is accepted. */
  lemma PassesSecondFactor(s: State, rid: nat, req: LinkReq, link: PendingLink, user: UserId, email: string)
      returns (run: seq<Action>, t: State)
    requires Inv(s) && rid in s.procs && s.procs[rid] == Link(LnHasTotp(req, link, user, email))
    ensures Leads(s, run, t) && t == s.(procs := s.procs[rid := Link(LnMatch(req, link, user, email))])
  {
    hide Inv;
    hide ValidRun;
    hide Execute;
    var o1, run1, t1 := StepWell(s, rid, 0);
    run, t := run1, t1;
    if user in s.db.totp {
      var o2, run2, t2 := StepWell(t1, rid, 0);
      LeadsOn(s, run1, t1, run2, t2);
      run, t := run1 + run2, t2;
    }
  }

  /** A request to link with the right password comes to the question for a second factor. */
  lemma LinkAsks(s: State, rid: nat, token: nat, login: string, user: UserId) returns (run: seq<Action>, t: State)
    requires Inv(s) && rid !in s.procs && token in s.pending && !Stale(s.pending[token], s.clock)
    requires Norm(login) != "" && UserByUsername(s.db, Norm(login)) == Some(user)
    ensures Leads(s, run, t) && run != [] && run[0] == StartLink(rid, token, login)
    ensures var pc := LnHasTotp(LinkReq(token, Norm(login)), s.pending[token], user, s.db.users[user].email);
            t == s.(procs := s.procs[rid := Link(pc)])
  {
    hide Inv;
    hide ValidRun;
    hide Execute;
    hide Norm;
    var start := StartLink(rid, token, login);
    var t0 := Next(s, start);
    StartLeads(s, start);
    var o1, run1, t1 := StepWell(t0, rid, 0);
    LeadsOn(s, [start], t0, run1, t1);
    var o2, run2, t2 := StepWell(t1, rid, 0);
    LeadsOn(s, [start] + run1, t1, run2, t2);
    run, t := [start] + run1 + run2, t2;
  }

  lemma Authenticates(s: State, rid: nat, token: nat, login: string, user: UserId) returns (run: seq<Action>, t: State)
    requires Inv(s) && rid !in s.procs && token in s.pending && !Stale(s.pending[token], s.clock)
    requires Norm(login) != "" && UserByUsername(s.db, Norm(login)) == Some(user)
    ensures Leads(s, run, t)
    ensures var req := LinkReq(token, Norm(login));
            t == s.(procs := s.procs[rid := Link(LnMatch(req, s.pending[token], user, s.db.users[user].email))])
  {
    hide Inv;
    hide ValidRun;
    hide Execute;
    hide Norm;
    var run1, t1 := LinkAsks(s, rid, token, login, user);
    var pc := t1.procs[rid].ln;
    var run2, t2 := PassesSecondFactor(t1, rid, pc.req, pc.link, pc.user, pc.userEmail);
    LeadsOn(s, run1, t1, run2, t2);
    run, t := run1 + run2, t2;
  }

  /** A request to link passes every check, the identity not being linked yet. */
  lemma Checks(s: State, rid: nat, token: nat, login: string, user: UserId) returns (run: seq<Action>, t: State)
    requires Inv(s) && rid !in s.procs && token in s.pending && !Stale(s.pending[token], s.clock)
    requires Norm(login) != "" && UserByUsername(s.db, Norm(login)) == Some(user)
    requires UserWith(s, user, s.pending[token].email)
    requires (s.pending[token].provider, s.pending[token].subject) !in s.db.identities
    ensures Leads(s, run, t)
    ensures t == s.(procs := s.procs[rid := Link(LnLink(LinkReq(token, Norm(login)), s.pending[token], user))])
  {
    hide Inv;
    hide ValidRun;
    hide Execute;
    hide Norm;
    var run1, t1 := Authenticates(s, rid, token, login, user);
    var o2, run2, t2 := StepWell(t1, rid, 0);
    LeadsOn(s, run1, t1, run2, t2);
    var o3, run3, t3 := StepWell(t2, rid, 0);
    LeadsOn(s, run1 + run2, t2, run3, t3);
    run, t := run1 + run2 + run3, t3;
  }

  lemma LinkStep(s: State, rid: nat, o: Oracle, pc: LinkPc)
    requires rid in s.procs && pc.LnLink? && s.procs[rid] == Link(pc) && o.call == Fine && pc.user in s.db.users
    ensures var k := (pc.link.provider, pc.link.subject);
            AdvanceProc(s, rid, o)
            == s.(db := if k in s.db.identities then s.db else s.db.(identities := s.db.identities[k := pc.user]),
                  procs := s.procs[rid := Link(LnForget(pc.req, pc.link, pc.user))])
  {
  }

  lemma ForgetStep(s: State, rid: nat, o: Oracle, pc: LinkPc)
    requires rid in s.procs && pc.LnForget? && s.procs[rid] == Link(pc)
    ensures AdvanceProc(s, rid, o)
         == Goto(s.(pending := s.pending - {pc.req.token}), rid, Link(LnPick(pc.req, pc.link, pc.user)))
  {
  }

  /** From the write on, nothing stops a request to link: not even an identity that is someone else's by now. */
  lemma WritesLink(s: State, rid: nat) returns (run: seq<Action>, t: State)
    requires Inv(s) && rid in s.procs && s.procs[rid].Link? && s.procs[rid].ln.LnLink?
    ensures var pc := s.procs[rid].ln; var k := (pc.link.provider, pc.link.subject);
            && Leads(s, run, t) && t.procs == s.procs[rid := Link(LnPick(pc.req, pc.link, pc.user))]
            && t.db == if k in s.db.identities then s.db
                       else s.db.(identities := s.db.identities[k := pc.user])
  {
    hide Inv;
    hide ValidRun;
    hide Execute;
    hide AdvanceProc;
    LinkerExists(s, rid);
    var o1, run1, t1 := StepWell(s, rid, 0);
    LinkStep(s, rid, o1, s.procs[rid].ln);
    var o2, run2, t2 := StepWell(t1, rid, 0);
    ForgetStep(t1, rid, o2, t1.procs[rid].ln);
    LeadsOn(s, run1, t1, run2, t2);
    run, t := run1 + run2, t2;
  }

  lemma SignsIn(s: State, rid: nat, org: OrgId) returns (run: seq<Action>, t: State)
    requires Inv(s) && rid in s.procs && s.procs[rid].Link? && s.procs[rid].ln.LnPick?
    requires IsPick(s.db, s.procs[rid].ln.user, org)
    ensures Leads(s, run, t) && t.procs == s.procs[rid := Done(true)] && t.db == s.db
  {
    hide Inv;
    hide ValidRun;
    hide Execute;
    hide IsPick;
    var o1, run1, t1 := StepWell(s, rid, org);
    var o2, run2, t2 := StepWell(t1, rid, org);
    LeadsOn(s, run1, t1, run2, t2);
    run, t := run1 + run2, t2;
  }

  lemma Finishes(s: State, rid: nat, org: OrgId) returns (run: seq<Action>, t: State)
    requires Inv(s) && rid in s.procs && s.procs[rid].Link? && s.procs[rid].ln.LnLink?
    requires IsPick(s.db, s.procs[rid].ln.user, org)
    ensures Leads(s, run, t) && t.procs == s.procs[rid := Done(true)]
    ensures var pc := s.procs[rid].ln; var k := (pc.link.provider, pc.link.subject);
            t.db == if k in s.db.identities then s.db
                    else s.db.(identities := s.db.identities[k := pc.user])
  {
    hide Inv;
    hide Leads;
    hide IsPick;
    var run1, t1 := WritesLink(s, rid);
    PickIgnoresLinks(s.db, t1.db, s.procs[rid].ln.user, org);
    LeadsInv(s, run1, t1);
    var run2, t2 := SignsIn(t1, rid, org);
    LeadsOn(s, run1, t1, run2, t2);
    run, t := run1 + run2, t2;
  }

  lemma LinkerExists(s: State, rid: nat)
    requires Inv(s) && rid in s.procs && s.procs[rid].Link? && s.procs[rid].ln.LnLink?
    ensures s.procs[rid].ln.user in s.db.users
  {
    assert ProcInv(s, s.procs[rid]);
  }

  /** A user with a login name, the address of the claim and an organisation. */
  ghost predicate CanLink(s: State, claim: Claim, login: string, user: UserId, org: OrgId) {
    && Norm(login) != "" && UserByUsername(s.db, Norm(login)) == Some(user)
    && UserWith(s, user, Norm(claim.raw)) && IsPick(s.db, user, org)
  }

  /**
   LinkIdentity does nothing when the identity is linked already, and does not say so.  When a provider gives
   one identity with two addresses in turn, two users who hold them can both be told that they linked it; it
   belongs to the first, and not to the second.
   */
  lemma OverlappingLinksSucceed(
      s: State, a: nat, b: nat, c: nat, d: nat, first: Claim, second: Claim,
      x: string, one: UserId, p: OrgId, y: string, other: UserId, q: OrgId) returns (run: seq<Action>)
    requires Inv(s) && {a, b, c, d} !! s.procs.Keys
    requires a != b && c != d && a != c && a != d && b != c && b != d
    requires (first.provider, first.subject) == (second.provider, second.subject)
    requires (first.provider, first.subject) !in s.db.identities
    requires CanLink(s, first, x, one, p) && CanLink(s, second, y, other, q) && one != other
    ensures ValidRun(s, run) && Succeeded(Execute(s, run), c) && Succeeded(Execute(s, run), d)
    ensures LinkedTo(Execute(s, run), first.provider, first.subject, one)
    ensures !LinkedTo(Execute(s, run), second.provider, second.subject, other)
  {
    hide Inv;
    hide ValidRun;
    hide Execute;
    hide Norm;
    hide IsPick;
    var u, run1, t1 := Offers(s, a, first);
    var v, run2, t2 := Offers(t1, b, second);
    LeadsOn(s, run1, t1, run2, t2);
    var run3, t3 := Checks(t2, c, u, x, one);
    LeadsOn(s, run1 + run2, t2, run3, t3);
    var run4, t4 := Checks(t3, d, v, y, other);
    LeadsOn(s, run1 + run2 + run3, t3, run4, t4);
    var run5, t5 := Finishes(t4, c, p);
    LeadsOn(s, run1 + run2 + run3 + run4, t4, run5, t5);
    PickIgnoresLinks(t4.db, t5.db, other, q);
    var run6, t6 := Finishes(t5, d, q);
    LeadsOn(s, run1 + run2 + run3 + run4 + run5, t5, run6, t6);
    run := run1 + run2 + run3 + run4 + run5 + run6;
  }

  lemma PickIgnoresLinks(t: Tables, u: Tables, user: UserId, org: OrgId)
    requires IsPick(t, user, org) && u == t.(identities := u.identities)
    ensures IsPick(u, user, org)
  {
  }
}
