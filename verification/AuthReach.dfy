/** States that runs do reach: new accounts, live invites, organisations without an Owner, contested identities. */
module AuthReach {
  import opened Options
  import opened Clock
  import opened Text
  import opened Repo
  import opened Pending
  import opened Sessions
  import opened AuthMachine
  import opened AuthInvariants
  import opened AuthSteps
  import opened AuthRuns
  import opened AuthTheorems
  import opened AuthGates
  import opened AuthResults
  import opened AuthOverlap

  /** A new address, also as a login name, and a new slug of the documented form. */
  ghost predicate Unclaimed(s: State, email: string, slug: string) {
    && Norm(email) != "" && Norm(slug) != "" && Slug.IsValidSlug(Norm(slug))
    && UserByEmail(s.db.users, Norm(email)) == None && ToLower(Norm(email)) !in s.db.creds
    && !SlugTaken(s.db.orgs, Norm(slug))
  }

  /** The account a signup leaves: a user, a credential, an organisation, and a session of the Owner. */
  datatype Account = Account(user: UserId, org: OrgId, sid: nat)

  ghost predicate AccountAdded(s: State, t: State, rid: nat, email: string, slug: string, a: Account) {
    && a.user !in s.issued && a.org !in s.issued && a.sid !in s.issued && a.user in t.issued
    && t.clock == s.clock && t.pending == s.pending && t.procs == s.procs[rid := Done(true)]
    && t.db == s.db.(users := s.db.users[a.user := User(Norm(email), Some(""))],
                     creds := s.db.creds[ToLower(Norm(email)) := a.user],
                     orgs := s.db.orgs[a.org := Org(Norm(slug), s.clock)],
                     memberships := s.db.memberships[(a.org, a.user) := Owner])
    && t.creators == s.creators[a.org := a.user]
    && t.sessions == s.sessions[a.sid := Session(a.user, a.org, "local", Some(s.clock + 8 * HOUR))]
  }

  lemma {:induction false} PlainNorm(s: string)
    requires Trimmed(s) && forall i | 0 <= i < |s| :: LowerChar(s[i]) == s[i]
    ensures Norm(s) == s && ToLower(s) == s
  {
    TrimmedStays(s);
    assert ToLower(s) == s;
  }

  lemma EmptyUnclaimed(s: State, email: string, slug: string)
    requires s.db.users == map[] && s.db.creds == map[] && s.db.orgs == map[] && email != "" && slug != ""
    requires Norm(email) == email && Norm(slug) == slug && Slug.IsValidSlug(slug)
    ensures Unclaimed(s, email, slug)
  {
    hide Norm;
    hide ToLower;
    hide Slug.IsValidSlug;
  }

  lemma PlainSlugs()
    ensures Slug.IsValidSlug("abc") && Slug.IsValidSlug("xyz")
  {
    hide Slug.IsValidSlug;
    Slug.SlugMeaning("abc");
    Slug.SlugMeaning("xyz");
  }

  /** Runs start somewhere: on an empty database two people can claim different addresses and slugs. */
  lemma FirstSignups() returns (s: State)
    ensures RunFrom(s, []) && Unclaimed(Execute(s, []), "a@x", "abc") && Unclaimed(Execute(s, []), "b@x", "xyz")
    ensures Norm("a@x") != Norm("b@x") && Norm("abc") != Norm("xyz")
  {
    hide Norm;
    hide ToLower;
    hide Slug.IsValidSlug;
    hide Unclaimed;
    var empty := Tables(map[], map[], map[], map[], map[], map[], map[]);
    s := State(empty, map[], map[], 0, map[], {}, map[], {}, map[], {});
    PlainNorm("a@x");
    PlainNorm("b@x");
    PlainNorm("abc");
    PlainNorm("xyz");
    PlainSlugs();
    EmptyUnclaimed(s, "a@x", "abc");
    EmptyUnclaimed(s, "b@x", "xyz");
    assert "a@x"[0] != "b@x"[0] && "abc"[0] != "xyz"[0];
  }

  lemma SignupStarts(s: State, rid: nat, email: string, slug: string)
    requires rid !in s.procs && Unclaimed(s, email, slug)
    ensures Next(s, StartSignup(rid, email, "", "", slug))
         == Goto(s, rid, Signup(SuUser(SignupReq(Norm(email), Norm(email), "", Norm(slug)))))
  {
    hide Slug.IsValidSlug;
    hide ToLower;
  }

  lemma UserStep(s: State, rid: nat, o: Oracle, req: SignupReq)
    requires rid in s.procs && s.procs[rid] == Signup(SuUser(req)) && o.call == Fine
    requires UserByEmail(s.db.users, req.email) == None
    ensures AdvanceProc(s, rid, o)
         == s.(db := s.db.(users := s.db.users[o.newId := User(req.email, Some(req.name))]),
               issued := s.issued + {o.newId}, procs := s.procs[rid := Signup(SuCred(req, o.newId))])
  {
  }

  lemma CredStep(s: State, rid: nat, o: Oracle, req: SignupReq, user: UserId)
    requires rid in s.procs && s.procs[rid] == Signup(SuCred(req, user)) && o.call == Fine && o.pass
    requires user in s.db.users && user !in s.db.creds.Values && ToLower(req.username) !in s.db.creds
    ensures AdvanceProc(s, rid, o)
         == s.(db := s.db.(creds := s.db.creds[ToLower(req.username) := user]),
               procs := s.procs[rid := Signup(SuFind(req, user))])
  {
    hide ToLower;
  }

  lemma Registers(s: State, rid: nat, email: string, slug: string) returns (run: seq<Action>, t: State, user: UserId)
    requires Inv(s) && rid !in s.procs && Unclaimed(s, email, slug)
    ensures Leads(s, run, t) && user !in s.issued && t.issued == s.issued + {user}
    ensures t == s.(db := s.db.(users := s.db.users[user := User(Norm(email), Some(""))],
                                creds := s.db.creds[ToLower(Norm(email)) := user]),
                    issued := t.issued,
                    procs := s.procs[rid := Signup(SuFind(SignupReq(Norm(email), Norm(email), "", Norm(slug)), user))])
  {
    hide Inv;
    hide ValidRun;
    hide Execute;
    hide Slug.IsValidSlug;
    hide SlugTaken;
    hide Norm;
    hide ToLower;
    hide AdvanceProc;
    hide Next;
    var start := StartSignup(rid, email, "", "", slug);
    var req := SignupReq(Norm(email), Norm(email), "", Norm(slug));
    var t0 := Next(s, start);
    StartLeads(s, start);
    SignupStarts(s, rid, email, slug);
    var o1, run1, t1 := StepWell(t0, rid, 0);
    LeadsOn(s, [start], t0, run1, t1);
    UserStep(t0, rid, o1, req);
    NobodyYet(s, o1.newId);
    var o2, run2, t2 := StepWell(t1, rid, 0);
    CredStep(t1, rid, o2, req, o1.newId);
    LeadsOn(s, [start] + run1, t1, run2, t2);
    run, t, user := [start] + run1 + run2, t2, o1.newId;
  }

  lemma FindStep(s: State, rid: nat, o: Oracle, req: SignupReq, user: UserId)
    requires rid in s.procs && s.procs[rid] == Signup(SuFind(req, user)) && !SlugTaken(s.db.orgs, req.slug)
    ensures AdvanceProc(s, rid, o) == Goto(s, rid, Signup(SuOrg(req, user)))
  {
    hide SlugTaken;
  }

  lemma OrgStep(s: State, rid: nat, o: Oracle, req: SignupReq, user: UserId)
    requires rid in s.procs && s.procs[rid] == Signup(SuOrg(req, user)) && o.call == Fine
    requires !SlugTaken(s.db.orgs, req.slug)
    ensures AdvanceProc(s, rid, o)
         == s.(db := s.db.(orgs := s.db.orgs[o.newId := Org(req.slug, s.clock)]), issued := s.issued + {o.newId},
               creators := s.creators[o.newId := user], procs := s.procs[rid := Signup(SuMember(req, user, o.newId))])
  {
    hide SlugTaken;
  }

  lemma MemberStep(s: State, rid: nat, o: Oracle, req: SignupReq, user: UserId, org: OrgId)
    requires rid in s.procs && s.procs[rid] == Signup(SuMember(req, user, org)) && o.call == Fine
    requires org in s.db.orgs && user in s.db.users
    ensures AdvanceProc(s, rid, o)
         == s.(db := s.db.(memberships := s.db.memberships[(org, user) := Owner]),
               procs := s.procs[rid := Signup(SuSession(req, user, org))])
  {
  }

  /** The second half of a signup, the slug being free. */
  lemma Founds(s: State, rid: nat, req: SignupReq, user: UserId)
      returns (run: seq<Action>, t: State, org: OrgId, sid: nat)
    requires Inv(s) && rid in s.procs && s.procs[rid] == Signup(SuFind(req, user))
    requires !SlugTaken(s.db.orgs, req.slug) && user in s.db.users
    ensures Leads(s, run, t) && org !in s.issued && sid !in s.issued
    ensures t == s.(db := s.db.(orgs := s.db.orgs[org := Org(req.slug, s.clock)],
                                memberships := s.db.memberships[(org, user) := Owner]),
                    creators := s.creators[org := user],
                    sessions := s.sessions[sid := Session(user, org, "local", Some(s.clock + 8 * HOUR))],
                    issued := s.issued + {org} + {sid}, procs := s.procs[rid := Done(true)])
  {
    hide Inv;
    hide ValidRun;
    hide Execute;
    hide SlugTaken;
    hide AdvanceProc;
    var o1, run1, t1 := StepWell(s, rid, 0);
    FindStep(s, rid, o1, req, user);
    var o2, run2, t2 := StepWell(t1, rid, 0);
    OrgStep(t1, rid, o2, req, user);
    LeadsOn(s, run1, t1, run2, t2);
    var o3, run3, t3 := StepWell(t2, rid, 0);
    MemberStep(t2, rid, o3, req, user, o2.newId);
    LeadsOn(s, run1 + run2, t2, run3, t3);
    var o4, run4, t4 := StepWell(t3, rid, 0);
    SignupOpens(t3, rid, o4, req, user, o2.newId);
    LeadsOn(s, run1 + run2 + run3, t3, run4, t4);
    run, t, org, sid := run1 + run2 + run3 + run4, t4, o2.newId, o4.newId;
  }

  lemma SignupOpens(s: State, rid: nat, o: Oracle, req: SignupReq, user: UserId, org: OrgId)
    requires rid in s.procs && s.procs[rid] == Signup(SuSession(req, user, org))
    ensures AdvanceProc(s, rid, o) == Goto(WithSession(s, user, org, "local", o.newId), rid, Done(true))
  {
    hide WithSession;
  }

  /** A signup with a new address and a new slug goes through. */
  lemma SignsUp(s: State, rid: nat, email: string, slug: string) returns (run: seq<Action>, t: State, a: Account)
    requires Inv(s) && rid !in s.procs && Unclaimed(s, email, slug)
    ensures Leads(s, run, t) && AccountAdded(s, t, rid, email, slug, a)
  {
    hide Inv;
    hide ValidRun;
    hide Execute;
    hide SlugTaken;
    hide Slug.IsValidSlug;
    hide Norm;
    hide ToLower;
    var run1, t1, user := Registers(s, rid, email, slug);
    var run2, t2, org, sid := Founds(t1, rid, t1.procs[rid].su.req, user);
    LeadsOn(s, run1, t1, run2, t2);
    run, t, a := run1 + run2, t2, Account(user, org, sid);
  }

  lemma NobodyYet(s: State, newId: nat)
    requires Inv(s) && newId !in s.issued
    ensures newId !in s.db.users && newId !in s.db.orgs && newId !in s.db.creds.Values
    ensures forall o :: (o, newId) !in s.db.memberships
  {
    hide ProcInv;
  }

  // ---------- Live invites, and organisations without an Owner ----------

  lemma InviteStarts(s: State, a: Action)
    requires a.StartInvite? && a.rid !in s.procs
    ensures Enabled(s, a) && Next(s, a) == Goto(s, a.rid, NewInvite(IcAuth(a.req)))
    ensures LiveSession(s, a.req.sid) ==> a.req.sid in s.sessions && LiveSession(Next(s, a), a.req.sid)
  {
  }

  /** The Owner behind a live session invites someone. */
  lemma Invites(s: State, rid: nat, req: InviteReq) returns (run: seq<Action>, t: State)
    requires Inv(s) && rid !in s.procs && LiveSession(s, req.sid) && req.hash !in s.db.invites
    requires !IsBlank(req.email) && GrantedRole(req.role).Some?
    requires var x := s.sessions[req.sid];
             (x.org, x.user) in s.db.memberships && s.db.memberships[(x.org, x.user)] == Owner
    ensures Leads(s, run, t)
    ensures var row := InviteRow(s, req, s.sessions[req.sid], GrantedRole(req.role).value);
            t == s.(db := s.db.(invites := s.db.invites[req.hash := row]), procs := s.procs[rid := Done(true)])
  {
    hide Inv;
    hide ValidRun;
    hide Execute;
    hide GrantedRole;
    hide IsBlank;
    hide AdvanceProc;
    var start := StartInvite(rid, req);
    var t0 := Goto(s, rid, NewInvite(IcAuth(req)));
    InviteStarts(s, start);
    hide Next;
    StartLeads(s, start);
    var run1, t1 := Authorised(t0, rid, req);
    LeadsOn(s, [start], t0, run1, t1);
    var o2, run2, t2 := StepWell(t1, rid, 0);
    LeadsOn(s, [start] + run1, t1, run2, t2);
    InviteReads(t1, rid, req, o2);
    MemberRows(t2, s.sessions[req.sid]);
    var o3, run3, t3 := StepWell(t2, rid, 0);
    LeadsOn(s, [start] + run1 + run2, t2, run3, t3);
    InviteStores(t2, rid, req, o3);
    run, t := [start] + run1 + run2 + run3, t3;
  }

  lemma InviteReads(s: State, rid: nat, req: InviteReq, o: Oracle)
    requires rid in s.procs && s.procs[rid].NewInvite? && s.procs[rid].ic.IcRead? && s.procs[rid].ic.req == req
    requires LiveSession(s, req.sid) && !IsBlank(req.email) && GrantedRole(req.role).Some?
    ensures AdvanceProc(s, rid, o) == Goto(s, rid, NewInvite(IcStore(req, s.sessions[req.sid])))
  {
    hide GrantedRole;
    hide IsBlank;
  }

  lemma Authorised(s: State, rid: nat, req: InviteReq) returns (run: seq<Action>, t: State)
    requires Inv(s) && rid in s.procs && s.procs[rid] == NewInvite(IcAuth(req)) && LiveSession(s, req.sid)
    requires var x := s.sessions[req.sid];
             (x.org, x.user) in s.db.memberships && s.db.memberships[(x.org, x.user)] == Owner
    ensures Leads(s, run, t)
    ensures t == s.(procs := s.procs[rid := NewInvite(IcRead(req, s.sessions[req.sid]))])
  {
    hide Inv;
    hide ValidRun;
    hide Execute;
    MemberRows(s, s.sessions[req.sid]);
    var o1, run1, t1 := StepWell(s, rid, 0);
    var o2, run2, t2 := StepWell(t1, rid, 0);
    LeadsOn(s, run1, t1, run2, t2);
    var o3, run3, t3 := StepWell(t2, rid, 0);
    LeadsOn(s, run1 + run2, t2, run3, t3);
    run, t := run1 + run2 + run3, t3;
  }

  lemma MemberRows(s: State, x: Session)
    requires Inv(s) && (x.org, x.user) in s.db.memberships
    ensures x.org in s.db.orgs && x.user in s.db.users
  {
    hide ProcInv;
  }

  lemma InviteStores(s: State, rid: nat, req: InviteReq, o: Oracle)
    requires rid in s.procs && s.procs[rid].NewInvite? && s.procs[rid].ic.IcStore? && s.procs[rid].ic.req == req
    requires o.call == Fine && GrantedRole(req.role).Some? && req.hash !in s.db.invites
    requires s.procs[rid].ic.sess.org in s.db.orgs && s.procs[rid].ic.sess.user in s.db.users
    ensures var row := InviteRow(s, req, s.procs[rid].ic.sess, GrantedRole(req.role).value);
            AdvanceProc(s, rid, o)
            == s.(db := s.db.(invites := s.db.invites[req.hash := row]), procs := s.procs[rid := Done(true)])
  {
    hide GrantedRole;
  }

  /** What a new Owner's invite to itself leaves: a live invite to Viewer, and no other member. */
  ghost predicate SelfInvited(t: State, a: Account, email: string, hash: string) {
    && a.org in t.creators && t.creators[a.org] == a.user && UserWith(t, a.user, Norm(email))
    && Live(t, hash) && t.db.invites[hash].org == a.org
    && t.db.invites[hash].role == Viewer && t.db.invites[hash].email == Norm(email)
    && forall u :: (a.org, u) in t.db.memberships <==> u == a.user
  }

  lemma InvitesItself(s: State, t: State, rid: nat, email: string, slug: string, a: Account, hash: string)
      returns (run: seq<Action>, u: State)
    requires Inv(s) && Inv(t) && AccountAdded(s, t, rid, email, slug, a) && Norm(email) != "" && hash !in s.db.invites
    ensures Leads(t, run, u) && SelfInvited(u, a, email, hash)
  {
    hide Inv;
    hide ValidRun;
    hide Execute;
    hide Norm;
    hide GrantedRole;
    hide IsBlank;
    NoMembersYet(s, a.org);
    ViewerGranted();
    NormNotBlank(email);
    var r := FreshId(t.procs.Keys);
    run, u := Invites(t, r, InviteReq(a.sid, email, "viewer", hash));
  }

  /** Every reachable state leads on to one with a live invite, so that overlapping accepts do happen. */
  lemma LiveInviteReached(s: State, run: seq<Action>, email: string, slug: string, hash: string)
      returns (more: seq<Action>, a: Account)
    requires RunFrom(s, run) && Unclaimed(Execute(s, run), email, slug) && hash !in Execute(s, run).db.invites
    ensures RunFrom(s, run + more) && SelfInvited(Execute(s, run + more), a, email, hash)
  {
    hide Inv;
    hide Grows;
    hide ValidRun;
    hide Execute;
    hide AccountAdded;
    hide SelfInvited;
    ReachedInv(s, run);
    var s0 := Execute(s, run);
    var r := FreshId(s0.procs.Keys);
    var run1, t1, acc := SignsUp(s0, r, email, slug);
    a := acc;
    var run2, t2 := InvitesItself(s0, t1, r, email, slug, a, hash);
    LeadsOn(s0, run1, t1, run2, t2);
    RunConcat(s, run, run1 + run2);
    more := run1 + run2;
  }

  lemma NoMembersYet(s: State, org: OrgId)
    requires Inv(s) && org !in s.issued
    ensures forall u :: (org, u) !in s.db.memberships
  {
    hide ProcInv;
  }

  lemma ViewerGranted()
    ensures GrantedRole("viewer") == Some(Viewer)
  {
    assert "viewer"[0] == 'v' && "viewer"[1..] == "iewer" && "iewer"[1..] == "ewer" && "ewer"[1..] == "wer";
    assert "wer"[1..] == "er" && "er"[1..] == "r" && "r"[1..] == "";
    assert ToLower("viewer") == "viewer";
    GrantedIff("viewer", Viewer);
  }

  lemma NormNotBlank(email: string)
    ensures IsBlank(email) <==> Norm(email) == ""
  {
  }

  /**
   From every reachable state there is a run at whose end an organisation made by a signup has no Owner: its
   maker took up an invite to itself.
   */
  lemma OwnerlessOrg(s: State, run: seq<Action>, email: string, slug: string, hash: string)
      returns (more: seq<Action>, org: OrgId)
    requires RunFrom(s, run) && Unclaimed(Execute(s, run), email, slug) && hash !in Execute(s, run).db.invites
    ensures RunFrom(s, run + more)
    ensures var t := Execute(s, run + more);
            && org in t.creators && (org, t.creators[org]) in t.db.memberships
            && forall u | (org, u) in t.db.memberships :: t.db.memberships[(org, u)] != Owner
  {
    hide Inv;
    hide Grows;
    hide ValidRun;
    hide Execute;
    hide Unclaimed;
    hide Norm;
    var run1, a := LiveInviteReached(s, run, email, slug, hash);
    var t1 := Execute(s, run + run1);
    ReachedInv(s, run + run1);
    var r := FreshId(t1.procs.Keys);
    var run2, t2 := LooksUp(t1, r, hash);
    var run3, t3, user := AcceptCompletes(t2, r, hash, t1.db.invites[hash]);
    LeadsOn(t1, run2, t2, run3, t3);
    SameHolder(t1, t3, run2 + run3, a.user, user, Norm(email));
    RunConcat(s, run + run1, run2 + run3);
    assert run + run1 + (run2 + run3) == run + (run1 + run2 + run3);
    more, org := run1 + run2 + run3, a.org;
  }

  lemma SameHolder(s: State, t: State, run: seq<Action>, one: UserId, other: UserId, email: string)
    requires Inv(s) && Leads(s, run, t) && UserWith(s, one, email) && UserWith(t, other, email)
    ensures one == other
  {
    hide ProcInv;
    hide Next;
    RunKeepsInv(s, run);
    assert EmailsUnique(t.db.users);
  }

  // ---------- Contested identities ----------

  lemma SoleOrgIsPicked(t: Tables, user: UserId, org: OrgId)
    requires (org, user) in t.memberships && org in t.orgs
    requires forall p | (p, user) in t.memberships :: p == org
    ensures IsPick(t, user, org)
  {
  }

  /** A new account can link what a provider gives with its address. */
  lemma NewAccountCanLink(s: State, t: State, rid: nat, claim: Claim, slug: string, a: Account)
    requires Inv(s) && AccountAdded(s, t, rid, claim.raw, slug, a) && Norm(claim.raw) != ""
    ensures CanLink(t, claim, claim.raw, a.user, a.org)
  {
    NobodyYet(s, a.user);
    NormIdempotent(claim.raw);
    hide Inv;
    hide Norm;
    hide ToLower;
    hide IsPick;
    SoleOrgIsPicked(t.db, a.user, a.org);
  }

  /** A pick depends on the user's own rows only. */
  lemma PickSurvives(t: Tables, u: Tables, user: UserId, org: OrgId)
    requires IsPick(t, user, org)
    requires forall p :: (p, user) in u.memberships <==> (p, user) in t.memberships
    requires forall p | (p, user) in t.memberships ::
      u.memberships[(p, user)] == t.memberships[(p, user)] && p in t.orgs && p in u.orgs && u.orgs[p] == t.orgs[p]
    ensures IsPick(u, user, org)
  {
  }

  lemma RowsSurvive(s: State, t: State, rid: nat, email: string, slug: string, a: Account, user: UserId)
    requires Inv(s) && AccountAdded(s, t, rid, email, slug, a) && user in s.db.users
    ensures user != a.user && user in t.db.users && t.db.users[user] == s.db.users[user]
    ensures forall p :: (p, user) in t.db.memberships <==> (p, user) in s.db.memberships
    ensures forall p | (p, user) in s.db.memberships ::
              t.db.memberships[(p, user)] == s.db.memberships[(p, user)]
              && p in s.db.orgs && p in t.db.orgs && t.db.orgs[p] == s.db.orgs[p]
  {
    OrgsHaveRows(s);
    hide Inv;
    hide Norm;
    hide ToLower;
  }

  /** It still can after another account was added. */
  lemma CanStillLink(s: State, t: State, rid: nat, email: string, slug: string, a: Account,
                     claim: Claim, login: string, user: UserId, org: OrgId)
    requires Inv(s) && AccountAdded(s, t, rid, email, slug, a) && CanLink(s, claim, login, user, org)
    requires Norm(login) != ToLower(Norm(email))
    ensures CanLink(t, claim, login, user, org)
  {
    hide Inv;
    hide Norm;
    hide ToLower;
    hide IsPick;
    RowsSurvive(s, t, rid, email, slug, a, user);
    PickSurvives(s.db, t.db, user, org);
  }

  lemma OrgsHaveRows(s: State)
    requires Inv(s)
    ensures forall k | k in s.db.memberships :: k.0 in s.db.orgs && k.1 in s.db.users
    ensures s.db.users.Keys <= s.issued && s.db.orgs.Keys <= s.issued
  {
    hide ProcInv;
  }

  /** An address and a slug stay unclaimed when an account with others is added. */
  lemma StillUnclaimed(s: State, t: State, rid: nat, email: string, slug: string, a: Account,
                       email': string, slug': string)
    requires Inv(s) && AccountAdded(s, t, rid, email, slug, a) && Unclaimed(s, email', slug')
    requires Norm(email) != Norm(email') && Norm(slug) != Norm(slug')
    ensures Unclaimed(t, email', slug')
  {
    NormIdempotent(email);
    NormIdempotent(email');
    hide Inv;
    hide Norm;
    hide ToLower;
    hide Slug.IsValidSlug;
  }

  lemma TwoAccounts(s: State, r: nat, first: Claim, second: Claim, x: string, y: string)
      returns (run: seq<Action>, t: State, a: Account, b: Account)
    requires Inv(s) && r !in s.procs && r + 1 !in s.procs
    requires Unclaimed(s, first.raw, x) && Unclaimed(s, second.raw, y)
    requires Norm(first.raw) != Norm(second.raw) && Norm(x) != Norm(y)
    ensures Leads(s, run, t) && t.procs == s.procs[r := Done(true)][r + 1 := Done(true)]
    ensures t.db.identities == s.db.identities && a.user != b.user
    ensures CanLink(t, first, first.raw, a.user, a.org) && CanLink(t, second, second.raw, b.user, b.org)
    ensures UserWith(t, b.user, Norm(second.raw))
  {
    hide Inv;
    hide ValidRun;
    hide Execute;
    hide Norm;
    hide IsPick;
    hide ToLower;
    hide SlugTaken;
    hide Slug.IsValidSlug;
    NormIdempotent(second.raw);
    var run1, t1, acc1 := SignsUp(s, r, first.raw, x);
    StillUnclaimed(s, t1, r, first.raw, x, acc1, second.raw, y);
    NewAccountCanLink(s, t1, r, first, x, acc1);
    var run2, t2, acc2 := SignsUp(t1, r + 1, second.raw, y);
    NewAccountCanLink(t1, t2, r + 1, second, y, acc2);
    CanStillLink(t1, t2, r + 1, second.raw, y, acc2, first, first.raw, acc1.user, acc1.org);
    LeadsOn(s, run1, t1, run2, t2);
    run, t, a, b := run1 + run2, t2, acc1, acc2;
  }

  lemma {:induction false} HoldsStill(s: State, run: seq<Action>, user: UserId, email: string)
    requires Inv(s) && ValidRun(s, run) && UserWith(s, user, email)
    ensures UserWith(Execute(s, run), user, email)
  {
    hide Inv;
    hide ValidRun;
    hide Execute;
    RunKeepsInv(s, run);
  }

  /**
   Every reachable state leads on to one in which two users were both told that they linked the same identity,
   which belongs to one of them only.
   */
  lemma ContestReached(s: State, run: seq<Action>, first: Claim, second: Claim, x: string, y: string)
      returns (more: seq<Action>, c: nat, d: nat, one: UserId, other: UserId)
    requires RunFrom(s, run) && Unclaimed(Execute(s, run), first.raw, x) && Unclaimed(Execute(s, run), second.raw, y)
    requires (first.provider, first.subject) == (second.provider, second.subject)
    requires (first.provider, first.subject) !in Execute(s, run).db.identities
    requires Norm(first.raw) != Norm(second.raw) && Norm(x) != Norm(y)
    ensures RunFrom(s, run + more)
    ensures var t := Execute(s, run + more);
            && c != d && Succeeded(t, c) && Succeeded(t, d)
            && LinkedTo(t, first.provider, first.subject, one)
            && UserWith(t, other, Norm(second.raw)) && other != one
  {
    hide Inv;
    hide Grows;
    hide ValidRun;
    hide Execute;
    hide AccountAdded;
    hide Unclaimed;
    hide CanLink;
    hide Norm;
    ReachedInv(s, run);
    var s0 := Execute(s, run);
    var r := FreshId(s0.procs.Keys);
    var run1, t2, a, b := TwoAccounts(s0, r, first, second, x, y);
    var a', b' := r + 2, r + 3;
    c, d, one, other := r + 4, r + 5, a.user, b.user;
    var x', y' := first.raw, second.raw;
    var run2 := OverlappingLinksSucceed(t2, a', b', c, d, first, second, x', one, a.org, y', other, b.org);
    HoldsStill(t2, run2, other, Norm(second.raw));
    RunConcat(s0, run1, run2);
    RunConcat(s, run, run1 + run2);
    more := run1 + run2;
  }

  // ---------- Second factors that are not asked for ----------

  /** A login whose lookup of the second factor fails gets past it. */
  lemma LoginAsks(s: State, rid: nat, username: string, user: UserId) returns (run: seq<Action>, t: State)
    requires Inv(s) && rid !in s.procs && Norm(username) != ""
    requires UserByUsername(s.db, ToLower(Norm(username))) == Some(user)
    ensures Leads(s, run, t) && |run| == 2 && run[0] == StartLogin(rid, username)
    ensures t == s.(procs := s.procs[rid := Login(LiHasTotp(Norm(username), user))])
  {
    hide Inv;
    hide ValidRun;
    hide Execute;
    hide Norm;
    hide ToLower;
    var start := StartLogin(rid, username);
    var t0 := Next(s, start);
    StartLeads(s, start);
    var o1, run1, t1 := StepWell(t0, rid, 0);
    LeadsOn(s, [start], t0, run1, t1);
    run, t := [start] + run1, t1;
  }

  lemma LoginSkips(s: State, rid: nat, username: string, user: UserId, org: OrgId) returns (run: seq<Action>, t: State)
    requires Inv(s) && rid in s.procs && s.procs[rid] == Login(LiHasTotp(username, user)) && IsPick(s.db, user, org)
    ensures Leads(s, run, t) && Succeeded(t, rid) && run != [] && LookupFailed(s, run[0], rid, user)
  {
    hide Inv;
    hide ValidRun;
    hide Execute;
    hide IsPick;
    var o1, run1, t1 := StepWith(s, rid, Failed, 0, false);
    assert t1 == Goto(s, rid, Login(LiPick(username, user)));
    var o2, run2, t2 := StepWell(t1, rid, org);
    LeadsOn(s, run1, t1, run2, t2);
    assert t2 == Goto(t1, rid, Login(LiSession(username, user, org)));
    var o3, run3, t3 := StepWell(t2, rid, org);
    LeadsOn(s, run1 + run2, t2, run3, t3);
    run, t := run1 + run2 + run3, t3;
  }

  /** No code is accepted in a request whose lookup failed. */
  lemma NoCodeThere(s: State, run: seq<Action>, i: nat, rid: nat, user: UserId)
    requires RunFrom(s, run) && i < |run| && LookupFailed(At(s, run, i), run[i], rid, user)
    ensures forall other :: !CodeAcceptedIn(s, run, rid, other)
  {
    hide CodeAccepted;
    hide LookupFailed;
    hide At;
    forall other ensures !CodeAcceptedIn(s, run, rid, other) {
      if CodeAcceptedIn(s, run, rid, other) {
        var j :| 0 <= j < |run| && CodeAccepted(At(s, run, j), run[j], rid, other);
        OneFactorEvent(s, run, j, i, rid, other, user);
      }
    }
  }

  /** A run to the lookup, and on from it, put behind what has happened so far. */
  lemma {:induction false} LookupFailsIn(s: State, run: seq<Action>, t: State, a: seq<Action>, u: State, b: seq<Action>,
                      rid: nat, user: UserId)
    requires RunFrom(s, run) && Execute(s, run) == t && Leads(t, a, u) && ValidRun(u, b) && b != []
    requires LookupFailed(u, b[0], rid, user)
    ensures RunFrom(s, run + (a + b)) && Execute(s, run + (a + b)) == Execute(u, b)
    ensures forall other :: !CodeAcceptedIn(s, run + (a + b), rid, other)
  {
    hide ValidRun;
    hide Execute;
    hide Inv;
    hide LookupFailed;
    hide CodeAcceptedIn;
    RunConcat(t, a, b);
    RunConcat(s, run, a + b);
    AtFurtherOn(s, run, a + b, |a|);
    assert (a + b)[..|a|] == a && (run + (a + b))[|run| + |a|] == b[0];
    hide At;
    NoCodeThere(s, run + (a + b), |run| + |a|, rid, user);
  }

  /**
   From every reachable state, a user with a password and an organisation, enrolled or not, can log in without
   a code ever being accepted: it takes one failed lookup.
   */
  lemma FailedLookupSkipsTheCode(s: State, run: seq<Action>, username: string, user: UserId, org: OrgId)
      returns (more: seq<Action>)
    requires RunFrom(s, run) && Norm(username) != "" && IsPick(Execute(s, run).db, user, org)
    requires UserByUsername(Execute(s, run).db, ToLower(Norm(username))) == Some(user)
    ensures SucceededIn(s, run + more, |run|) && (run + more)[|run|].StartLogin?
    ensures LoginName((run + more)[|run|]) == ToLower(Norm(username))
    ensures forall other :: !CodeAcceptedIn(s, run + more, (run + more)[|run|].rid, other)
  {
    hide Inv;
    hide Grows;
    hide ValidRun;
    hide Execute;
    hide Norm;
    hide ToLower;
    hide IsPick;
    hide CodeAcceptedIn;
    hide LookupFailed;
    ReachedInv(s, run);
    var s0 := Execute(s, run);
    var r := FreshId(s0.procs.Keys);
    var run1, t1 := LoginAsks(s0, r, username, user);
    PickAnywhere(s0, t1, user, org);
    var run2, t2 := LoginSkips(t1, r, Norm(username), user, org);
    LookupFailsIn(s, run, s0, run1, t1, run2, r, user);
    more := run1 + run2;
    assert (run + more)[|run|] == run1[0];
  }

  lemma PickAnywhere(s: State, t: State, user: UserId, org: OrgId)
    requires IsPick(s.db, user, org) && t.db == s.db
    ensures IsPick(t.db, user, org)
  {
  }

  lemma LinkSkips(s: State, rid: nat, req: LinkReq, link: PendingLink, user: UserId, org: OrgId)
      returns (run: seq<Action>, t: State)
    requires Inv(s) && rid in s.procs && s.procs[rid] == Link(LnHasTotp(req, link, user, link.email))
    requires (link.provider, link.subject) !in s.db.identities && IsPick(s.db, user, org)
    ensures Leads(s, run, t) && Succeeded(t, rid) && run != [] && LookupFailed(s, run[0], rid, user)
  {
    hide Inv;
    hide ValidRun;
    hide Execute;
    hide IsPick;
    hide Norm;
    var o1, run1, t1 := StepWith(s, rid, Failed, 0, false);
    assert t1 == Goto(s, rid, Link(LnMatch(req, link, user, link.email)));
    var o2, run2, t2 := StepWell(t1, rid, 0);
    LeadsOn(s, run1, t1, run2, t2);
    assert t2 == Goto(t1, rid, Link(LnCheck(req, link, user)));
    var o3, run3, t3 := StepWell(t2, rid, 0);
    LeadsOn(s, run1 + run2, t2, run3, t3);
    assert t3 == Goto(t2, rid, Link(LnLink(req, link, user)));
    PickAnywhere(s, t3, user, org);
    var run4, t4 := Finishes(t3, rid, org);
    LeadsOn(s, run1 + run2 + run3, t3, run4, t4);
    run, t := run1 + run2 + run3 + run4, t4;
  }

  /** Nor does linking an identity that waits for a user of this address. */
  lemma FailedLookupLinksWithoutCode(s: State, run: seq<Action>, token: nat, login: string, user: UserId, org: OrgId)
      returns (more: seq<Action>)
    requires RunFrom(s, run) && Norm(login) != "" && IsPick(Execute(s, run).db, user, org)
    requires UserByUsername(Execute(s, run).db, Norm(login)) == Some(user)
    requires var t := Execute(s, run);
             && token in t.pending && !Stale(t.pending[token], t.clock)
             && (t.pending[token].provider, t.pending[token].subject) !in t.db.identities
             && t.db.users[user].email == t.pending[token].email
    ensures SucceededIn(s, run + more, |run|) && (run + more)[|run|].StartLink?
    ensures (run + more)[|run|].token == token && LoginName((run + more)[|run|]) == Norm(login)
    ensures forall other :: !CodeAcceptedIn(s, run + more, (run + more)[|run|].rid, other)
  {
    hide Inv;
    hide Grows;
    hide ValidRun;
    hide Execute;
    hide Norm;
    hide IsPick;
    hide CodeAcceptedIn;
    hide LookupFailed;
    ReachedInv(s, run);
    var s0 := Execute(s, run);
    var r := FreshId(s0.procs.Keys);
    var run1, t1 := LinkAsks(s0, r, token, login, user);
    PickAnywhere(s0, t1, user, org);
    var run2, t2 := LinkSkips(t1, r, LinkReq(token, Norm(login)), s0.pending[token], user, org);
    LookupFailsIn(s, run, s0, run1, t1, run2, r, user);
    more := run1 + run2;
    assert (run + more)[|run|] == run1[0];
  }

  lemma {:induction false} AtFurtherOn(s: State, run: seq<Action>, more: seq<Action>, i: nat)
    requires RunFrom(s, run + more) && i <= |more|
    ensures ValidRun(s, run) && ValidRun(Execute(s, run), more[..i])
    ensures At(s, run + more, |run| + i) == Execute(Execute(s, run), more[..i])
  {
    hide ValidRun;
    hide Execute;
    AtFurther(s, run + more, |run|, |run| + i);
    assert (run + more)[|run|..] == more && (run + more)[..|run|] == run;
    RunSplit(s, run + more, |run|);
  }
}
