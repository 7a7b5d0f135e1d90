/** What a request that was answered well has brought about, whatever else ran beside it and after it. */
module AuthOutcomes {
  import opened Options
  import opened Clock
  import opened Text
  import opened Repo
  import opened AuthMachine
  import opened AuthInvariants
  import opened AuthSteps
  import opened AuthTheorems

  /** What was asked for. */
  datatype Request =
    | SignupOf(signup: SignupReq)
    | LoginOf(username: string)
    | CallbackOf(claim: Claim)
    | LinkOf(link: LinkReq)
    | InviteOf(invite: InviteReq)
    | AcceptOf(hash: string)

  /** The request a counter works on; `None` once it is answered. */
  function RequestOf(p: Proc): Option<Request> {
    match p
    case Signup(pc) => Some(SignupOf(pc.req))
    case Login(pc) => Some(LoginOf(pc.username))
    case Callback(pc) => Some(CallbackOf(pc.claim))
    case Link(pc) => Some(LinkOf(pc.req))
    case NewInvite(pc) => Some(InviteOf(pc.req))
    case Accept(pc) => Some(AcceptOf(pc.hash))
    case Done(_) => None
  }

  /** What the tables show for `user` and `org` after the request was answered well. */
  ghost predicate Outcome(s: State, r: Request, user: UserId, org: OrgId) {
    && Joined(s, org, user)
    && match r
       case SignupOf(req) =>
         UserWith(s, user, req.email) && Credential(s, req.username, user) && MadeFor(s, org, req.slug, user)
       case LoginOf(username) => Credential(s, username, user)
       case CallbackOf(claim) => LinkedTo(s, claim.provider, claim.subject, user)
       case LinkOf(req) =>
         && req.token in s.asserted && UserWith(s, user, Norm(s.asserted[req.token].raw))
         && (s.asserted[req.token].provider, s.asserted[req.token].subject) in s.db.identities
         && req.email in s.db.creds && s.db.creds[req.email] == user
         && Spent(s, req.token)
       case InviteOf(req) =>
         && req.hash in s.db.invites
         && var inv := s.db.invites[req.hash];
            && inv.org == org && inv.inviter == user && inv.email == Norm(req.email)
            && GrantedRole(req.role) == Some(inv.role)
            && (org in s.creators ==> s.creators[org] == user)
       case AcceptOf(hash) =>
         && hash in s.db.invites
         && var inv := s.db.invites[hash];
            inv.org == org && UserWith(s, user, inv.email) && inv.usedAt.Some?
  }

  /** The other good end of a callback: a token was handed out, for an address some user holds. */
  ghost predicate Offered(s: State, claim: Claim, token: nat) {
    token in s.asserted && s.asserted[token] == claim && AddressHeld(s.db.users, Norm(claim.raw))
  }

  ghost predicate Answered(s: State, r: Request) {
    || (exists user, org :: Outcome(s, r, user, org))
    || (r.CallbackOf? && exists token :: Offered(s, r.claim, token))
  }

  ghost predicate Served(s: State, p: Proc, r: Request) {
    match p
    case Done(ok) => ok ==> Answered(s, r)
    case _ => RequestOf(p) == Some(r)
  }

  /** The step opened a session, for eight hours, for the user and organisation of the outcome, and touched no table. */
  ghost predicate Opened(s: State, t: State, sid: nat, r: Request, provider: string) {
    && sid !in s.sessions && sid in t.sessions && t.sessions == s.sessions[sid := t.sessions[sid]] && t.db == s.db
    && t.sessions[sid].provider == provider && t.sessions[sid].expiry == Some(s.clock + 8 * HOUR)
    && Outcome(t, r, t.sessions[sid].user, t.sessions[sid].org)
  }

  // ---------- One step ----------

  /** A session opened by a request's last step. */
  lemma OpensSession(s: State, rid: nat, user: UserId, org: OrgId, provider: string, newId: nat, r: Request)
    requires TablesInv(s) && newId !in s.issued && Outcome(s, r, user, org)
    ensures Opened(s, Goto(WithSession(s, user, org, provider, newId), rid, Done(true)), newId, r, provider)
  {
    hide Norm;
    hide GrantedRole;
    assert Outcome(Goto(WithSession(s, user, org, provider, newId), rid, Done(true)), r, user, org);
  }

  lemma WriteGoes(s: State, rid: nat, o: Oracle, t: Option<State>, next: Proc)
    ensures var u := Write(s, rid, o, t, next);
            rid in u.procs && (u.procs[rid] == next || u.procs[rid] == Done(false))
  {
  }

  lemma SignupGoes(s: State, rid: nat, pc: SignupPc, o: Oracle)
    ensures var t := AdvanceSignup(s, rid, pc, o);
            && rid in t.procs && (t.procs[rid] == Done(true) ==> pc.SuSession?)
            && (!t.procs[rid].Done? ==> RequestOf(t.procs[rid]) == RequestOf(Signup(pc)))
  {
    hide ToLower;
    hide WithUser;
    hide WithOrg;
    hide WithSession;
    hide UpsertUser;
    hide CreateCredential;
    hide EnsureMembership;
    hide SlugTaken;
  }

  lemma LoginGoes(s: State, rid: nat, pc: LoginPc, o: Oracle)
    ensures var t := AdvanceLogin(s, rid, pc, o);
            && rid in t.procs && (t.procs[rid] == Done(true) ==> pc.LiSession?)
            && (!t.procs[rid].Done? ==> RequestOf(t.procs[rid]) == RequestOf(Login(pc)))
  {
    hide WithSession;
    hide IsPick;
  }

  lemma CallbackGoes(s: State, rid: nat, pc: CallbackPc, o: Oracle)
    ensures var t := AdvanceCallback(s, rid, pc, o);
            && rid in t.procs && (t.procs[rid] == Done(true) ==> pc.CbSession? || pc.CbPending?)
            && (!t.procs[rid].Done? ==> RequestOf(t.procs[rid]) == RequestOf(Callback(pc)))
  {
    hide UserByIdentity;
    hide UserByEmail;
    hide Norm;
    hide WithSession;
    hide WithPending;
    hide IsPick;
    hide EnsureMembership;
    match pc
    case CbPending(_, _) =>
    case CbEnsure(_, _, _) =>
    case CbSession(_, _, _) =>
    case _ =>
  }

  lemma LinkGoes(s: State, rid: nat, pc: LinkPc, o: Oracle)
    ensures var t := AdvanceLink(s, rid, pc, o);
            && rid in t.procs && (t.procs[rid] == Done(true) ==> pc.LnSession?)
            && (!t.procs[rid].Done? ==> RequestOf(t.procs[rid]) == RequestOf(Link(pc)))
  {
    hide WithSession;
    hide IsPick;
    hide LinkIdentity;
    hide Norm;
    hide Pending.Get;
    match pc
    case LnStart(_) =>
    case LnLink(_, _, _) =>
    case LnForget(_, _, _) =>
    case _ =>
  }

  lemma NewInviteGoes(s: State, rid: nat, pc: InvitePc, o: Oracle)
    ensures var t := AdvanceInvite(s, rid, pc, o);
            && rid in t.procs && (t.procs[rid] == Done(true) ==> pc.IcStore?)
            && (!t.procs[rid].Done? ==> RequestOf(t.procs[rid]) == RequestOf(NewInvite(pc)))
  {
    hide CreateInvite;
    hide GrantedRole;
    hide InviteRow;
    hide LiveSession;
  }

  lemma AcceptGoes(s: State, rid: nat, pc: AcceptPc, o: Oracle)
    ensures var t := AdvanceAccept(s, rid, pc, o);
            && rid in t.procs && (t.procs[rid] == Done(true) ==> pc.AcSession?)
            && (!t.procs[rid].Done? ==> RequestOf(t.procs[rid]) == RequestOf(Accept(pc)))
  {
    hide UserByEmail;
    hide Norm;
    hide ToLower;
    hide WithUser;
    hide WithSession;
    hide UpsertUser;
    hide EnsureMembership;
    hide UseInvite;
    hide Write;
    match pc
    case AcUpsert(hash, inv) =>
      var user := UpsertUser(s.db.users, ToLower(inv.email), "", o.newId).1;
      WriteGoes(s, rid, o, Some(WithUser(s, ToLower(inv.email), "", o.newId)), Accept(AcMember(hash, inv, user)));
    case AcMember(hash, inv, user) =>
      var joined := OnTables(s, EnsureMembership(s.db, inv.org, user, inv.role));
      WriteGoes(s, rid, o, joined, Accept(AcUse(hash, inv, user)));
    case AcUse(hash, inv, user) =>
      WriteGoes(s, rid, o, Some(s.(db := UseInvite(s.db, hash, s.clock))), Accept(AcSession(hash, inv, user)));
    case _ =>
  }

  lemma SignupEnds(s: State, rid: nat, pc: SignupPc, o: Oracle)
    requires TablesInv(s) && o.newId !in s.issued && SignupInv(s, pc)
    requires Succeeded(AdvanceSignup(s, rid, pc, o), rid)
    ensures Opened(s, AdvanceSignup(s, rid, pc, o), o.newId, SignupOf(pc.req), "local")
  {
    hide TablesInv;
    hide Opened;
    hide WithSession;
    hide Slug.PlainSlug;
    hide Norm;
    hide WithUser;
    hide WithOrg;
    hide UpsertUser;
    hide CreateCredential;
    hide EnsureMembership;
    hide SlugTaken;
    SignupGoes(s, rid, pc, o);
    OpensSession(s, rid, pc.user, pc.org, "local", o.newId, SignupOf(pc.req));
  }

  lemma LoginEnds(s: State, rid: nat, pc: LoginPc, o: Oracle)
    requires TablesInv(s) && o.newId !in s.issued && LoginInv(s, pc)
    requires Succeeded(AdvanceLogin(s, rid, pc, o), rid)
    ensures Opened(s, AdvanceLogin(s, rid, pc, o), o.newId, LoginOf(pc.username), "local")
  {
    hide TablesInv;
    hide Opened;
    hide WithSession;
    LoginGoes(s, rid, pc, o);
    OpensSession(s, rid, pc.user, pc.org, "local", o.newId, LoginOf(pc.username));
  }

  /** A callback ends well with a session, or with a token for the identity it was about. */
  lemma CallbackEnds(s: State, rid: nat, pc: CallbackPc, o: Oracle)
    requires TablesInv(s) && o.newId !in s.issued && CallbackInv(s, pc)
    requires Succeeded(AdvanceCallback(s, rid, pc, o), rid)
    ensures var t := AdvanceCallback(s, rid, pc, o);
            || Opened(s, t, o.newId, CallbackOf(pc.claim), pc.claim.provider)
            || (t.sessions == s.sessions && Offered(t, pc.claim, o.newId))
  {
    hide TablesInv;
    hide Opened;
    hide WithSession;
    hide Norm;
    CallbackGoes(s, rid, pc, o);
    if pc.CbSession? {
      OpensSession(s, rid, pc.user, pc.org, pc.claim.provider, o.newId, CallbackOf(pc.claim));
    }
  }

  lemma LinkEnds(s: State, rid: nat, pc: LinkPc, o: Oracle)
    requires TablesInv(s) && o.newId !in s.issued && LinkInv(s, pc)
    requires Succeeded(AdvanceLink(s, rid, pc, o), rid)
    ensures pc.req.token in s.asserted
    ensures Opened(s, AdvanceLink(s, rid, pc, o), o.newId, LinkOf(pc.req), s.asserted[pc.req.token].provider)
  {
    hide TablesInv;
    hide Opened;
    hide WithSession;
    hide Norm;
    LinkGoes(s, rid, pc, o);
    OpensSession(s, rid, pc.user, pc.org, pc.link.provider, o.newId, LinkOf(pc.req));
  }

  /** An invite made well is one new row, for the address and role asked for, in its maker's organisation. */
  lemma InviteEnds(s: State, rid: nat, pc: InvitePc, o: Oracle)
    requires TablesInv(s) && o.newId !in s.issued && NewInviteInv(s, pc)
    requires Succeeded(AdvanceInvite(s, rid, pc, o), rid)
    ensures var t := AdvanceInvite(s, rid, pc, o);
            && pc.IcStore? && pc.req.hash !in s.db.invites && pc.req.hash in t.db.invites
            && t == s.(db := s.db.(invites := t.db.invites), procs := t.procs)
            && t.db.invites == s.db.invites[pc.req.hash := t.db.invites[pc.req.hash]]
            && t.db.invites[pc.req.hash].usedAt == None
            && t.db.invites[pc.req.hash].expires == s.clock + 7 * 24 * HOUR
            && Outcome(t, InviteOf(pc.req), pc.sess.user, pc.sess.org)
  {
    hide TablesInv;
    hide Norm;
    hide GrantedRole;
    NewInviteGoes(s, rid, pc, o);
  }

  lemma AcceptEnds(s: State, rid: nat, pc: AcceptPc, o: Oracle)
    requires TablesInv(s) && o.newId !in s.issued && AcceptInv(s, pc)
    requires Succeeded(AdvanceAccept(s, rid, pc, o), rid)
    ensures Opened(s, AdvanceAccept(s, rid, pc, o), o.newId, AcceptOf(pc.hash), "invite")
  {
    hide TablesInv;
    hide Opened;
    hide WithSession;
    hide WithUser;
    hide UpsertUser;
    hide EnsureMembership;
    hide UseInvite;
    AcceptGoes(s, rid, pc, o);
    OpensSession(s, rid, pc.user, pc.inv.org, "invite", o.newId, AcceptOf(pc.hash));
  }

  lemma OpenedAnswers(s: State, t: State, sid: nat, r: Request, provider: string)
    requires Opened(s, t, sid, r, provider)
    ensures Answered(t, r)
  {
    hide Outcome;
  }

  lemma AdvanceGoes(s: State, rid: nat, o: Oracle, r: Request)
    requires rid in s.procs && RequestOf(s.procs[rid]) == Some(r)
    ensures var t := AdvanceProc(s, rid, o);
            rid in t.procs && (!t.procs[rid].Done? ==> RequestOf(t.procs[rid]) == Some(r))
  {
    hide AdvanceSignup;
    hide AdvanceLogin;
    hide AdvanceCallback;
    hide AdvanceLink;
    hide AdvanceInvite;
    hide AdvanceAccept;
    match s.procs[rid]
    case Signup(pc) => SignupGoes(s, rid, pc, o);
    case Login(pc) => LoginGoes(s, rid, pc, o);
    case Callback(pc) => CallbackGoes(s, rid, pc, o);
    case Link(pc) => LinkGoes(s, rid, pc, o);
    case NewInvite(pc) => NewInviteGoes(s, rid, pc, o);
    case Accept(pc) => AcceptGoes(s, rid, pc, o);
  }

  lemma AdvanceEnds(s: State, rid: nat, o: Oracle, r: Request)
    requires Inv(s) && Enabled(s, Advance(rid, o)) && RequestOf(s.procs[rid]) == Some(r)
    requires Succeeded(AdvanceProc(s, rid, o), rid)
    ensures Answered(AdvanceProc(s, rid, o), r)
  {
    hide TablesInv;
    hide Outcome;
    hide Opened;
    hide Offered;
    hide AdvanceSignup;
    hide AdvanceLogin;
    hide AdvanceCallback;
    hide AdvanceLink;
    hide AdvanceInvite;
    hide AdvanceAccept;
    var t := AdvanceProc(s, rid, o);
    assert ProcInv(s, s.procs[rid]);
    match s.procs[rid]
    case Signup(pc) =>
      SignupEnds(s, rid, pc, o);
      OpenedAnswers(s, t, o.newId, r, "local");
    case Login(pc) =>
      LoginEnds(s, rid, pc, o);
      OpenedAnswers(s, t, o.newId, r, "local");
    case Callback(pc) =>
      CallbackEnds(s, rid, pc, o);
      if Opened(s, t, o.newId, r, pc.claim.provider) {
        OpenedAnswers(s, t, o.newId, r, pc.claim.provider);
      }
    case Link(pc) =>
      LinkEnds(s, rid, pc, o);
      OpenedAnswers(s, t, o.newId, r, s.asserted[pc.req.token].provider);
    case NewInvite(pc) =>
      InviteEnds(s, rid, pc, o);
    case Accept(pc) =>
      AcceptEnds(s, rid, pc, o);
      OpenedAnswers(s, t, o.newId, r, "invite");
  }

  lemma AdvanceServes(s: State, rid: nat, o: Oracle, r: Request)
    requires Inv(s) && Enabled(s, Advance(rid, o)) && RequestOf(s.procs[rid]) == Some(r)
    ensures var t := AdvanceProc(s, rid, o); rid in t.procs && Served(t, t.procs[rid], r)
  {
    hide Inv;
    hide AdvanceProc;
    hide Answered;
    AdvanceGoes(s, rid, o, r);
    if Succeeded(AdvanceProc(s, rid, o), rid) {
      AdvanceEnds(s, rid, o, r);
    }
  }

  // ---------- What was brought about stays ----------

  lemma OutcomeStable(s: State, t: State, r: Request, user: UserId, org: OrgId)
    requires Grows(s, t) && Outcome(s, r, user, org)
    ensures Outcome(t, r, user, org)
  {
    hide Norm;
    hide GrantedRole;
    hide SessionsGrow;
  }

  lemma AnsweredStable(s: State, t: State, r: Request)
    requires Inv(t) && Grows(s, t) && Answered(s, r)
    ensures Answered(t, r)
  {
    hide Outcome;
    hide Norm;
    hide Inv;
    if user, org :| Outcome(s, r, user, org) {
      OutcomeStable(s, t, r, user, org);
    } else {
      var token :| Offered(s, r.claim, token);
      assert Offered(t, r.claim, token);
    }
  }

  ghost predicate ServedAt(s: State, rid: nat, r: Request) { rid in s.procs && Served(s, s.procs[rid], r) }

  lemma ServedStays(s: State, t: State, rid: nat, r: Request)
    requires Inv(t) && Grows(s, t) && ServedAt(s, rid, r) && rid in t.procs && t.procs[rid] == s.procs[rid]
    ensures ServedAt(t, rid, r)
  {
    hide Inv;
    hide Grows;
    hide Answered;
    if s.procs[rid] == Done(true) {
      AnsweredStable(s, t, r);
    }
  }

  /** A request in flight is served as what it is; an answered one is in flight no more. */
  lemma ServedMoves(s: State, rid: nat, o: Oracle, r: Request)
    requires Enabled(s, Advance(rid, o)) && ServedAt(s, rid, r)
    ensures RequestOf(s.procs[rid]) == Some(r)
  {
    hide Answered;
  }

  lemma NextServes(s: State, a: Action, rid: nat, r: Request)
    requires Inv(s) && Enabled(s, a) && ServedAt(s, rid, r)
    ensures ServedAt(Next(s, a), rid, r)
  {
    hide Inv;
    hide AdvanceProc;
    hide Served;
    hide Grows;
    NextKeepsInv(s, a);
    if a.Advance? && a.rid == rid {
      ServedMoves(s, rid, a.o, r);
      AdvanceServes(s, rid, a.o, r);
    } else {
      if a.Advance? {
        OthersStand(s, a.rid, a.o, rid);
      }
      ServedStays(s, Next(s, a), rid, r);
    }
  }

  lemma {:induction false} RunServes(s: State, run: seq<Action>, rid: nat, r: Request)
    requires Inv(s) && ValidRun(s, run) && ServedAt(s, rid, r)
    ensures ServedAt(Execute(s, run), rid, r)
    decreases run
  {
    hide Inv;
    hide Next;
    hide ServedAt;
    if run != [] {
      NextKeepsInv(s, run[0]);
      NextServes(s, run[0], rid, r);
      RunServes(Next(s, run[0]), run[1..], rid, r);
    }
  }

  // ---------- From the request to its answer ----------

  /** The request a run's action makes, its inputs normalised. */
  function Made(a: Action): Option<Request> {
    match a
    case StartSignup(_, email, username, name, slug) =>
      var login := if Norm(username) == "" then Norm(email) else Norm(username);
      Some(SignupOf(SignupReq(Norm(email), login, TrimSpace(name), Norm(slug))))
    case StartLogin(_, username) => Some(LoginOf(Norm(username)))
    case StartCallback(_, claim) => Some(CallbackOf(claim))
    case StartLink(_, token, email) => Some(LinkOf(LinkReq(token, Norm(email))))
    case StartInvite(_, req) => Some(InviteOf(req))
    case StartAccept(_, hash) => Some(AcceptOf(hash))
    case _ => None
  }

  /** A run, a request made at its end, and whatever happens from then on. */
  ghost predicate RequestRun(s: State, run: seq<Action>, a: Action, more: seq<Action>) {
    && RunFrom(s, run) && Made(a).Some? && Enabled(Execute(s, run), a)
    && ValidRun(Next(Execute(s, run), a), more)
  }

  ghost function After(s: State, run: seq<Action>, a: Action, more: seq<Action>): State
    requires RequestRun(s, run, a, more)
  {
    Execute(Next(Execute(s, run), a), more)
  }

  lemma StartServes(s: State, a: Action)
    requires Enabled(s, a) && Made(a).Some?
    ensures ServedAt(Next(s, a), a.rid, Made(a).value)
  {
    hide Answered;
    hide Norm;
    hide Slug.IsValidSlug;
  }

  /** A request that was answered well has brought about what it asked for, and that still stands at the end. */
  lemma SuccessMeansDone(s: State, run: seq<Action>, a: Action, more: seq<Action>)
    requires RequestRun(s, run, a, more) && Succeeded(After(s, run, a, more), a.rid)
    ensures Answered(After(s, run, a, more), Made(a).value)
  {
    hide Inv;
    hide Answered;
    hide Grows;
    hide Norm;
    hide Next;
    ReachedInv(s, run);
    var t := Execute(s, run);
    NextKeepsInv(t, a);
    StartServes(t, a);
    RunServes(Next(t, a), more, a.rid, Made(a).value);
  }

  /**
   A signup that was answered well: the one user with its address has its login name and is in an
   organisation of its own with its slug, in the role of Owner or in one it later invited itself to.
   */
  lemma SignupSucceeded(s: State, run: seq<Action>, a: Action, more: seq<Action>) returns (user: UserId, org: OrgId)
    requires RequestRun(s, run, a, more) && a.StartSignup? && Succeeded(After(s, run, a, more), a.rid)
    ensures var t := After(s, run, a, more);
            && (forall v :: v in t.db.users && t.db.users[v].email == Norm(a.email) <==> v == user)
            && org in t.db.orgs && t.db.orgs[org].slug == Norm(a.slug) && Slug.PlainSlug(Norm(a.slug))
            && org in t.creators && t.creators[org] == user && (org, user) in t.db.memberships
            && var login := ToLower(if Norm(a.username) == "" then Norm(a.email) else Norm(a.username));
               login in t.db.creds && t.db.creds[login] == user
  {
    hide Norm;
    hide Slug.PlainSlug;
    SuccessMeansDone(s, run, a, more);
    var t := After(s, run, a, more);
    user, org :| Outcome(t, Made(a).value, user, org);
    ReachedInv(s, run);
    NextKeepsInv(Execute(s, run), a);
    RunKeepsInv(Next(Execute(s, run), a), more);
    assert EmailsUnique(t.db.users);
  }

  /** An invite that was taken up once is refused to everyone who asks later. */
  lemma {:induction false} TakenUpOnce(
      s: State, run: seq<Action>, a: Action, more: seq<Action>, b: Action, rest: seq<Action>)
    requires RequestRun(s, run, a, more) && a.StartAccept? && Succeeded(After(s, run, a, more), a.rid)
    requires b.StartAccept? && b.hash == a.hash && Enabled(After(s, run, a, more), b)
    requires ValidRun(Next(After(s, run, a, more), b), rest)
    ensures !Succeeded(Execute(Next(After(s, run, a, more), b), rest), b.rid)
  {
    hide Inv;
    hide Grows;
    hide ValidRun;
    hide Execute;
    SuccessMeansDone(s, run, a, more);
    var t := After(s, run, a, more);
    var user, org :| Outcome(t, AcceptOf(a.hash), user, org);
    ReachedInv(s, run);
    NextKeepsInv(Execute(s, run), a);
    RunKeepsInv(Next(Execute(s, run), a), more);
    NextKeepsInv(t, b);
    assert Dead(Next(t, b), a.hash) && Refusing(Next(t, b), b.rid, a.hash);
    DeadInviteIsRefused(Next(t, b), rest, b.rid, a.hash);
  }
}
