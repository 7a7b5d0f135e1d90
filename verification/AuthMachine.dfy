/**
 Signup, login, provider callback, account linking and invites as interleaved transactions.  A request in
 flight is a program counter with its local variables; every repository call, every access to the session
 map or the pending map is one atomic step; any call may fail, with or without its effect.
 */
module AuthMachine {
  import opened Options
  import opened Clock
  import opened Text
  import opened Repo
  import opened Pending
  import opened Sessions
  import Slug

  /** What a provider said at a callback: `raw` is the e-mail address before it is normalised. */
  datatype Claim = Claim(provider: string, subject: string, raw: string)

  // ---------- Requests in flight ----------

  /** The body of a signup, normalised. */
  datatype SignupReq = SignupReq(email: string, username: string, name: string, slug: string)

  /** SignupHandler: upsert user, create credential, look for the slug, create org, membership, session. */
  datatype SignupPc =
    | SuUser(req: SignupReq)
    | SuCred(req: SignupReq, user: UserId)
    | SuFind(req: SignupReq, user: UserId)
    | SuOrg(req: SignupReq, user: UserId)
    | SuMember(req: SignupReq, user: UserId, org: OrgId)
    | SuSession(req: SignupReq, user: UserId, org: OrgId)

  /** LoginHandler. */
  datatype LoginPc =
    | LiCred(username: string)
    | LiHasTotp(username: string, user: UserId)
    | LiCode(username: string, user: UserId)
    | LiPick(username: string, user: UserId)
    | LiSession(username: string, user: UserId, org: OrgId)

  /** CallbackHandler; CbResolve and CbEnsure are its branch for identities that are not linked. */
  datatype CallbackPc =
    | CbIdentity(claim: Claim, email: string)
    | CbEmail(claim: Claim, email: string)
    | CbPending(claim: Claim, email: string)
    | CbOrg(user: UserId, linked: bool, claim: Claim)
    | CbResolve(user: UserId, claim: Claim)
    | CbEnsure(user: UserId, org: OrgId, claim: Claim)
    | CbSession(user: UserId, org: OrgId, claim: Claim)

  /** The token in the cookie and the normalised address in the body. */
  datatype LinkReq = LinkReq(token: nat, email: string)

  /** LinkWithPasswordHandler. */
  datatype LinkPc =
    | LnStart(req: LinkReq)
    | LnCred(req: LinkReq, link: PendingLink)
    | LnHasTotp(req: LinkReq, link: PendingLink, user: UserId, userEmail: string)
    | LnCode(req: LinkReq, link: PendingLink, user: UserId, userEmail: string)
    | LnMatch(req: LinkReq, link: PendingLink, user: UserId, userEmail: string)
    | LnCheck(req: LinkReq, link: PendingLink, user: UserId)
    | LnLink(req: LinkReq, link: PendingLink, user: UserId)
    | LnForget(req: LinkReq, link: PendingLink, user: UserId)
    | LnPick(req: LinkReq, link: PendingLink, user: UserId)
    | LnSession(req: LinkReq, link: PendingLink, user: UserId, org: OrgId)

  /** The session id and the body of a request to invite, and the hash of the token drawn for it. */
  datatype InviteReq = InviteReq(sid: nat, email: string, role: string, hash: string)

  /** RequireAuth, RequireRole(Owner) and InviteCreateHandler. */
  datatype InvitePc =
    | IcAuth(req: InviteReq)
    | IcUser(req: InviteReq, sess: Session)
    | IcRole(req: InviteReq, sess: Session)
    | IcRead(req: InviteReq, sess: Session)
    | IcStore(req: InviteReq, sess: Session)

  /** InviteAcceptHandler. */
  datatype AcceptPc =
    | AcLookup(hash: string)
    | AcCheck(hash: string, inv: Invite)
    | AcEmail(hash: string, inv: Invite)
    | AcUpsert(hash: string, inv: Invite)
    | AcMember(hash: string, inv: Invite, user: UserId)
    | AcUse(hash: string, inv: Invite, user: UserId)
    | AcSession(hash: string, inv: Invite, user: UserId)

  datatype Proc =
    | Signup(su: SignupPc)
    | Login(li: LoginPc)
    | Callback(cb: CallbackPc)
    | Link(ln: LinkPc)
    | NewInvite(ic: InvitePc)
    | Accept(ac: AcceptPc)
    | Done(ok: bool)

  /**
   The tables, the two maps and the requests; then the history: identifiers drawn so far, who signed up
   for which organisation, what providers claimed at callbacks (`given`), for which claim a token was handed
   out (`asserted`), and the identities that were linked before the run (`seeded`).
   */
  datatype State = State(
    db: Tables, sessions: map<nat, Session>, pending: Pending.Table, clock: Time, procs: map<nat, Proc>,
    issued: set<nat>, creators: map<OrgId, UserId>, given: set<Claim>, asserted: map<nat, Claim>,
    seeded: set<(string, string)>)

  /** How a call ends: well, without effect, or with its effect but an error for the caller. */
  datatype CallResult = Fine | Failed | Lost

  /** What a step gets from outside: the fate of its call, a new identifier, the row a query picks, a verdict. */
  datatype Oracle = Oracle(call: CallResult, newId: nat, org: OrgId, pass: bool)

  datatype Action =
    | StartSignup(rid: nat, email: string, username: string, name: string, slug: string)
    | StartLogin(rid: nat, username: string)
    | StartCallback(rid: nat, claim: Claim)
    | StartLink(rid: nat, token: nat, email: string)
    | StartInvite(rid: nat, req: InviteReq)
    | StartAccept(rid: nat, hash: string)
    | Advance(rid: nat, o: Oracle)
    | Tick(to: Time)
    | DropSession(sid: nat)                          // logout, lazy deletion or sweep
    | SetCredential(user: UserId, username: string)  // the set-password endpoint
    | Enrol(user: UserId, secret: string)            // the endpoint that sets a second factor up

  predicate Initial(s: State) {
    && s.procs == map[] && s.sessions == map[] && s.pending == map[]
    && s.creators == map[] && s.given == {} && s.asserted == map[]
    && s.seeded == s.db.identities.Keys
    && s.db.users.Keys <= s.issued && s.db.orgs.Keys <= s.issued
  }

  /** The schema, with addresses normalised and invites for Owners ruled out, as the handlers write them. */
  ghost predicate WellFormed(t: Tables) {
    && SchemaOk(t)
    && (forall u | u in t.users :: Norm(t.users[u].email) == t.users[u].email)
    && (forall h | h in t.invites :: Norm(t.invites[h].email) == t.invites[h].email && t.invites[h].role != Owner)
  }

  predicate Enabled(s: State, a: Action) {
    match a
    case Advance(rid, o) => rid in s.procs && !s.procs[rid].Done? && o.newId !in s.issued
    case Tick(to) => s.clock <= to
    case DropSession(_) => true
    case SetCredential(_, _) => true
    case Enrol(_, _) => true
    case _ => a.rid !in s.procs
  }

  // ---------- Starting a request: the checks on the body ----------

  function SignupStart(email: string, username: string, name: string, slug: string): Proc {
    var e, n, g := Norm(email), Norm(username), Norm(slug);
    if e == "" || g == "" || !Slug.IsValidSlug(g) then Done(false)
    else Signup(SuUser(SignupReq(e, if n == "" then e else n, TrimSpace(name), g)))
  }

  /** The role an invite is made for: none given means Member; Owner and unknown names are refused. */
  function GrantedRole(role: string): Option<Role> {
    if IsBlank(role) then Some(Member)
    else
      var r := ToLower(role);
      if r == "viewer" then Some(Viewer) else if r == "member" then Some(Member)
      else if r == "admin" then Some(Admin) else None
  }

  function RoleName(r: Role): string {
    match r case Owner => "owner" case Admin => "admin" case Member => "member" case Viewer => "viewer"
  }

  lemma {:induction false} NamesAreNotBlank(s: string, r: Role)
    requires ToLower(s) == RoleName(r)
    ensures !IsBlank(s)
  {
    assert LowerChar(s[0]) == RoleName(r)[0] && LowerChar(s[|s| - 1]) == RoleName(r)[|s| - 1];
    assert TrimLeft(s) == s && TrimRight(s) == s;
  }

  /** The role granted is the one named, in any case of letters, or Member for a blank; never Owner. */
  lemma {:induction false} GrantedIff(role: string, r: Role)
    ensures GrantedRole(role) == Some(r)
       <==> r != Owner && (ToLower(role) == RoleName(r) || (IsBlank(role) && r == Member))
  {
    if IsBlank(role) && ToLower(role) == RoleName(r) {
      NamesAreNotBlank(role, r);
    }
    NamesDiffer();
  }

  lemma NamesDiffer()
    ensures forall q, r | RoleName(q) == RoleName(r) :: q == r
  {
    assert RoleName(Owner)[0] == 'o' && RoleName(Admin)[0] == 'a';
    assert RoleName(Member)[0] == 'm' && RoleName(Viewer)[0] == 'v';
  }

  // ---------- The steps ----------

  function Goto(s: State, rid: nat, p: Proc): State { s.(procs := s.procs[rid := p]) }

  /** A call that writes: `t` is the state with its effect, `None` a violated constraint. */
  function Write(s: State, rid: nat, o: Oracle, t: Option<State>, next: Proc): State {
    if t == None || o.call == Failed then Goto(s, rid, Done(false))
    else Goto(t.value, rid, if o.call == Fine then next else Done(false))
  }

  function OnTables(s: State, t: Option<Tables>): Option<State> {
    if t == None then None else Some(s.(db := t.value))
  }

  ghost function WithUser(s: State, email: string, name: string, newId: nat): State {
    s.(db := s.db.(users := UpsertUser(s.db.users, email, name, newId).0), issued := s.issued + {newId})
  }

  ghost function WithOrg(s: State, slug: string, user: UserId, newId: nat): Option<State> {
    var t := CreateOrg(s.db, slug, newId, s.clock);
    if t == None then None
    else Some(s.(db := t.value, issued := s.issued + {newId}, creators := s.creators[newId := user]))
  }

  /** SetSessionCookie: eight hours. */
  function WithSession(s: State, user: UserId, org: OrgId, provider: string, newId: nat): State {
    s.(sessions := s.sessions[newId := Session(user, org, provider, Some(s.clock + 8 * HOUR))],
       issued := s.issued + {newId})
  }

  function WithPending(s: State, claim: Claim, email: string, newId: nat): State {
    s.(pending := Put(s.pending, newId, PendingLink(claim.provider, claim.subject, email, 0), 10 * MINUTE, s.clock),
       issued := s.issued + {newId}, asserted := s.asserted[newId := claim])
  }

  ghost function AdvanceSignup(s: State, rid: nat, pc: SignupPc, o: Oracle): State {
    match pc
    case SuUser(req) =>
      var user := UpsertUser(s.db.users, req.email, req.name, o.newId).1;
      Write(s, rid, o, Some(WithUser(s, req.email, req.name, o.newId)), Signup(SuCred(req, user)))
    case SuCred(req, user) =>
      // `pass`: the password could be hashed
      if !o.pass then Goto(s, rid, Done(false))
      else Write(s, rid, o, OnTables(s, CreateCredential(s.db, user, ToLower(req.username))), Signup(SuFind(req, user)))
    case SuFind(req, user) =>
      // an error counts as "no such organisation"
      Goto(s, rid, if o.call == Fine && SlugTaken(s.db.orgs, req.slug) then Done(false) else Signup(SuOrg(req, user)))
    case SuOrg(req, user) =>
      Write(s, rid, o, WithOrg(s, req.slug, user, o.newId), Signup(SuMember(req, user, o.newId)))
    case SuMember(req, user, org) =>
      Write(s, rid, o, OnTables(s, EnsureMembership(s.db, org, user, Owner)), Signup(SuSession(req, user, org)))
    case SuSession(_, user, org) =>
      Goto(WithSession(s, user, org, "local", o.newId), rid, Done(true))
  }

  ghost function AdvanceLogin(s: State, rid: nat, pc: LoginPc, o: Oracle): State {
    match pc
    case LiCred(username) =>
      // `pass`: the password was verified
      var user := UserByUsername(s.db, ToLower(username));
      Goto(s, rid, if o.call == Fine && user.Some? && o.pass
                   then Login(LiHasTotp(username, user.value)) else Done(false))
    case LiHasTotp(username, user) =>
      // an error counts as "not enrolled"
      Goto(s, rid, if o.call == Fine && user in s.db.totp
                   then Login(LiCode(username, user)) else Login(LiPick(username, user)))
    case LiCode(username, user) =>
      // `pass`: the code was accepted for the secret that was read
      Goto(s, rid, if o.call == Fine && user in s.db.totp && o.pass
                   then Login(LiPick(username, user)) else Done(false))
    case LiPick(username, user) =>
      Goto(s, rid, if o.call == Fine && IsPick(s.db, user, o.org)
                   then Login(LiSession(username, user, o.org)) else Done(false))
    case LiSession(_, user, org) =>
      Goto(WithSession(s, user, org, "local", o.newId), rid, Done(true))
  }

  ghost function AdvanceCallback(s: State, rid: nat, pc: CallbackPc, o: Oracle): State {
    match pc
    case CbIdentity(claim, email) =>
      var user := UserByIdentity(s.db, claim.provider, claim.subject);
      Goto(s, rid, if o.call == Fine && user.Some?
                   then Callback(CbOrg(user.value, true, claim)) else Callback(CbEmail(claim, email)))
    case CbEmail(claim, email) =>
      Goto(s, rid, if o.call == Fine && UserByEmail(s.db.users, email).Some?
                   then Callback(CbPending(claim, email)) else Done(false))
    case CbPending(claim, email) =>
      Goto(WithPending(s, claim, email, o.newId), rid, Done(true))
    case CbOrg(user, linked, claim) =>
      if !linked then Goto(s, rid, Callback(CbResolve(user, claim)))
      else Goto(s, rid, if o.call == Fine && IsPick(s.db, user, o.org)
                        then Callback(CbSession(user, o.org, claim)) else Done(false))
    case CbResolve(user, claim) =>
      // by tenant, by e-mail domain, or the default organisation
      Goto(s, rid, if o.call == Fine && o.org in s.db.orgs then Callback(CbEnsure(user, o.org, claim)) else Done(false))
    case CbEnsure(user, org, claim) =>
      Write(s, rid, o, OnTables(s, EnsureMembership(s.db, org, user, Member)), Callback(CbSession(user, org, claim)))
    case CbSession(user, org, claim) =>
      Goto(WithSession(s, user, org, claim.provider, o.newId), rid, Done(true))
  }

  ghost function AdvanceLink(s: State, rid: nat, pc: LinkPc, o: Oracle): State {
    match pc
    case LnStart(req) =>
      var (m, link) := Pending.Get(s.pending, req.token, s.clock);
      Goto(s.(pending := m), rid,
           if link.Some? && req.email != "" then Link(LnCred(req, link.value)) else Done(false))
    case LnCred(req, link) =>
      // `pass`: the password was verified
      var user := UserByUsername(s.db, req.email);
      Goto(s, rid, if o.call == Fine && user.Some? && o.pass
                   then Link(LnHasTotp(req, link, user.value, s.db.users[user.value].email)) else Done(false))
    case LnHasTotp(req, link, user, userEmail) =>
      // an error counts as "not enrolled"
      Goto(s, rid, if o.call == Fine && user in s.db.totp
                   then Link(LnCode(req, link, user, userEmail)) else Link(LnMatch(req, link, user, userEmail)))
    case LnCode(req, link, user, userEmail) =>
      // `pass`: the code was accepted for the secret that was read
      Goto(s, rid, if o.call == Fine && user in s.db.totp && o.pass
                   then Link(LnMatch(req, link, user, userEmail)) else Done(false))
    case LnMatch(req, link, user, userEmail) =>
      Goto(s, rid, if Norm(userEmail) == Norm(link.email) then Link(LnCheck(req, link, user)) else Done(false))
    case LnCheck(req, link, user) =>
      // an error counts as "not linked"
      var existing := UserByIdentity(s.db, link.provider, link.subject);
      Goto(s, rid, if o.call == Fine && existing.Some? && existing.value != user
                   then Done(false) else Link(LnLink(req, link, user)))
    case LnLink(req, link, user) =>
      Write(s, rid, o, OnTables(s, LinkIdentity(s.db, user, link.provider, link.subject)),
            Link(LnForget(req, link, user)))
    case LnForget(req, link, user) =>
      Goto(s.(pending := s.pending - {req.token}), rid, Link(LnPick(req, link, user)))
    case LnPick(req, link, user) =>
      Goto(s, rid, if o.call == Fine && IsPick(s.db, user, o.org)
                   then Link(LnSession(req, link, user, o.org)) else Done(false))
    case LnSession(_, link, user, org) =>
      Goto(WithSession(s, user, org, link.provider, o.newId), rid, Done(true))
  }

  predicate LiveSession(s: State, sid: nat) { sid in s.sessions && !Expired(s.sessions[sid], s.clock) }

  /** The row an invite request stores. */
  function InviteRow(s: State, req: InviteReq, sess: Session, role: Role): Invite {
    Invite(sess.org, Norm(req.email), role, sess.user, s.clock + 7 * 24 * HOUR, None)
  }

  function AdvanceInvite(s: State, rid: nat, pc: InvitePc, o: Oracle): State {
    match pc
    case IcAuth(req) =>
      Goto(s, rid, if LiveSession(s, req.sid) then NewInvite(IcUser(req, s.sessions[req.sid])) else Done(false))
    case IcUser(req, sess) =>
      Goto(s, rid, if o.call == Fine && sess.user in s.db.users then NewInvite(IcRole(req, sess)) else Done(false))
    case IcRole(req, sess) =>
      var k := (sess.org, sess.user);
      Goto(s, rid, if o.call == Fine && k in s.db.memberships && s.db.memberships[k] == Owner
                   then NewInvite(IcRead(req, sess)) else Done(false))
    case IcRead(req, _) =>
      // the handler reads the session once more
      Goto(s, rid, if LiveSession(s, req.sid) && !IsBlank(req.email) && GrantedRole(req.role).Some?
                   then NewInvite(IcStore(req, s.sessions[req.sid])) else Done(false))
    case IcStore(req, sess) =>
      var role := GrantedRole(req.role);
      var t := if role == None then None else CreateInvite(s.db, req.hash, InviteRow(s, req, sess, role.value));
      Write(s, rid, o, OnTables(s, t), Done(true))
  }

  ghost function AdvanceAccept(s: State, rid: nat, pc: AcceptPc, o: Oracle): State {
    match pc
    case AcLookup(hash) =>
      Goto(s, rid, if o.call == Fine && hash in s.db.invites
                   then Accept(AcCheck(hash, s.db.invites[hash])) else Done(false))
    case AcCheck(hash, inv) =>
      Goto(s, rid, if inv.usedAt.Some? || s.clock > inv.expires then Done(false) else Accept(AcEmail(hash, inv)))
    case AcEmail(hash, inv) =>
      // an error counts as "no such user"
      var user := UserByEmail(s.db.users, ToLower(inv.email));
      Goto(s, rid, if o.call == Fine && user.Some?
                   then Accept(AcMember(hash, inv, user.value)) else Accept(AcUpsert(hash, inv)))
    case AcUpsert(hash, inv) =>
      var user := UpsertUser(s.db.users, ToLower(inv.email), "", o.newId).1;
      Write(s, rid, o, Some(WithUser(s, ToLower(inv.email), "", o.newId)), Accept(AcMember(hash, inv, user)))
    case AcMember(hash, inv, user) =>
      Write(s, rid, o, OnTables(s, EnsureMembership(s.db, inv.org, user, inv.role)), Accept(AcUse(hash, inv, user)))
    case AcUse(hash, inv, user) =>
      Write(s, rid, o, Some(s.(db := UseInvite(s.db, hash, s.clock))), Accept(AcSession(hash, inv, user)))
    case AcSession(hash, inv, user) =>
      Goto(WithSession(s, user, inv.org, "invite", o.newId), rid, Done(true))
  }

  ghost function AdvanceProc(s: State, rid: nat, o: Oracle): State
    requires rid in s.procs
  {
    match s.procs[rid]
    case Signup(pc) => AdvanceSignup(s, rid, pc, o)
    case Login(pc) => AdvanceLogin(s, rid, pc, o)
    case Callback(pc) => AdvanceCallback(s, rid, pc, o)
    case Link(pc) => AdvanceLink(s, rid, pc, o)
    case NewInvite(pc) => AdvanceInvite(s, rid, pc, o)
    case Accept(pc) => AdvanceAccept(s, rid, pc, o)
    case Done(_) => s
  }

  ghost function Next(s: State, a: Action): State
    requires Enabled(s, a)
  {
    match a
    case StartSignup(rid, email, username, name, slug) => Goto(s, rid, SignupStart(email, username, name, slug))
    case StartLogin(rid, username) =>
      Goto(s, rid, if Norm(username) == "" then Done(false) else Login(LiCred(Norm(username))))
    case StartCallback(rid, claim) =>
      Goto(s.(given := s.given + {claim}), rid, Callback(CbIdentity(claim, Norm(claim.raw))))
    case StartLink(rid, token, email) => Goto(s, rid, Link(LnStart(LinkReq(token, Norm(email)))))
    case StartInvite(rid, req) => Goto(s, rid, NewInvite(IcAuth(req)))
    case StartAccept(rid, hash) => Goto(s, rid, Accept(AcLookup(hash)))
    case Advance(rid, o) => AdvanceProc(s, rid, o)
    case Tick(to) => s.(clock := to)
    case DropSession(sid) => s.(sessions := s.sessions - {sid})
    case SetCredential(user, username) =>
      var t := OnTables(s, CreateCredential(s.db, user, username));
      if t == None then s else t.value
    case Enrol(user, secret) =>
      var t := OnTables(s, Repo.SetTotp(s.db, user, secret));
      if t == None then s else t.value
  }

  ghost predicate ValidRun(s: State, run: seq<Action>)
    decreases run
  {
    run == [] || (Enabled(s, run[0]) && ValidRun(Next(s, run[0]), run[1..]))
  }

  ghost function Execute(s: State, run: seq<Action>): State
    requires ValidRun(s, run)
    decreases run
  {
    if run == [] then s else Execute(Next(s, run[0]), run[1..])
  }
}
