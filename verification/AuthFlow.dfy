/** The course of each request: when a step refuses it, and where it goes on to otherwise. */
module AuthFlow {
  import opened Options
  import opened Text
  import opened Repo
  import opened Pending
  import opened AuthMachine
  import opened AuthInvariants
  import opened AuthSteps

  // ---------- How far a request has come ----------

  function SignupRank(pc: SignupPc): nat {
    match pc
    case SuUser(_) => 0 case SuCred(_, _) => 1 case SuFind(_, _) => 2
    case SuOrg(_, _) => 3 case SuMember(_, _, _) => 4 case SuSession(_, _, _) => 5
  }

  function LoginRank(pc: LoginPc): nat {
    match pc
    case LiCred(_) => 0 case LiHasTotp(_, _) => 1 case LiCode(_, _) => 2 case LiPick(_, _) => 3
    case LiSession(_, _, _) => 4
  }

  function CallbackRank(pc: CallbackPc): nat {
    match pc
    case CbIdentity(_, _) => 0 case CbEmail(_, _) => 1 case CbPending(_, _) => 2 case CbOrg(_, _, _) => 3
    case CbSession(_, _, _) => 4 case CbResolve(_, _) => 5 case CbEnsure(_, _, _) => 6
  }

  function LinkRank(pc: LinkPc): nat {
    match pc
    case LnStart(_) => 0 case LnCred(_, _) => 1 case LnHasTotp(_, _, _, _) => 2 case LnCode(_, _, _, _) => 3
    case LnMatch(_, _, _, _) => 4 case LnCheck(_, _, _) => 5 case LnLink(_, _, _) => 6 case LnForget(_, _, _) => 7
    case LnPick(_, _, _) => 8 case LnSession(_, _, _, _) => 9
  }

  function InviteRank(pc: InvitePc): nat {
    match pc
    case IcAuth(_) => 0 case IcUser(_, _) => 1 case IcRole(_, _) => 2 case IcRead(_, _) => 3 case IcStore(_, _) => 4
  }

  function AcceptRank(pc: AcceptPc): nat {
    match pc
    case AcLookup(_) => 0 case AcCheck(_, _) => 1 case AcEmail(_, _) => 2 case AcUpsert(_, _) => 3
    case AcMember(_, _, _) => 4 case AcUse(_, _, _) => 5 case AcSession(_, _, _) => 6
  }

  function Rank(p: Proc): nat {
    match p
    case Signup(pc) => SignupRank(pc)
    case Login(pc) => LoginRank(pc)
    case Callback(pc) => CallbackRank(pc)
    case Link(pc) => LinkRank(pc)
    case NewInvite(pc) => InviteRank(pc)
    case Accept(pc) => AcceptRank(pc)
    case Done(_) => 0
  }

  predicate SameHandler(p: Proc, q: Proc) {
    || (p.Signup? && q.Signup?) || (p.Login? && q.Login?) || (p.Callback? && q.Callback?)
    || (p.Link? && q.Link?) || (p.NewInvite? && q.NewInvite?) || (p.Accept? && q.Accept?)
  }

  /** The session stands under `sid` and its time is not over. */
  predicate Standing(s: State, sid: nat) {
    sid in s.sessions &&
    match s.sessions[sid].expiry
    case None => true
    case Some(end) => s.clock <= end
  }

  /** The role asked for may be given by an invite. */
  predicate Grantable(role: string) {
    IsBlank(role) || ToLower(role) in {"viewer", "member", "admin"}
  }

  /** The provider's identity is linked. */
  predicate Linked(t: Tables, provider: string, subject: string) { (provider, subject) in t.identities }

  // ---------- When a step refuses ----------

  ghost predicate SignupRefuses(s: State, pc: SignupPc, o: Oracle) {
    match pc
    case SuUser(_) => o.call != Fine
    case SuCred(req, user) =>
      !o.pass || o.call != Fine || user in s.db.creds.Values || ToLower(req.username) in s.db.creds
    case SuFind(req, _) => o.call == Fine && SlugTaken(s.db.orgs, req.slug)
    case SuOrg(req, _) => o.call != Fine || SlugTaken(s.db.orgs, req.slug)
    case SuMember(_, _, _) => o.call != Fine
    case SuSession(_, _, _) => false
  }

  ghost predicate LoginRefuses(s: State, pc: LoginPc, o: Oracle) {
    match pc
    case LiCred(username) => o.call != Fine || !o.pass || ToLower(username) !in s.db.creds
    case LiHasTotp(_, _) => false
    case LiCode(_, user) => o.call != Fine || !o.pass || user !in s.db.totp
    case LiPick(_, user) => o.call != Fine || !IsPick(s.db, user, o.org)
    case LiSession(_, _, _) => false
  }

  /** Not said of the branch that is never entered. */
  ghost predicate CallbackRefuses(s: State, pc: CallbackPc, o: Oracle) {
    match pc
    case CbEmail(_, email) => o.call != Fine || !AddressHeld(s.db.users, email)
    case CbOrg(user, _, _) => o.call != Fine || !IsPick(s.db, user, o.org)
    case _ => false
  }

  ghost predicate LinkRefuses(s: State, pc: LinkPc, o: Oracle) {
    match pc
    case LnStart(req) => req.email == "" || req.token !in s.pending || s.clock > s.pending[req.token].expires
    case LnCred(req, _) => o.call != Fine || !o.pass || req.email !in s.db.creds
    case LnHasTotp(_, _, _, _) => false
    case LnCode(_, _, user, _) => o.call != Fine || !o.pass || user !in s.db.totp
    case LnMatch(_, link, _, email) => email != link.email
    case LnCheck(_, link, user) =>
      var k := (link.provider, link.subject);
      o.call == Fine && k in s.db.identities && s.db.identities[k] != user
    case LnLink(_, _, _) => o.call != Fine
    case LnForget(_, _, _) => false
    case LnPick(_, _, user) => o.call != Fine || !IsPick(s.db, user, o.org)
    case LnSession(_, _, _, _) => false
  }

  predicate InviteRefuses(s: State, pc: InvitePc, o: Oracle) {
    match pc
    case IcAuth(req) => !Standing(s, req.sid)
    case IcUser(_, _) => o.call != Fine
    case IcRole(_, sess) =>
      var k := (sess.org, sess.user);
      o.call != Fine || k !in s.db.memberships || s.db.memberships[k] != Owner
    case IcRead(req, _) => !Standing(s, req.sid) || IsBlank(req.email) || !Grantable(req.role)
    case IcStore(req, _) => o.call != Fine || req.hash in s.db.invites
  }

  predicate AcceptRefuses(s: State, pc: AcceptPc, o: Oracle) {
    match pc
    case AcLookup(hash) => o.call != Fine || hash !in s.db.invites
    case AcCheck(_, inv) => inv.usedAt.Some? || s.clock > inv.expires
    case AcEmail(_, _) => false
    case AcUpsert(_, _) => o.call != Fine
    case AcMember(_, _, _) => o.call != Fine
    case AcUse(_, _, _) => o.call != Fine
    case AcSession(_, _, _) => false
  }

  /** In this state and with this result of its call the step answers the request badly. */
  ghost predicate Refuses(s: State, p: Proc, o: Oracle) {
    match p
    case Signup(pc) => SignupRefuses(s, pc, o)
    case Login(pc) => LoginRefuses(s, pc, o)
    case Callback(pc) => CallbackRefuses(s, pc, o)
    case Link(pc) => LinkRefuses(s, pc, o)
    case NewInvite(pc) => InviteRefuses(s, pc, o)
    case Accept(pc) => AcceptRefuses(s, pc, o)
    case Done(_) => false
  }

  // ---------- Where a step goes on to ----------

  predicate Asked(s: State, user: UserId, o: Oracle) { o.call == Fine && user in s.db.totp }

  /** The next step in the handler, if this one does not refuse. */
  ghost function Onward(s: State, p: Proc, o: Oracle): nat {
    match p
    case Login(pc) => if pc.LiHasTotp? && !Asked(s, pc.user, o) then 3 else LoginRank(pc) + 1
    case Link(pc) => if pc.LnHasTotp? && !Asked(s, pc.user, o) then 4 else LinkRank(pc) + 1
    case Callback(pc) =>
      if pc.CbIdentity? && o.call == Fine && Linked(s.db, pc.claim.provider, pc.claim.subject) then 3
      else CallbackRank(pc) + 1
    case Accept(pc) =>
      if pc.AcEmail? && o.call == Fine && AddressHeld(s.db.users, pc.inv.email) then 4 else AcceptRank(pc) + 1
    case _ => Rank(p) + 1
  }

  /** The step that answers a request well. */
  predicate Final(p: Proc) {
    match p
    case Signup(pc) => pc.SuSession?
    case Login(pc) => pc.LiSession?
    case Callback(pc) => pc.CbPending? || pc.CbSession?
    case Link(pc) => pc.LnSession?
    case NewInvite(pc) => pc.IcStore?
    case Accept(pc) => pc.AcSession?
    case Done(_) => false
  }

  /** What becomes of a request in a step of its own. */
  ghost predicate Becomes(s: State, q: Proc, p: Proc, o: Oracle) {
    if Refuses(s, p, o) then q == Done(false)
    else if Final(p) then q == Done(true)
    else SameHandler(p, q) && Rank(q) == Onward(s, p, o)
  }

  ghost predicate Flows(s: State, t: State, rid: nat, p: Proc, o: Oracle) {
    rid in t.procs && Becomes(s, t.procs[rid], p, o)
  }

  // ---------- Every step flows ----------

  lemma GoesTo(s: State, t: State, rid: nat, p: Proc, o: Oracle, q: Proc)
    requires Becomes(s, q, p, o)
    ensures Flows(s, Goto(t, rid, q), rid, p, o)
  {
  }

  lemma WritesTo(s: State, rid: nat, p: Proc, o: Oracle, t: Option<State>, next: Proc)
    requires Becomes(s, if t.Some? && o.call == Fine then next else Done(false), p, o)
    ensures Flows(s, Write(s, rid, o, t, next), rid, p, o)
  {
    hide Becomes;
  }

  lemma SignupFlows(s: State, rid: nat, pc: SignupPc, o: Oracle)
    requires TablesInv(s) && SignupInv(s, pc)
    ensures Flows(s, AdvanceSignup(s, rid, pc, o), rid, Signup(pc), o)
  {
    hide TablesInv;
    hide Flows;
    hide Goto;
    hide Write;
    hide UpsertUser;
    hide SlugTaken;
    hide ToLower;
    hide Norm;
    var p := Signup(pc);
    match pc
    case SuUser(req) =>
      var user := UpsertUser(s.db.users, req.email, req.name, o.newId).1;
      WritesTo(s, rid, p, o, Some(WithUser(s, req.email, req.name, o.newId)), Signup(SuCred(req, user)));
    case SuCred(req, user) =>
      if !o.pass {
        GoesTo(s, s, rid, p, o, Done(false));
      } else {
        var t := OnTables(s, CreateCredential(s.db, user, ToLower(req.username)));
        WritesTo(s, rid, p, o, t, Signup(SuFind(req, user)));
      }
    case SuFind(req, user) =>
      var q := if o.call == Fine && SlugTaken(s.db.orgs, req.slug) then Done(false) else Signup(SuOrg(req, user));
      GoesTo(s, s, rid, p, o, q);
    case SuOrg(req, user) =>
      WritesTo(s, rid, p, o, WithOrg(s, req.slug, user, o.newId), Signup(SuMember(req, user, o.newId)));
    case SuMember(req, user, org) =>
      var t := OnTables(s, EnsureMembership(s.db, org, user, Owner));
      WritesTo(s, rid, p, o, t, Signup(SuSession(req, user, org)));
    case SuSession(_, user, org) =>
      GoesTo(s, WithSession(s, user, org, "local", o.newId), rid, p, o, Done(true));
  }

  lemma LoginGoes(s: State, rid: nat, pc: LoginPc, o: Oracle)
    requires pc.LiCred? && ToLower(pc.username) in s.db.creds ==> s.db.creds[ToLower(pc.username)] in s.db.users
    ensures Flows(s, AdvanceLogin(s, rid, pc, o), rid, Login(pc), o)
  {
    hide Flows;
    hide Goto;
    hide IsPick;
    hide ToLower;
    var p := Login(pc);
    if pc.LiCred? {
      var user := UserByUsername(s.db, ToLower(pc.username));
      var on := o.call == Fine && user.Some? && o.pass;
      GoesTo(s, s, rid, p, o, if on then Login(LiHasTotp(pc.username, user.value)) else Done(false));
    } else if pc.LiHasTotp? {
      var asked := o.call == Fine && pc.user in s.db.totp;
      var next := if asked then LiCode(pc.username, pc.user) else LiPick(pc.username, pc.user);
      GoesTo(s, s, rid, p, o, Login(next));
    } else if pc.LiCode? {
      var on := o.call == Fine && pc.user in s.db.totp && o.pass;
      GoesTo(s, s, rid, p, o, if on then Login(LiPick(pc.username, pc.user)) else Done(false));
    } else if pc.LiPick? {
      var on := o.call == Fine && IsPick(s.db, pc.user, o.org);
      GoesTo(s, s, rid, p, o, if on then Login(LiSession(pc.username, pc.user, o.org)) else Done(false));
    } else {
      GoesTo(s, WithSession(s, pc.user, pc.org, "local", o.newId), rid, p, o, Done(true));
    }
  }

  lemma LoginFlows(s: State, rid: nat, pc: LoginPc, o: Oracle)
    requires TablesInv(s)
    ensures Flows(s, AdvanceLogin(s, rid, pc, o), rid, Login(pc), o)
  {
    hide Flows;
    hide ToLower;
    hide AdvanceLogin;
    if pc.LiCred? {
      CredentialsHaveUsers(s, ToLower(pc.username));
    }
    hide TablesInv;
    LoginGoes(s, rid, pc, o);
  }

  lemma LinkedUser(s: State, provider: string, subject: string)
    requires TablesInv(s)
    ensures UserByIdentity(s.db, provider, subject)
         == if Linked(s.db, provider, subject) then Some(s.db.identities[(provider, subject)]) else None
  {
    hide UsersOk;
    hide InvitesOk;
    hide TenantOk;
    hide LinksOk;
    hide PendingOk;
  }

  lemma HolderFound(users: Users, email: string)
    ensures UserByEmail(users, email).Some? <==> AddressHeld(users, email)
  {
  }

  lemma CallbackFlows(s: State, rid: nat, pc: CallbackPc, o: Oracle)
    requires TablesInv(s) && CallbackInv(s, pc)
    ensures Flows(s, AdvanceCallback(s, rid, pc, o), rid, Callback(pc), o)
  {
    hide TablesInv;
    hide IsPick;
    hide Norm;
    hide Flows;
    hide Goto;
    hide AddressHeld;
    hide UserByEmail;
    hide UserByIdentity;
    hide Linked;
    var p := Callback(pc);
    match pc
    case CbIdentity(claim, email) =>
      var user := UserByIdentity(s.db, claim.provider, claim.subject);
      LinkedUser(s, claim.provider, claim.subject);
      var on := o.call == Fine && user.Some?;
      GoesTo(s, s, rid, p, o, if on then Callback(CbOrg(user.value, true, claim)) else Callback(CbEmail(claim, email)));
    case CbEmail(claim, email) =>
      HolderFound(s.db.users, email);
      var on := o.call == Fine && UserByEmail(s.db.users, email).Some?;
      GoesTo(s, s, rid, p, o, if on then Callback(CbPending(claim, email)) else Done(false));
    case CbPending(claim, email) =>
      GoesTo(s, WithPending(s, claim, email, o.newId), rid, p, o, Done(true));
    case CbOrg(user, _, claim) =>
      var on := o.call == Fine && IsPick(s.db, user, o.org);
      GoesTo(s, s, rid, p, o, if on then Callback(CbSession(user, o.org, claim)) else Done(false));
    case CbSession(user, org, claim) =>
      GoesTo(s, WithSession(s, user, org, claim.provider, o.newId), rid, p, o, Done(true));
  }

  /** The normalised addresses are compared, and both are normalised already. */
  lemma AddressesMatch(s: State, req: LinkReq, link: PendingLink, user: UserId, email: string)
    requires TablesInv(s) && LinkLogin(s, req, link, user, email)
    ensures Norm(email) == Norm(link.email) <==> email == link.email
  {
    NormIdempotent(s.asserted[req.token].raw);
  }

  lemma LinkFlows(s: State, rid: nat, pc: LinkPc, o: Oracle)
    requires TablesInv(s) && LinkInv(s, pc)
    ensures Flows(s, AdvanceLink(s, rid, pc, o), rid, Link(pc), o)
  {
    hide TablesInv;
    hide Norm;
    hide HandedOut;
    hide Flows;
    hide Goto;
    hide Write;
    var p := Link(pc);
    match pc
    case LnStart(req) =>
      var (m, link) := Pending.Get(s.pending, req.token, s.clock);
      GoesTo(s, s.(pending := m), rid, p, o,
             if link.Some? && req.email != "" then Link(LnCred(req, link.value)) else Done(false));
    case LnLink(req, link, user) =>
      var t := OnTables(s, LinkIdentity(s.db, user, link.provider, link.subject));
      WritesTo(s, rid, p, o, t, Link(LnForget(req, link, user)));
    case LnForget(req, link, user) =>
      GoesTo(s, s.(pending := s.pending - {req.token}), rid, p, o, Link(LnPick(req, link, user)));
    case LnSession(_, link, user, org) =>
      GoesTo(s, WithSession(s, user, org, link.provider, o.newId), rid, p, o, Done(true));
    case _ =>
      LinkReads(s, rid, pc, o);
  }

  /** The steps of a request to link that check who it is. */
  lemma LinkChecks(s: State, rid: nat, pc: LinkPc, o: Oracle)
    requires pc.LnCred? || pc.LnHasTotp? || pc.LnCode?
    requires pc.LnCred? && pc.req.email in s.db.creds ==> s.db.creds[pc.req.email] in s.db.users
    ensures Flows(s, AdvanceLink(s, rid, pc, o), rid, Link(pc), o)
  {
    hide Flows;
    hide Goto;
    var p := Link(pc);
    if pc.LnCred? {
      var user := UserByUsername(s.db, pc.req.email);
      var on := o.call == Fine && user.Some? && o.pass;
      GoesTo(s, s, rid, p, o,
             if on then Link(LnHasTotp(pc.req, pc.link, user.value, s.db.users[user.value].email)) else Done(false));
    } else if pc.LnHasTotp? {
      var asked := o.call == Fine && pc.user in s.db.totp;
      var next := if asked then LnCode(pc.req, pc.link, pc.user, pc.userEmail)
                  else LnMatch(pc.req, pc.link, pc.user, pc.userEmail);
      GoesTo(s, s, rid, p, o, Link(next));
    } else {
      var on := o.call == Fine && pc.user in s.db.totp && o.pass;
      GoesTo(s, s, rid, p, o, if on then Link(LnMatch(pc.req, pc.link, pc.user, pc.userEmail)) else Done(false));
    }
  }

  /** Those that look at the identity, the address and the organisation. */
  lemma LinkLooks(s: State, rid: nat, pc: LinkPc, o: Oracle)
    requires pc.LnMatch? || pc.LnCheck? || pc.LnPick?
    requires pc.LnMatch? ==> (Norm(pc.userEmail) == Norm(pc.link.email) <==> pc.userEmail == pc.link.email)
    requires pc.LnCheck? ==>
               UserByIdentity(s.db, pc.link.provider, pc.link.subject)
               == if Linked(s.db, pc.link.provider, pc.link.subject)
                  then Some(s.db.identities[(pc.link.provider, pc.link.subject)]) else None
    ensures Flows(s, AdvanceLink(s, rid, pc, o), rid, Link(pc), o)
  {
    hide IsPick;
    hide Norm;
    hide UserByIdentity;
    hide Flows;
    hide Goto;
    var p := Link(pc);
    if pc.LnMatch? {
      var on := Norm(pc.userEmail) == Norm(pc.link.email);
      GoesTo(s, s, rid, p, o, if on then Link(LnCheck(pc.req, pc.link, pc.user)) else Done(false));
    } else if pc.LnCheck? {
      var existing := UserByIdentity(s.db, pc.link.provider, pc.link.subject);
      var off := o.call == Fine && existing.Some? && existing.value != pc.user;
      GoesTo(s, s, rid, p, o, if off then Done(false) else Link(LnLink(pc.req, pc.link, pc.user)));
    } else {
      var on := o.call == Fine && IsPick(s.db, pc.user, o.org);
      GoesTo(s, s, rid, p, o, if on then Link(LnSession(pc.req, pc.link, pc.user, o.org)) else Done(false));
    }
  }

  lemma LinkReads(s: State, rid: nat, pc: LinkPc, o: Oracle)
    requires TablesInv(s) && LinkInv(s, pc)
    requires pc.LnCred? || pc.LnHasTotp? || pc.LnCode? || pc.LnMatch? || pc.LnCheck? || pc.LnPick?
    ensures Flows(s, AdvanceLink(s, rid, pc, o), rid, Link(pc), o)
  {
    hide Norm;
    hide UserByIdentity;
    hide Linked;
    hide Flows;
    hide AdvanceLink;
    hide TablesInv;
    if pc.LnMatch? {
      AddressesMatch(s, pc.req, pc.link, pc.user, pc.userEmail);
      LinkLooks(s, rid, pc, o);
    } else if pc.LnCheck? {
      LinkedUser(s, pc.link.provider, pc.link.subject);
      LinkLooks(s, rid, pc, o);
    } else if pc.LnPick? {
      LinkLooks(s, rid, pc, o);
    } else {
      CredentialsHaveUsers(s, if pc.LnCred? then pc.req.email else "");
      LinkChecks(s, rid, pc, o);
    }
  }

  lemma GrantableIff(role: string)
    ensures GrantedRole(role).Some? <==> Grantable(role)
  {
    hide Norm;
  }

  lemma InviteFlows(s: State, rid: nat, pc: InvitePc, o: Oracle)
    requires TablesInv(s) && NewInviteInv(s, pc)
    ensures Flows(s, AdvanceInvite(s, rid, pc, o), rid, NewInvite(pc), o)
  {
    hide TablesInv;
    hide Norm;
    hide IsBlank;
    hide GrantedRole;
    hide Grantable;
    hide Flows;
    hide Goto;
    hide Write;
    var p := NewInvite(pc);
    match pc
    case IcAuth(req) =>
      var on := LiveSession(s, req.sid);
      GoesTo(s, s, rid, p, o, if on then NewInvite(IcUser(req, s.sessions[req.sid])) else Done(false));
    case IcUser(req, sess) =>
      var on := o.call == Fine && sess.user in s.db.users;
      GoesTo(s, s, rid, p, o, if on then NewInvite(IcRole(req, sess)) else Done(false));
    case IcRole(req, sess) =>
      var k := (sess.org, sess.user);
      var on := o.call == Fine && k in s.db.memberships && s.db.memberships[k] == Owner;
      GoesTo(s, s, rid, p, o, if on then NewInvite(IcRead(req, sess)) else Done(false));
    case IcRead(req, _) =>
      GrantableIff(req.role);
      GoesTo(s, s, rid, p, o,
             if LiveSession(s, req.sid) && !IsBlank(req.email) && GrantedRole(req.role).Some?
             then NewInvite(IcStore(req, s.sessions[req.sid])) else Done(false));
    case IcStore(req, sess) =>
      var t := CreateInvite(s.db, req.hash, InviteRow(s, req, sess, GrantedRole(req.role).value));
      WritesTo(s, rid, p, o, OnTables(s, t), Done(true));
  }

  lemma AcceptReads(s: State, rid: nat, pc: AcceptPc, o: Oracle)
    requires pc.AcLookup? || pc.AcCheck? || pc.AcEmail?
    requires pc.AcEmail? ==> ToLower(pc.inv.email) == pc.inv.email
    ensures Flows(s, AdvanceAccept(s, rid, pc, o), rid, Accept(pc), o)
  {
    hide ToLower;
    hide AddressHeld;
    hide UserByEmail;
    hide Flows;
    hide Goto;
    var p := Accept(pc);
    if pc.AcLookup? {
      var on := o.call == Fine && pc.hash in s.db.invites;
      GoesTo(s, s, rid, p, o, if on then Accept(AcCheck(pc.hash, s.db.invites[pc.hash])) else Done(false));
    } else if pc.AcCheck? {
      var off := pc.inv.usedAt.Some? || s.clock > pc.inv.expires;
      GoesTo(s, s, rid, p, o, if off then Done(false) else Accept(AcEmail(pc.hash, pc.inv)));
    } else {
      HolderFound(s.db.users, pc.inv.email);
      var user := UserByEmail(s.db.users, ToLower(pc.inv.email));
      var on := o.call == Fine && user.Some?;
      var next := if on then AcMember(pc.hash, pc.inv, user.value) else AcUpsert(pc.hash, pc.inv);
      GoesTo(s, s, rid, p, o, Accept(next));
    }
  }

  lemma AcceptWrites(s: State, rid: nat, pc: AcceptPc, o: Oracle)
    requires !pc.AcLookup? && !pc.AcCheck? && !pc.AcEmail?
    requires pc.AcMember? ==> pc.inv.org in s.db.orgs && pc.user in s.db.users
    ensures Flows(s, AdvanceAccept(s, rid, pc, o), rid, Accept(pc), o)
  {
    hide ToLower;
    hide UpsertUser;
    hide UseInvite;
    hide Flows;
    hide Goto;
    hide Write;
    var p := Accept(pc);
    if pc.AcUpsert? {
      var user := UpsertUser(s.db.users, ToLower(pc.inv.email), "", o.newId).1;
      var t := WithUser(s, ToLower(pc.inv.email), "", o.newId);
      WritesTo(s, rid, p, o, Some(t), Accept(AcMember(pc.hash, pc.inv, user)));
    } else if pc.AcMember? {
      var t := OnTables(s, EnsureMembership(s.db, pc.inv.org, pc.user, pc.inv.role));
      WritesTo(s, rid, p, o, t, Accept(AcUse(pc.hash, pc.inv, pc.user)));
    } else if pc.AcUse? {
      var t := s.(db := UseInvite(s.db, pc.hash, s.clock));
      WritesTo(s, rid, p, o, Some(t), Accept(AcSession(pc.hash, pc.inv, pc.user)));
    } else {
      GoesTo(s, WithSession(s, pc.user, pc.inv.org, "invite", o.newId), rid, p, o, Done(true));
    }
  }

  lemma AcceptFlows(s: State, rid: nat, pc: AcceptPc, o: Oracle)
    requires TablesInv(s) && AcceptInv(s, pc)
    ensures Flows(s, AdvanceAccept(s, rid, pc, o), rid, Accept(pc), o)
  {
    hide Norm;
    hide ToLower;
    hide Flows;
    hide AdvanceAccept;
    hide TablesInv;
    if !pc.AcLookup? {
      SeenInviteFacts(s, pc.hash, pc.inv);
    }
    if pc.AcLookup? || pc.AcCheck? || pc.AcEmail? {
      AcceptReads(s, rid, pc, o);
    } else {
      AcceptWrites(s, rid, pc, o);
    }
  }

  /** The course of every request, step by step: refused exactly as said, and on exactly as said. */
  lemma StepFlows(s: State, rid: nat, o: Oracle)
    requires Inv(s) && Enabled(s, Advance(rid, o))
    ensures Flows(s, Next(s, Advance(rid, o)), rid, s.procs[rid], o)
  {
    hide TablesInv;
    hide Flows;
    hide AdvanceSignup;
    hide AdvanceLogin;
    hide AdvanceCallback;
    hide AdvanceLink;
    hide AdvanceInvite;
    hide AdvanceAccept;
    assert ProcInv(s, s.procs[rid]);
    match s.procs[rid]
    case Signup(pc) => SignupFlows(s, rid, pc, o);
    case Login(pc) => LoginFlows(s, rid, pc, o);
    case Callback(pc) => CallbackFlows(s, rid, pc, o);
    case Link(pc) => LinkFlows(s, rid, pc, o);
    case NewInvite(pc) => InviteFlows(s, rid, pc, o);
    case Accept(pc) => AcceptFlows(s, rid, pc, o);
  }
}
