/** What every step of every request keeps, whatever else runs and whatever fails. */
module AuthInvariants {
  import opened Text
  import opened Repo
  import opened Pending
  import opened Sessions
  import opened AuthMachine

  // ---------- The tables and maps ----------

  ghost predicate UsersOk(users: Users, issued: set<nat>) {
    && EmailsUnique(users) && users.Keys <= issued
    && forall u | u in users :: Norm(users[u].email) == users[u].email
  }

  ghost predicate OrgsOk(orgs: Orgs, issued: set<nat>) { SlugsUnique(orgs) && orgs.Keys <= issued }

  ghost predicate MembersOk(memberships: Memberships, orgs: Orgs, users: Users) {
    forall o, u | (o, u) in memberships :: o in orgs && u in users
  }

  ghost predicate RefsOk(identities: Identities, creds: map<string, UserId>, users: Users) {
    && (forall k | k in identities :: identities[k] in users)
    && CredsUnique(creds) && (forall k | k in creds :: creds[k] in users)
  }

  /** Invites name existing rows and a normalised address, and never carry Owner. */
  ghost predicate InvitesOk(invites: Invites, orgs: Orgs, users: Users) {
    forall h | h in invites ::
      var i := invites[h];
      i.org in orgs && i.inviter in users && Norm(i.email) == i.email && i.role != Owner
  }

  /** Every session names a membership. */
  ghost predicate SessionsOk(sessions: map<nat, Session>, memberships: Memberships, issued: set<nat>) {
    && sessions.Keys <= issued
    && forall sid | sid in sessions :: (sessions[sid].org, sessions[sid].user) in memberships
  }

  /** An organisation made by a signup has a plain slug, and no Owner but the user who signed up. */
  ghost predicate CreatorsOk(creators: map<OrgId, UserId>, orgs: Orgs, memberships: Memberships) {
    && (forall o | o in creators :: o in orgs && Slug.PlainSlug(orgs[o].slug))
    && (forall o, u | o in creators && (o, u) in memberships && memberships[(o, u)] == Owner :: u == creators[o])
  }

  /** An invite that accounts for a membership. */
  ghost predicate Accounts(inv: Invite, o: OrgId, role: Role, email: string) {
    inv.org == o && inv.role == role && inv.email == email
  }

  ghost predicate Invited(invites: Invites, o: OrgId, role: Role, email: string) {
    exists h :: h in invites && Accounts(invites[h], o, role, email)
  }

  ghost predicate Rightful(
      creators: map<OrgId, UserId>, memberships: Memberships, invites: Invites, users: Users, o: OrgId, u: UserId)
    requires o in creators && (o, u) in memberships && u in users
  {
    (u == creators[o] && memberships[(o, u)] == Owner) || Invited(invites, o, memberships[(o, u)], users[u].email)
  }

  /**
   Its members are that user as Owner, or hold the role of an invite to their address; its invites come
   from that user.
   */
  ghost predicate TenantOk(creators: map<OrgId, UserId>, memberships: Memberships, invites: Invites, users: Users) {
    && (forall h | h in invites && invites[h].org in creators :: invites[h].inviter == creators[invites[h].org])
    && (forall o, u | o in creators && (o, u) in memberships ::
          u in users && Rightful(creators, memberships, invites, users, o, u))
  }

  type Asserted = map<nat, Claim>

  /** The token was handed out for this identity and this address. */
  ghost predicate HandedOut(asserted: Asserted, token: nat, provider: string, subject: string, email: string) {
    token in asserted && asserted[token].provider == provider && asserted[token].subject == subject &&
    Norm(asserted[token].raw) == email
  }

  ghost predicate ClaimedIn(asserted: Asserted, provider: string, subject: string, email: string) {
    exists token :: HandedOut(asserted, token, provider, subject, email)
  }

  ghost predicate PendingOk(pending: Pending.Table, asserted: Asserted, issued: set<nat>) {
    && pending.Keys <= issued
    && forall k | k in pending :: HandedOut(asserted, k, pending[k].provider, pending[k].subject, pending[k].email)
  }

  /** Every link made in the run joins a user to an identity that was claimed for that user's address. */
  ghost predicate LinksOk(identities: Identities, users: Users, asserted: Asserted, seeded: set<(string, string)>) {
    forall p, q | (p, q) in identities && (p, q) !in seeded ::
      identities[(p, q)] in users && ClaimedIn(asserted, p, q, users[identities[(p, q)]].email)
  }

  /** Tokens are handed out for what a provider claimed. */
  ghost predicate AssertedOk(asserted: Asserted, given: set<Claim>, issued: set<nat>) {
    asserted.Keys <= issued && asserted.Values <= given
  }

  ghost predicate TablesInv(s: State) {
    && UsersOk(s.db.users, s.issued) && OrgsOk(s.db.orgs, s.issued)
    && MembersOk(s.db.memberships, s.db.orgs, s.db.users)
    && RefsOk(s.db.identities, s.db.creds, s.db.users)
    && InvitesOk(s.db.invites, s.db.orgs, s.db.users)
    && SessionsOk(s.sessions, s.db.memberships, s.issued)
    && CreatorsOk(s.creators, s.db.orgs, s.db.memberships)
    && TenantOk(s.creators, s.db.memberships, s.db.invites, s.db.users)
    && PendingOk(s.pending, s.asserted, s.issued)
    && LinksOk(s.db.identities, s.db.users, s.asserted, s.seeded)
    && AssertedOk(s.asserted, s.given, s.issued)
    && s.db.totp.Keys <= s.db.users.Keys
  }

  // ---------- The requests ----------

  ghost predicate UserWith(s: State, u: UserId, email: string) { u in s.db.users && s.db.users[u].email == email }

  ghost predicate AddressHeld(users: Users, email: string) { exists u :: u in users && users[u].email == email }

  ghost predicate Joined(s: State, org: OrgId, user: UserId) {
    (org, user) in s.db.memberships && org in s.db.orgs && user in s.db.users
  }

  ghost predicate SameInvite(stored: Invite, seen: Invite) {
    && stored.org == seen.org && stored.email == seen.email && stored.role == seen.role
    && stored.inviter == seen.inviter && stored.expires == seen.expires
    && (seen.usedAt.Some? ==> stored.usedAt == seen.usedAt)
  }

  ghost predicate InviteSeen(s: State, hash: string, inv: Invite) {
    hash in s.db.invites && SameInvite(s.db.invites[hash], inv)
  }

  /** A session value a request read earlier under `sid`. */
  ghost predicate SessionSeen(s: State, sid: nat, sess: Session) {
    sid in s.issued && Joined(s, sess.org, sess.user) && (sid in s.sessions ==> s.sessions[sid] == sess)
  }

  /** The user may invite: in an organisation made by a signup, it is the one who signed up. */
  ghost predicate MayInvite(s: State, sess: Session) {
    Joined(s, sess.org, sess.user) && (sess.org in s.creators ==> s.creators[sess.org] == sess.user)
  }

  /** The token was handed out for the identity that waits to be linked. */
  ghost predicate LinkClaimed(s: State, req: LinkReq, link: PendingLink) {
    HandedOut(s.asserted, req.token, link.provider, link.subject, link.email)
  }

  /** The login name is that of a user, who holds the address. */
  ghost predicate LinkLogin(s: State, req: LinkReq, link: PendingLink, user: UserId, email: string) {
    && LinkClaimed(s, req, link) && UserWith(s, user, email)
    && req.email in s.db.creds && s.db.creds[req.email] == user
  }

  ghost predicate LinkUser(s: State, req: LinkReq, link: PendingLink, user: UserId) {
    LinkLogin(s, req, link, user, link.email)
  }

  ghost predicate Credential(s: State, username: string, u: UserId) {
    ToLower(username) in s.db.creds && s.db.creds[ToLower(username)] == u && u in s.db.users
  }

  /** The organisation a signup made for its user. */
  ghost predicate MadeFor(s: State, o: OrgId, slug: string, u: UserId) {
    o in s.db.orgs && s.db.orgs[o].slug == slug && o in s.creators && s.creators[o] == u
  }

  ghost predicate SignupInv(s: State, p: SignupPc) {
    && Norm(p.req.email) == p.req.email && Slug.PlainSlug(p.req.slug)
    && match p
       case SuUser(_) => true
       case SuCred(req, user) => UserWith(s, user, req.email)
       case SuFind(req, user) => UserWith(s, user, req.email) && Credential(s, req.username, user)
       case SuOrg(req, user) => UserWith(s, user, req.email) && Credential(s, req.username, user)
       case SuMember(req, user, org) =>
         UserWith(s, user, req.email) && Credential(s, req.username, user) && MadeFor(s, org, req.slug, user)
       case SuSession(req, user, org) =>
         && UserWith(s, user, req.email) && Credential(s, req.username, user) && MadeFor(s, org, req.slug, user)
         && Joined(s, org, user)
  }

  ghost predicate LoginInv(s: State, p: LoginPc) {
    match p
    case LiCred(_) => true
    case LiHasTotp(username, user) => Credential(s, username, user)
    case LiCode(username, user) => Credential(s, username, user)
    case LiPick(username, user) => Credential(s, username, user)
    case LiSession(username, user, org) => Credential(s, username, user) && Joined(s, org, user)
  }

  ghost predicate LinkedTo(s: State, provider: string, subject: string, u: UserId) {
    (provider, subject) in s.db.identities && s.db.identities[(provider, subject)] == u && u in s.db.users
  }

  /** The branch for identities that are not linked is never entered. */
  ghost predicate CallbackInv(s: State, p: CallbackPc) {
    match p
    case CbIdentity(claim, email) => claim in s.given && email == Norm(claim.raw)
    case CbEmail(claim, email) => claim in s.given && email == Norm(claim.raw)
    case CbPending(claim, email) => claim in s.given && email == Norm(claim.raw) && AddressHeld(s.db.users, email)
    case CbOrg(user, linked, claim) => linked && LinkedTo(s, claim.provider, claim.subject, user)
    case CbResolve(_, _) => false
    case CbEnsure(_, _, _) => false
    case CbSession(user, org, claim) => LinkedTo(s, claim.provider, claim.subject, user) && Joined(s, org, user)
  }

  /** The identity is linked, if not to this user then by a concurrent request. */
  ghost predicate IsLinked(s: State, link: PendingLink) { (link.provider, link.subject) in s.db.identities }

  /** The token was handed out and has been taken back. */
  predicate Spent(s: State, token: nat) { token in s.issued && token !in s.pending }

  ghost predicate LinkInv(s: State, p: LinkPc) {
    match p
    case LnStart(_) => true
    case LnCred(req, link) => LinkClaimed(s, req, link)
    case LnHasTotp(req, link, user, email) => LinkLogin(s, req, link, user, email)
    case LnCode(req, link, user, email) => LinkLogin(s, req, link, user, email)
    case LnMatch(req, link, user, email) => LinkLogin(s, req, link, user, email)
    case LnCheck(req, link, user) => LinkUser(s, req, link, user)
    case LnLink(req, link, user) => LinkUser(s, req, link, user)
    case LnForget(req, link, user) => LinkUser(s, req, link, user) && IsLinked(s, link)
    case LnPick(req, link, user) => LinkUser(s, req, link, user) && IsLinked(s, link) && Spent(s, req.token)
    case LnSession(req, link, user, org) =>
      LinkUser(s, req, link, user) && IsLinked(s, link) && Spent(s, req.token) && Joined(s, org, user)
  }

  ghost predicate NewInviteInv(s: State, p: InvitePc) {
    match p
    case IcAuth(_) => true
    case IcUser(req, sess) => SessionSeen(s, req.sid, sess)
    case IcRole(req, sess) => SessionSeen(s, req.sid, sess)
    case IcRead(req, sess) => SessionSeen(s, req.sid, sess) && MayInvite(s, sess)
    case IcStore(req, sess) => MayInvite(s, sess) && GrantedRole(req.role).Some?
  }

  ghost predicate AcceptInv(s: State, p: AcceptPc) {
    match p
    case AcLookup(_) => true
    case AcCheck(hash, inv) => InviteSeen(s, hash, inv)
    case AcEmail(hash, inv) => InviteSeen(s, hash, inv)
    case AcUpsert(hash, inv) => InviteSeen(s, hash, inv)
    case AcMember(hash, inv, user) => InviteSeen(s, hash, inv) && UserWith(s, user, inv.email)
    case AcUse(hash, inv, user) => InviteSeen(s, hash, inv) && UserWith(s, user, inv.email) && Joined(s, inv.org, user)
    case AcSession(hash, inv, user) =>
      && InviteSeen(s, hash, inv) && UserWith(s, user, inv.email) && Joined(s, inv.org, user)
      && s.db.invites[hash].usedAt.Some?
  }

  ghost predicate ProcInv(s: State, p: Proc) {
    match p
    case Signup(pc) => SignupInv(s, pc)
    case Login(pc) => LoginInv(s, pc)
    case Callback(pc) => CallbackInv(s, pc)
    case Link(pc) => LinkInv(s, pc)
    case NewInvite(pc) => NewInviteInv(s, pc)
    case Accept(pc) => AcceptInv(s, pc)
    case Done(_) => true
  }

  ghost predicate Inv(s: State) {
    TablesInv(s) && forall rid | rid in s.procs :: ProcInv(s, s.procs[rid])
  }

  // ---------- What later states keep ----------

  ghost predicate UsersGrow(a: Users, b: Users) {
    forall u | u in a :: u in b && b[u].email == a[u].email
  }

  ghost predicate InvitesGrow(a: Invites, b: Invites) {
    forall h | h in a :: h in b && SameInvite(b[h], a[h])
  }

  ghost predicate Keeps<K, V>(a: map<K, V>, b: map<K, V>) {
    forall k | k in a :: k in b && b[k] == a[k]
  }

  /** New organisations are those of signups. */
  ghost predicate OrgsGrow(c: map<OrgId, UserId>, orgs: Orgs, c': map<OrgId, UserId>, orgs': Orgs) {
    && Keeps(c, c') && Keeps(orgs, orgs')
    && (forall o | o in orgs && o in c' :: o in c)
    && (forall o | o in orgs' :: o in orgs || o in c')
  }

  /** An identifier drawn before never names another session. */
  ghost predicate SessionsGrow(issued: set<nat>, a: map<nat, Session>, b: map<nat, Session>) {
    forall sid | sid in issued && sid in b :: sid in a && b[sid] == a[sid]
  }

  /** Nor another identity that waits. */
  ghost predicate PendingGrow(issued: set<nat>, a: Pending.Table, b: Pending.Table) {
    forall token | token in issued && token in b :: token in a && b[token] == a[token]
  }

  ghost predicate HistoryGrows(s: State, t: State) {
    && s.issued <= t.issued && s.given <= t.given && s.clock <= t.clock && s.seeded == t.seeded
    && Keeps(s.asserted, t.asserted)
  }

  /** Rows are never deleted; links, addresses, invites and the sessions behind an id never change. */
  ghost predicate Grows(s: State, t: State) {
    && UsersGrow(s.db.users, t.db.users)
    && OrgsGrow(s.creators, s.db.orgs, t.creators, t.db.orgs)
    && s.db.memberships.Keys <= t.db.memberships.Keys && s.db.totp.Keys <= t.db.totp.Keys
    && Keeps(s.db.identities, t.db.identities) && Keeps(s.db.creds, t.db.creds)
    && InvitesGrow(s.db.invites, t.db.invites)
    && SessionsGrow(s.issued, s.sessions, t.sessions) && PendingGrow(s.issued, s.pending, t.pending)
    && HistoryGrows(s, t)
  }

  lemma GrowsReflexive(s: State)
    ensures Grows(s, s)
  {
  }

  lemma GrowsTransitive(s: State, t: State, r: State)
    requires Grows(s, t) && Grows(t, r)
    ensures Grows(s, r)
  {
  }

  lemma ClaimedStable(a: Asserted, b: Asserted, provider: string, subject: string, email: string)
    requires Keeps(a, b) && ClaimedIn(a, provider, subject, email)
    ensures ClaimedIn(b, provider, subject, email)
  {
    hide Norm;
    var token :| HandedOut(a, token, provider, subject, email);
    assert HandedOut(b, token, provider, subject, email);
  }

  /** A request that does not move stays in order. */
  lemma ProcStable(s: State, t: State, p: Proc)
    requires Grows(s, t) && ProcInv(s, p)
    ensures ProcInv(t, p)
  {
  }

  // ---------- The effects, one by one ----------

  lemma InvitedStable(a: Invites, b: Invites, o: OrgId, role: Role, email: string)
    requires InvitesGrow(a, b) && Invited(a, o, role, email)
    ensures Invited(b, o, role, email)
  {
    var h :| h in a && Accounts(a[h], o, role, email);
    assert Accounts(b[h], o, role, email);
  }

  lemma TenantStable(c: map<OrgId, UserId>, m: Memberships, i: Invites, a: Users, b: Users)
    requires TenantOk(c, m, i, a) && UsersGrow(a, b)
    ensures TenantOk(c, m, i, b)
  {
    hide Invited;
  }

  lemma LinksStable(ids: Identities, a: Users, b: Users, p: Asserted, q: Asserted, seeded: set<(string, string)>)
    requires LinksOk(ids, a, p, seeded) && UsersGrow(a, b) && Keeps(p, q)
    ensures LinksOk(ids, b, q, seeded)
  {
    hide Norm;
    forall x, y | (x, y) in ids && (x, y) !in seeded
      ensures ids[(x, y)] in b && ClaimedIn(q, x, y, b[ids[(x, y)]].email)
    {
      ClaimedStable(p, q, x, y, a[ids[(x, y)]].email);
    }
  }

  /** More identifiers and more organisations disturb nothing. */
  lemma MoreIssued(s: State, orgs: Orgs, issued: set<nat>)
    requires TablesInv(s) && s.issued <= issued && s.db.orgs.Keys <= orgs.Keys
    ensures UsersOk(s.db.users, issued) && MembersOk(s.db.memberships, orgs, s.db.users)
    ensures InvitesOk(s.db.invites, orgs, s.db.users)
    ensures SessionsOk(s.sessions, s.db.memberships, issued) && PendingOk(s.pending, s.asserted, issued)
    ensures AssertedOk(s.asserted, s.given, issued) && OrgsOk(s.db.orgs, issued)
  {
    hide Norm;
    hide LinksOk;
    hide TenantOk;
    hide CreatorsOk;
    hide ClaimedIn;
    hide EmailsUnique;
  }

  lemma UpsertRows(users: Users, email: string, name: string, newId: nat)
    ensures forall u | u in UpsertUser(users, email, name, newId).0 ::
              u in users || (u == newId && UpsertUser(users, email, name, newId).0[u].email == email)
  {
  }

  lemma AfterUser(s: State, email: string, name: string, newId: nat)
    requires TablesInv(s) && newId !in s.issued && Norm(email) == email
    ensures var t := WithUser(s, email, name, newId);
            TablesInv(t) && Grows(s, t) && UserWith(t, UpsertUser(s.db.users, email, name, newId).1, email)
  {
    hide OrgsGrow;
    hide InvitesGrow;
    hide SessionsGrow;
    hide Keeps;
    hide AssertedOk;
    hide OrgsOk;
    hide PendingGrow;
    GrowsReflexive(s);
    hide Norm;
    hide TenantOk;
    hide LinksOk;
    hide CreatorsOk;
    hide SessionsOk;
    hide PendingOk;
    hide EmailsUnique;
    hide UpsertUser;
    var t := WithUser(s, email, name, newId);
    UpsertKeepsEmailsUnique(s.db.users, email, name, newId);
    UpsertRows(s.db.users, email, name, newId);
    MoreIssued(s, s.db.orgs, t.issued);
    TenantStable(s.creators, s.db.memberships, s.db.invites, s.db.users, t.db.users);
    LinksStable(s.db.identities, s.db.users, t.db.users, s.asserted, s.asserted, s.seeded);
  }

  lemma AfterCredential(s: State, user: UserId, username: string)
    requires TablesInv(s)
    ensures var t := OnTables(s, CreateCredential(s.db, user, username));
            t.Some? ==> TablesInv(t.value) && Grows(s, t.value)
  {
    hide UsersGrow;
    hide OrgsGrow;
    hide InvitesGrow;
    hide SessionsGrow;
    hide AssertedOk;
    hide PendingOk;
    hide SessionsOk;
    hide CreatorsOk;
    hide InvitesOk;
    hide MembersOk;
    hide PendingGrow;
    GrowsReflexive(s);
    hide Norm;
    hide TenantOk;
    hide LinksOk;
    hide UsersOk;
    hide ClaimedIn;
  }

  /** A new organisation has no members and no invites yet. */
  lemma NewOrgIsEmpty(s: State, newId: nat)
    requires TablesInv(s) && newId !in s.issued
    ensures newId !in s.db.orgs && newId !in s.creators
    ensures forall u :: (newId, u) !in s.db.memberships
    ensures forall h | h in s.db.invites :: s.db.invites[h].org != newId
  {
  }

  lemma NewOrgKeepsTenants(s: State, user: UserId, newId: nat)
    requires TablesInv(s) && newId !in s.issued
    ensures TenantOk(s.creators[newId := user], s.db.memberships, s.db.invites, s.db.users)
  {
    hide Invited;
    NewOrgIsEmpty(s, newId);
  }

  lemma NewOrgKeepsCreators(s: State, slug: string, user: UserId, newId: nat)
    requires TablesInv(s) && newId !in s.issued && Slug.PlainSlug(slug)
    ensures CreatorsOk(s.creators[newId := user], s.db.orgs[newId := Org(slug, s.clock)], s.db.memberships)
  {
    hide Slug.PlainSlug;
    NewOrgIsEmpty(s, newId);
  }

  lemma NewOrgKeepsSlugs(orgs: Orgs, issued: set<nat>, newId: nat, org: Org)
    requires OrgsOk(orgs, issued) && !SlugTaken(orgs, org.slug)
    ensures OrgsOk(orgs[newId := org], issued + {newId})
  {
  }

  lemma AfterOrg(s: State, slug: string, user: UserId, newId: nat)
    requires TablesInv(s) && newId !in s.issued && Slug.PlainSlug(slug) && user in s.db.users
    ensures var t := WithOrg(s, slug, user, newId);
            t.Some? ==> TablesInv(t.value) && Grows(s, t.value) &&
                        newId in t.value.db.orgs && newId in t.value.creators && t.value.creators[newId] == user
  {
    hide UsersGrow;
    hide InvitesGrow;
    hide SessionsGrow;
    hide AssertedOk;
    hide PendingGrow;
    GrowsReflexive(s);
    hide UsersOk;
    hide MembersOk;
    hide InvitesOk;
    hide SessionsOk;
    hide PendingOk;
    hide RefsOk;
    hide LinksOk;
    hide TenantOk;
    hide CreatorsOk;
    hide SlugTaken;
    hide Slug.PlainSlug;
    NewOrgIsEmpty(s, newId);
    NewOrgKeepsTenants(s, user, newId);
    NewOrgKeepsCreators(s, slug, user, newId);
    var t := WithOrg(s, slug, user, newId);
    if t.Some? {
      assert t.value.db.orgs == s.db.orgs[newId := Org(slug, s.clock)];
      NewOrgKeepsSlugs(s.db.orgs, s.issued, newId, Org(slug, s.clock));
      MoreIssued(s, t.value.db.orgs, t.value.issued);
      assert TablesInv(t.value);
      assert Grows(s, t.value);
    }
  }

  /** A membership write that keeps the rules of organisations made by a signup. */
  lemma AfterMembership(s: State, org: OrgId, user: UserId, role: Role)
    requires TablesInv(s)
    requires org in s.creators ==>
      (user == s.creators[org] && role == Owner) ||
      (role != Owner && user in s.db.users && Invited(s.db.invites, org, role, s.db.users[user].email))
    ensures var t := OnTables(s, EnsureMembership(s.db, org, user, role));
            t.Some? ==> TablesInv(t.value) && Grows(s, t.value) && Joined(t.value, org, user)
  {
    hide UsersGrow;
    hide OrgsGrow;
    hide InvitesGrow;
    hide SessionsGrow;
    hide Keeps;
    hide AssertedOk;
    hide PendingOk;
    hide RefsOk;
    hide OrgsOk;
    hide PendingGrow;
    GrowsReflexive(s);
    hide Norm;
    hide LinksOk;
    hide UsersOk;
    hide ClaimedIn;
    hide Invited;
    hide Slug.PlainSlug;
    hide InvitesOk;
  }

  lemma AfterSession(s: State, user: UserId, org: OrgId, provider: string, newId: nat)
    requires TablesInv(s) && newId !in s.issued && Joined(s, org, user)
    ensures var t := WithSession(s, user, org, provider, newId); TablesInv(t) && Grows(s, t)
  {
    hide UsersGrow;
    hide OrgsGrow;
    hide InvitesGrow;
    hide Keeps;
    hide PendingOk;
    hide UsersOk;
    hide PendingGrow;
    GrowsReflexive(s);
    hide Norm;
    hide LinksOk;
    hide TenantOk;
    hide CreatorsOk;
    hide InvitesOk;
    hide MembersOk;
    hide RefsOk;
    hide EmailsUnique;
    hide ClaimedIn;
    MoreIssued(s, s.db.orgs, s.issued + {newId});
  }

  lemma AfterPending(s: State, claim: Claim, email: string, newId: nat)
    requires TablesInv(s) && newId !in s.issued && claim in s.given && email == Norm(claim.raw)
    ensures var t := WithPending(s, claim, email, newId); TablesInv(t) && Grows(s, t)
  {
    hide UsersGrow;
    hide OrgsGrow;
    hide InvitesGrow;
    hide UsersOk;
    hide OrgsOk;
    GrowsReflexive(s);
    hide Norm;
    hide LinksOk;
    hide TenantOk;
    hide CreatorsOk;
    hide InvitesOk;
    hide MembersOk;
    hide RefsOk;
    hide EmailsUnique;
    var t := WithPending(s, claim, email, newId);
    LinksStable(s.db.identities, s.db.users, s.db.users, s.asserted, t.asserted, s.seeded);
    MoreIssued(s, s.db.orgs, s.issued + {newId});
    assert AssertedOk(t.asserted, t.given, t.issued);
  }

  lemma AfterPendingRemoved(s: State, m: Pending.Table)
    requires TablesInv(s) && m.Keys <= s.pending.Keys && forall k | k in m :: m[k] == s.pending[k]
    ensures TablesInv(s.(pending := m)) && Grows(s, s.(pending := m))
  {
    hide UsersGrow;
    hide OrgsGrow;
    hide InvitesGrow;
    hide SessionsGrow;
    hide Keeps;
    hide AssertedOk;
    hide OrgsOk;
    hide SessionsOk;
    hide HandedOut;
    GrowsReflexive(s);
    hide ClaimedIn;
    hide LinksOk;
    hide TenantOk;
    hide CreatorsOk;
    hide InvitesOk;
    hide MembersOk;
    hide RefsOk;
    hide UsersOk;
  }

  lemma NewLinkOk(
      ids: Identities, users: Users, p: Asserted, seeded: set<(string, string)>, x: string, y: string, u: UserId)
    requires LinksOk(ids, users, p, seeded) && u in users && ClaimedIn(p, x, y, users[u].email)
    ensures LinksOk(ids[(x, y) := u], users, p, seeded)
  {
    hide ClaimedIn;
  }

  lemma AfterLink(s: State, user: UserId, req: LinkReq, link: PendingLink)
    requires TablesInv(s) && LinkClaimed(s, req, link) && UserWith(s, user, link.email)
    ensures var t := OnTables(s, LinkIdentity(s.db, user, link.provider, link.subject));
            t.Some? ==> TablesInv(t.value) && Grows(s, t.value) && IsLinked(t.value, link)
  {
    hide UsersGrow;
    hide OrgsGrow;
    hide InvitesGrow;
    hide SessionsGrow;
    hide OrgsOk;
    hide PendingGrow;
    GrowsReflexive(s);
    hide Norm;
    hide HandedOut;
    hide TenantOk;
    hide CreatorsOk;
    hide InvitesOk;
    hide MembersOk;
    hide UsersOk;
    hide LinksOk;
    hide SessionsOk;
    hide PendingOk;
    hide AssertedOk;
    assert ClaimedIn(s.asserted, link.provider, link.subject, link.email);
    hide ClaimedIn;
    NewLinkOk(s.db.identities, s.db.users, s.asserted, s.seeded, link.provider, link.subject, user);
  }

  lemma AfterInvite(s: State, hash: string, inv: Invite)
    requires TablesInv(s) && Norm(inv.email) == inv.email && inv.role != Owner
    requires inv.org in s.creators ==> s.creators[inv.org] == inv.inviter
    ensures var t := OnTables(s, CreateInvite(s.db, hash, inv));
            t.Some? ==> TablesInv(t.value) && Grows(s, t.value)
  {
    hide UsersGrow;
    hide OrgsGrow;
    hide SessionsGrow;
    hide Keeps;
    hide AssertedOk;
    hide PendingOk;
    hide SessionsOk;
    hide PendingGrow;
    GrowsReflexive(s);
    hide Norm;
    hide LinksOk;
    hide CreatorsOk;
    hide MembersOk;
    hide UsersOk;
    hide RefsOk;
    hide ClaimedIn;
    hide Invited;
    var t := OnTables(s, CreateInvite(s.db, hash, inv));
    if t.Some? {
      InvitesGrowKeepTenants(s, t.value.db.invites);
    }
  }

  lemma InvitesGrowKeepTenants(s: State, i: Invites)
    requires TablesInv(s) && InvitesGrow(s.db.invites, i)
    ensures forall o, u | o in s.creators && (o, u) in s.db.memberships ::
              u in s.db.users && Rightful(s.creators, s.db.memberships, i, s.db.users, o, u)
  {
    hide Invited;
    forall o, u | o in s.creators && (o, u) in s.db.memberships
      ensures u in s.db.users && Rightful(s.creators, s.db.memberships, i, s.db.users, o, u)
    {
      if Invited(s.db.invites, o, s.db.memberships[(o, u)], s.db.users[u].email) {
        InvitedStable(s.db.invites, i, o, s.db.memberships[(o, u)], s.db.users[u].email);
      }
    }
  }

  lemma AfterUse(s: State, hash: string)
    requires TablesInv(s)
    ensures var t := s.(db := UseInvite(s.db, hash, s.clock)); TablesInv(t) && Grows(s, t)
  {
    hide UsersGrow;
    hide OrgsGrow;
    hide SessionsGrow;
    hide Keeps;
    hide AssertedOk;
    hide PendingOk;
    hide SessionsOk;
    hide PendingGrow;
    GrowsReflexive(s);
    hide Norm;
    hide LinksOk;
    hide CreatorsOk;
    hide MembersOk;
    hide UsersOk;
    hide RefsOk;
    hide ClaimedIn;
    hide Invited;
    var t := s.(db := UseInvite(s.db, hash, s.clock));
    InvitesGrowKeepTenants(s, t.db.invites);
  }
}
