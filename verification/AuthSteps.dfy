/** Every step of every handler keeps the invariant, and so does every run. */
module AuthSteps {
  import opened Options
  import opened Clock
  import opened Text
  import opened Repo
  import opened Pending
  import opened Sessions
  import opened AuthMachine
  import opened AuthInvariants

  /** The tables stay in order and only grow; the request that moved is in order; no other moved. */
  ghost predicate StepOk(s: State, t: State, rid: nat) {
    && TablesInv(t) && Grows(s, t)
    && rid in t.procs && t.procs == s.procs[rid := t.procs[rid]]
    && ProcInv(t, t.procs[rid])
  }

  /** A step that only moves the request, from a state that is in order. */
  lemma Moved(s: State, t: State, rid: nat, p: Proc)
    requires TablesInv(t) && Grows(s, t) && t.procs == s.procs && ProcInv(t, p)
    ensures StepOk(s, Goto(t, rid, p), rid)
  {
    hide ProcInv;
    hide UsersOk;
    hide OrgsOk;
    hide MembersOk;
    hide RefsOk;
    hide InvitesOk;
    hide SessionsOk;
    hide CreatorsOk;
    hide TenantOk;
    hide PendingOk;
    hide LinksOk;
    ProcIgnoresProcs(t, rid, p);
  }

  lemma ProcIgnoresProcs(t: State, rid: nat, p: Proc)
    requires ProcInv(t, p)
    ensures ProcInv(Goto(t, rid, p), p)
  {
  }

  lemma Stays(s: State, rid: nat, p: Proc)
    requires TablesInv(s) && ProcInv(s, p)
    ensures StepOk(s, Goto(s, rid, p), rid)
  {
    hide ProcInv;
    hide TablesInv;
    GrowsReflexive(s);
    Moved(s, s, rid, p);
  }

  /** A writing call, given that its effect is harmless and prepares the next counter. */
  lemma Written(s: State, rid: nat, o: Oracle, t: Option<State>, next: Proc)
    requires TablesInv(s)
    requires t.Some? ==> TablesInv(t.value) && Grows(s, t.value) && t.value.procs == s.procs && ProcInv(t.value, next)
    ensures StepOk(s, Write(s, rid, o, t, next), rid)
  {
    hide TablesInv;
    hide Grows;
    if t == None || o.call == Failed {
      Stays(s, rid, Done(false));
    } else {
      Moved(s, t.value, rid, if o.call == Fine then next else Done(false));
    }
  }

  lemma SignupKeeps(s: State, rid: nat, pc: SignupPc, o: Oracle)
    requires TablesInv(s) && o.newId !in s.issued && SignupInv(s, pc)
    ensures StepOk(s, AdvanceSignup(s, rid, pc, o), rid)
  {
    hide TablesInv;
    hide Grows;
    hide StepOk;
    hide Slug.PlainSlug;
    hide Norm;
    match pc
    case SuUser(req) =>
      AfterUser(s, req.email, req.name, o.newId);
      var user := UpsertUser(s.db.users, req.email, req.name, o.newId).1;
      Written(s, rid, o, Some(WithUser(s, req.email, req.name, o.newId)), Signup(SuCred(req, user)));
    case SuCred(req, user) =>
      if !o.pass {
        Stays(s, rid, Done(false));
      } else {
        AfterCredential(s, user, ToLower(req.username));
        Written(s, rid, o, OnTables(s, CreateCredential(s.db, user, ToLower(req.username))), Signup(SuFind(req, user)));
      }
    case SuFind(req, user) =>
      Stays(s, rid, if o.call == Fine && SlugTaken(s.db.orgs, req.slug) then Done(false) else Signup(SuOrg(req, user)));
    case SuOrg(req, user) =>
      AfterOrg(s, req.slug, user, o.newId);
      Written(s, rid, o, WithOrg(s, req.slug, user, o.newId), Signup(SuMember(req, user, o.newId)));
    case SuMember(req, user, org) =>
      AfterMembership(s, org, user, Owner);
      Written(s, rid, o, OnTables(s, EnsureMembership(s.db, org, user, Owner)), Signup(SuSession(req, user, org)));
    case SuSession(_, user, org) =>
      AfterSession(s, user, org, "local", o.newId);
      Moved(s, WithSession(s, user, org, "local", o.newId), rid, Done(true));
  }

  lemma PickJoins(s: State, user: UserId, org: OrgId)
    requires TablesInv(s) && IsPick(s.db, user, org)
    ensures Joined(s, org, user)
  {
  }

  lemma LoginKeeps(s: State, rid: nat, pc: LoginPc, o: Oracle)
    requires TablesInv(s) && o.newId !in s.issued && LoginInv(s, pc)
    ensures StepOk(s, AdvanceLogin(s, rid, pc, o), rid)
  {
    hide TablesInv;
    hide Grows;
    hide StepOk;
    hide IsPick;
    var t := AdvanceLogin(s, rid, pc, o);
    match pc
    case LiCred(username) =>
      Stays(s, rid, t.procs[rid]);
    case LiHasTotp(_, _) =>
      Stays(s, rid, t.procs[rid]);
    case LiCode(_, _) =>
      Stays(s, rid, t.procs[rid]);
    case LiPick(_, user) =>
      if IsPick(s.db, user, o.org) {
        PickJoins(s, user, o.org);
      }
      Stays(s, rid, t.procs[rid]);
    case LiSession(_, user, org) =>
      AfterSession(s, user, org, "local", o.newId);
      Moved(s, WithSession(s, user, org, "local", o.newId), rid, Done(true));
  }

  lemma CallbackKeeps(s: State, rid: nat, pc: CallbackPc, o: Oracle)
    requires TablesInv(s) && o.newId !in s.issued && CallbackInv(s, pc)
    ensures StepOk(s, AdvanceCallback(s, rid, pc, o), rid)
    ensures AdvanceCallback(s, rid, pc, o).db == s.db
  {
    hide TablesInv;
    hide Grows;
    hide StepOk;
    hide IsPick;
    hide Norm;
    var t := AdvanceCallback(s, rid, pc, o);
    match pc
    case CbIdentity(claim, email) =>
      Stays(s, rid, t.procs[rid]);
    case CbEmail(claim, email) =>
      Stays(s, rid, t.procs[rid]);
    case CbPending(claim, email) =>
      AfterPending(s, claim, email, o.newId);
      Moved(s, WithPending(s, claim, email, o.newId), rid, Done(true));
    case CbOrg(user, linked, claim) =>
      if IsPick(s.db, user, o.org) {
        PickJoins(s, user, o.org);
      }
      Stays(s, rid, t.procs[rid]);
    case CbResolve(_, _) => assert false;
    case CbEnsure(_, _, _) => assert false;
    case CbSession(user, org, claim) =>
      AfterSession(s, user, org, claim.provider, o.newId);
      Moved(s, WithSession(s, user, org, claim.provider, o.newId), rid, Done(true));
  }

  lemma PendingClaimed(s: State, token: nat)
    requires TablesInv(s)
    ensures var (m, link) := Pending.Get(s.pending, token, s.clock);
            && m.Keys <= s.pending.Keys && (forall k | k in m :: m[k] == s.pending[k])
            && (link.Some? ==> HandedOut(s.asserted, token, link.value.provider, link.value.subject, link.value.email))
  {
  }

  /** Addresses in the tables and in pending entries are normalised already. */
  lemma EmailsMatch(s: State, req: LinkReq, link: PendingLink, user: UserId)
    requires TablesInv(s) && LinkClaimed(s, req, link) && user in s.db.users
    requires Norm(s.db.users[user].email) == Norm(link.email)
    ensures s.db.users[user].email == link.email
  {
    NormIdempotent(s.asserted[req.token].raw);
  }

  lemma TokenIssued(s: State, req: LinkReq, link: PendingLink)
    requires TablesInv(s) && LinkClaimed(s, req, link)
    ensures req.token in s.issued
  {
  }

  lemma LinkWriteKeeps(s: State, rid: nat, pc: LinkPc, o: Oracle)
    requires TablesInv(s) && o.newId !in s.issued && LinkInv(s, pc)
    requires pc.LnStart? || pc.LnLink? || pc.LnForget?
    ensures StepOk(s, AdvanceLink(s, rid, pc, o), rid)
  {
    hide TablesInv;
    hide Grows;
    hide StepOk;
    hide Norm;
    hide HandedOut;
    var t := AdvanceLink(s, rid, pc, o);
    if pc.LnStart? {
      var (m, link) := Pending.Get(s.pending, pc.req.token, s.clock);
      PendingClaimed(s, pc.req.token);
      AfterPendingRemoved(s, m);
      Moved(s, s.(pending := m), rid, t.procs[rid]);
    } else if pc.LnLink? {
      AfterLink(s, pc.user, pc.req, pc.link);
      var linked := OnTables(s, LinkIdentity(s.db, pc.user, pc.link.provider, pc.link.subject));
      Written(s, rid, o, linked, Link(LnForget(pc.req, pc.link, pc.user)));
    } else {
      var m := s.pending - {pc.req.token};
      TokenIssued(s, pc.req, pc.link);
      AfterPendingRemoved(s, m);
      Moved(s, s.(pending := m), rid, Link(LnPick(pc.req, pc.link, pc.user)));
    }
  }

  /** The last step of a handler: a session for a member. */
  lemma OpensKeeps(s: State, rid: nat, user: UserId, org: OrgId, provider: string, newId: nat)
    requires TablesInv(s) && newId !in s.issued && Joined(s, org, user)
    ensures StepOk(s, Goto(WithSession(s, user, org, provider, newId), rid, Done(true)), rid)
  {
    hide TablesInv;
    hide Grows;
    hide StepOk;
    AfterSession(s, user, org, provider, newId);
    Moved(s, WithSession(s, user, org, provider, newId), rid, Done(true));
  }

  lemma LinkPickKeeps(s: State, rid: nat, pc: LinkPc, o: Oracle)
    requires TablesInv(s) && LinkInv(s, pc) && pc.LnPick?
    ensures StepOk(s, AdvanceLink(s, rid, pc, o), rid)
  {
    hide TablesInv;
    hide StepOk;
    hide IsPick;
    hide LinkUser;
    hide Goto;
    if o.call == Fine && IsPick(s.db, pc.user, o.org) {
      PickJoins(s, pc.user, o.org);
      Stays(s, rid, Link(LnSession(pc.req, pc.link, pc.user, o.org)));
    } else {
      Stays(s, rid, Done(false));
    }
  }

  lemma LinkKeeps(s: State, rid: nat, pc: LinkPc, o: Oracle)
    requires TablesInv(s) && o.newId !in s.issued && LinkInv(s, pc)
    ensures StepOk(s, AdvanceLink(s, rid, pc, o), rid)
  {
    hide TablesInv;
    hide Grows;
    hide StepOk;
    hide IsPick;
    hide Norm;
    hide HandedOut;
    var t := AdvanceLink(s, rid, pc, o);
    match pc
    case LnCred(req, link) =>
      CredentialsHaveUsers(s, req.email);
      Stays(s, rid, t.procs[rid]);
    case LnHasTotp(_, _, _, _) =>
      Stays(s, rid, t.procs[rid]);
    case LnCode(_, _, _, _) =>
      Stays(s, rid, t.procs[rid]);
    case LnMatch(req, link, user, userEmail) =>
      if Norm(userEmail) == Norm(link.email) {
        EmailsMatch(s, req, link, user);
      }
      Stays(s, rid, t.procs[rid]);
    case LnCheck(req, link, user) =>
      Stays(s, rid, t.procs[rid]);
    case LnPick(_, _, _) =>
      LinkPickKeeps(s, rid, pc, o);
    case LnSession(_, link, user, org) =>
      OpensKeeps(s, rid, user, org, link.provider, o.newId);
    case _ =>
      LinkWriteKeeps(s, rid, pc, o);
  }

  lemma CredentialsHaveUsers(s: State, username: string)
    requires TablesInv(s)
    ensures username in s.db.creds ==> s.db.creds[username] in s.db.users
  {
  }

  lemma LiveSessionSeen(s: State, sid: nat)
    requires TablesInv(s) && sid in s.sessions
    ensures SessionSeen(s, sid, s.sessions[sid])
  {
  }

  lemma OwnerMayInvite(s: State, sess: Session)
    requires TablesInv(s) && Joined(s, sess.org, sess.user) && s.db.memberships[(sess.org, sess.user)] == Owner
    ensures MayInvite(s, sess)
  {
  }

  lemma InviteWriteKeeps(s: State, rid: nat, pc: InvitePc, o: Oracle)
    requires TablesInv(s) && o.newId !in s.issued && NewInviteInv(s, pc) && pc.IcStore?
    ensures StepOk(s, AdvanceInvite(s, rid, pc, o), rid)
  {
    hide TablesInv;
    hide Grows;
    hide StepOk;
    hide Norm;
    hide GrantedRole;
    var inv := InviteRow(s, pc.req, pc.sess, GrantedRole(pc.req.role).value);
    GrantedIff(pc.req.role, inv.role);
    NormIdempotent(pc.req.email);
    AfterInvite(s, pc.req.hash, inv);
    Written(s, rid, o, OnTables(s, CreateInvite(s.db, pc.req.hash, inv)), Done(true));
  }

  lemma InviteKeeps(s: State, rid: nat, pc: InvitePc, o: Oracle)
    requires TablesInv(s) && o.newId !in s.issued && NewInviteInv(s, pc)
    ensures StepOk(s, AdvanceInvite(s, rid, pc, o), rid)
  {
    hide TablesInv;
    hide Grows;
    hide StepOk;
    hide Norm;
    hide GrantedRole;
    var t := AdvanceInvite(s, rid, pc, o);
    match pc
    case IcAuth(req) =>
      if LiveSession(s, req.sid) {
        LiveSessionSeen(s, req.sid);
      }
      Stays(s, rid, t.procs[rid]);
    case IcUser(_, _) =>
      Stays(s, rid, t.procs[rid]);
    case IcRole(_, sess) =>
      if s.db.memberships[(sess.org, sess.user)] == Owner {
        OwnerMayInvite(s, sess);
      }
      Stays(s, rid, t.procs[rid]);
    case IcRead(_, _) =>
      Stays(s, rid, t.procs[rid]);
    case IcStore(_, _) =>
      InviteWriteKeeps(s, rid, pc, o);
  }

  /** What an invite a request has seen says about the tables. */
  lemma SeenInviteFacts(s: State, hash: string, inv: Invite)
    requires TablesInv(s) && InviteSeen(s, hash, inv)
    ensures inv.org in s.db.orgs && inv.role != Owner && Norm(inv.email) == inv.email && ToLower(inv.email) == inv.email
    ensures Invited(s.db.invites, inv.org, inv.role, inv.email)
  {
    NormIdempotent(inv.email);
    assert Accounts(s.db.invites[hash], inv.org, inv.role, inv.email);
  }

  lemma AcceptWriteKeeps(s: State, rid: nat, pc: AcceptPc, o: Oracle)
    requires TablesInv(s) && o.newId !in s.issued && AcceptInv(s, pc)
    requires pc.AcUpsert? || pc.AcMember? || pc.AcUse?
    ensures StepOk(s, AdvanceAccept(s, rid, pc, o), rid)
  {
    hide TablesInv;
    hide Grows;
    hide StepOk;
    hide Norm;
    hide Invited;
    if pc.AcUpsert? {
      var hash, inv := pc.hash, pc.inv;
      SeenInviteFacts(s, hash, inv);
      AfterUser(s, inv.email, "", o.newId);
      var user := UpsertUser(s.db.users, inv.email, "", o.newId).1;
      Written(s, rid, o, Some(WithUser(s, inv.email, "", o.newId)), Accept(AcMember(hash, inv, user)));
    } else if pc.AcMember? {
      var hash, inv, user := pc.hash, pc.inv, pc.user;
      SeenInviteFacts(s, hash, inv);
      AfterMembership(s, inv.org, user, inv.role);
      Written(s, rid, o, OnTables(s, EnsureMembership(s.db, inv.org, user, inv.role)), Accept(AcUse(hash, inv, user)));
    } else {
      var hash, inv, user := pc.hash, pc.inv, pc.user;
      AfterUse(s, hash);
      Written(s, rid, o, Some(s.(db := UseInvite(s.db, hash, s.clock))), Accept(AcSession(hash, inv, user)));
    }
  }

  lemma AcceptKeeps(s: State, rid: nat, pc: AcceptPc, o: Oracle)
    requires TablesInv(s) && o.newId !in s.issued && AcceptInv(s, pc)
    ensures StepOk(s, AdvanceAccept(s, rid, pc, o), rid)
  {
    hide TablesInv;
    hide Grows;
    hide StepOk;
    hide Norm;
    hide Invited;
    var t := AdvanceAccept(s, rid, pc, o);
    match pc
    case AcLookup(hash) =>
      Stays(s, rid, t.procs[rid]);
    case AcCheck(hash, inv) =>
      Stays(s, rid, t.procs[rid]);
    case AcEmail(hash, inv) =>
      SeenInviteFacts(s, hash, inv);
      Stays(s, rid, t.procs[rid]);
    case AcSession(hash, inv, user) =>
      AfterSession(s, user, inv.org, "invite", o.newId);
      Moved(s, WithSession(s, user, inv.org, "invite", o.newId), rid, Done(true));
    case _ =>
      AcceptWriteKeeps(s, rid, pc, o);
  }

  lemma AdvanceKeeps(s: State, rid: nat, o: Oracle)
    requires TablesInv(s) && Enabled(s, Advance(rid, o)) && ProcInv(s, s.procs[rid])
    ensures StepOk(s, AdvanceProc(s, rid, o), rid)
  {
    hide TablesInv;
    hide StepOk;
    hide SignupInv;
    hide LoginInv;
    hide CallbackInv;
    hide LinkInv;
    hide NewInviteInv;
    hide AcceptInv;
    hide AdvanceSignup;
    hide AdvanceLogin;
    hide AdvanceCallback;
    hide AdvanceLink;
    hide AdvanceInvite;
    hide AdvanceAccept;
    match s.procs[rid]
    case Signup(pc) => SignupKeeps(s, rid, pc, o);
    case Login(pc) => LoginKeeps(s, rid, pc, o);
    case Callback(pc) => CallbackKeeps(s, rid, pc, o);
    case Link(pc) => LinkKeeps(s, rid, pc, o);
    case NewInvite(pc) => InviteKeeps(s, rid, pc, o);
    case Accept(pc) => AcceptKeeps(s, rid, pc, o);
  }

  lemma StartKeeps(s: State, a: Action)
    requires TablesInv(s) && Enabled(s, a)
    requires a.StartSignup? || a.StartLogin? || a.StartCallback? || a.StartLink? || a.StartInvite? || a.StartAccept?
    ensures StepOk(s, Next(s, a), a.rid)
  {
    hide TablesInv;
    hide StepOk;
    hide Slug.PlainSlug;
    hide Slug.IsValidSlug;
    hide Norm;
    if a.StartCallback? {
      AfterGiven(s, a.claim);
      Moved(s, s.(given := s.given + {a.claim}), a.rid, Callback(CbIdentity(a.claim, Norm(a.claim.raw))));
    } else {
      if a.StartSignup? {
        NormIdempotent(a.email);
        Slug.SlugMeaning(Norm(a.slug));
      }
      Stays(s, a.rid, Next(s, a).procs[a.rid]);
    }
  }

  lemma AfterGiven(s: State, claim: Claim)
    requires TablesInv(s)
    ensures var t := s.(given := s.given + {claim}); TablesInv(t) && Grows(s, t)
  {
    hide UsersOk;
    hide MembersOk;
    hide RefsOk;
    hide InvitesOk;
    hide SessionsOk;
    hide CreatorsOk;
    hide TenantOk;
    hide PendingOk;
    hide LinksOk;
  }

  lemma AfterTick(s: State, to: Time)
    requires TablesInv(s) && s.clock <= to
    ensures TablesInv(s.(clock := to)) && Grows(s, s.(clock := to))
  {
    hide UsersOk;
    hide MembersOk;
    hide RefsOk;
    hide InvitesOk;
    hide SessionsOk;
    hide CreatorsOk;
    hide TenantOk;
    hide PendingOk;
    hide LinksOk;
  }

  lemma AfterDrop(s: State, sid: nat)
    requires TablesInv(s)
    ensures var t := s.(sessions := s.sessions - {sid}); TablesInv(t) && Grows(s, t)
  {
    hide UsersOk;
    hide MembersOk;
    hide RefsOk;
    hide InvitesOk;
    hide CreatorsOk;
    hide TenantOk;
    hide PendingOk;
    hide LinksOk;
  }

  lemma AfterEnrol(s: State, user: UserId, secret: string)
    requires TablesInv(s)
    ensures var t := OnTables(s, Repo.SetTotp(s.db, user, secret));
            t.Some? ==> TablesInv(t.value) && Grows(s, t.value)
  {
    hide UsersOk;
    hide OrgsOk;
    hide MembersOk;
    hide RefsOk;
    hide InvitesOk;
    hide SessionsOk;
    hide CreatorsOk;
    hide TenantOk;
    hide PendingOk;
    hide LinksOk;
    hide AssertedOk;
    hide UsersGrow;
    hide OrgsGrow;
    hide InvitesGrow;
    hide SessionsGrow;
    hide PendingGrow;
    hide Keeps;
    GrowsReflexive(s);
  }

  lemma OtherKeeps(s: State, a: Action)
    requires TablesInv(s) && Enabled(s, a) && (a.Tick? || a.DropSession? || a.SetCredential? || a.Enrol?)
    ensures TablesInv(Next(s, a)) && Grows(s, Next(s, a)) && Next(s, a).procs == s.procs
  {
    hide TablesInv;
    hide Grows;
    if a.Tick? {
      AfterTick(s, a.to);
    } else if a.DropSession? {
      AfterDrop(s, a.sid);
    } else if a.Enrol? {
      GrowsReflexive(s);
      AfterEnrol(s, a.user, a.secret);
    } else {
      GrowsReflexive(s);
      AfterCredential(s, a.user, a.username);
    }
  }

  lemma NextKeepsInv(s: State, a: Action)
    requires Inv(s) && Enabled(s, a)
    ensures Inv(Next(s, a)) && Grows(s, Next(s, a))
  {
    hide TablesInv;
    hide Grows;
    hide ProcInv;
    hide AdvanceProc;
    var t := Next(s, a);
    if a.Tick? || a.DropSession? || a.SetCredential? || a.Enrol? {
      OtherKeeps(s, a);
    } else if a.Advance? {
      AdvanceKeeps(s, a.rid, a.o);
    } else {
      StartKeeps(s, a);
    }
    forall rid | rid in t.procs ensures ProcInv(t, t.procs[rid]) {
      if rid in s.procs && t.procs[rid] == s.procs[rid] {
        ProcStable(s, t, s.procs[rid]);
      }
    }
  }

  lemma {:induction false} RunKeepsInv(s: State, run: seq<Action>)
    requires Inv(s) && ValidRun(s, run)
    ensures Inv(Execute(s, run)) && Grows(s, Execute(s, run))
    decreases run
  {
    hide Inv;
    hide Grows;
    hide Next;
    if run == [] {
      GrowsReflexive(s);
    } else {
      var t := Next(s, run[0]);
      NextKeepsInv(s, run[0]);
      RunKeepsInv(t, run[1..]);
      GrowsTransitive(s, t, Execute(t, run[1..]));
    }
  }

  lemma InitialInv(s: State)
    requires Initial(s) && WellFormed(s.db)
    ensures Inv(s)
  {
  }
}
