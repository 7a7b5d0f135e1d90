/** Which tables a step of each handler can touch, and what it can write there. */
module AuthFootprints {
  import opened Options
  import opened Text
  import opened Repo
  import opened AuthMachine

  /** A signup about to make its user the Owner of `org`. */
  predicate AtMember(p: Proc, org: OrgId) { p.Signup? && p.su.SuMember? && p.su.org == org }

  /** The step that writes the Owner of a new organisation, with its effect. */
  predicate Founds(p: Proc, o: Oracle, org: OrgId) { AtMember(p, org) && o.call != Failed }

  /** The step by which an accept joins `user` to `org`, with its effect. */
  predicate Joins(p: Proc, o: Oracle, org: OrgId, user: UserId) {
    p.Accept? && p.ac.AcMember? && p.ac.inv.org == org && p.ac.user == user && o.call != Failed
  }

  ghost predicate MembersTouched(s: State, t: State, p: Proc, o: Oracle) {
    || t.db.memberships == s.db.memberships
    || (p.Signup? && p.su.SuMember? && Founds(p, o, p.su.org) &&
        t.db.memberships == s.db.memberships[(p.su.org, p.su.user) := Owner])
    || (p.Accept? && p.ac.AcMember? && Joins(p, o, p.ac.inv.org, p.ac.user) &&
        t.db.memberships == s.db.memberships[(p.ac.inv.org, p.ac.user) := p.ac.inv.role])
    || (p.Callback? && p.cb.CbEnsure?)
  }

  ghost predicate CreatorsTouched(s: State, t: State, p: Proc, o: Oracle) {
    || t.creators == s.creators
    || (p.Signup? && p.su.SuOrg? && t.creators == s.creators[o.newId := p.su.user])
  }

  ghost predicate InvitesTouched(s: State, t: State, p: Proc) {
    forall h | h in t.db.invites ::
      || (h in s.db.invites && t.db.invites[h].org == s.db.invites[h].org)
      || (p.NewInvite? && p.ic.IcStore? && t.db.invites[h].org == p.ic.sess.org)
  }

  ghost predicate LinksTouched(s: State, t: State, p: Proc) {
    || t.db.identities == s.db.identities
    || (p.Link? && p.ln.LnLink? &&
        t.db.identities == s.db.identities[(p.ln.link.provider, p.ln.link.subject) := p.ln.user])
  }

  ghost predicate TokensTouched(s: State, t: State, p: Proc, o: Oracle) {
    || t.asserted == s.asserted
    || (p.Callback? && p.cb.CbPending? && t.asserted == s.asserted[o.newId := p.cb.claim])
  }

  /** A session is opened under a new identifier, for eight hours of 3600 seconds. */
  ghost predicate SessionsTouched(s: State, t: State, o: Oracle) {
    && t.clock == s.clock
    && (|| t.sessions == s.sessions
        || (o.newId in t.sessions && t.sessions == s.sessions[o.newId := t.sessions[o.newId]]
            && t.sessions[o.newId].expiry == Some(s.clock + 28_800)))
  }

  /** A signup comes to the membership of an organisation it has just made, and in no other way. */
  ghost predicate MemberEntered(t: State, rid: nat, p: Proc, o: Oracle) {
    forall org | rid in t.procs && AtMember(t.procs[rid], org) :: p.Signup? && p.su.SuOrg? && org == o.newId
  }

  ghost predicate TablesTouched(s: State, t: State, p: Proc, o: Oracle) {
    && t.given == s.given && MembersTouched(s, t, p, o) && CreatorsTouched(s, t, p, o) && InvitesTouched(s, t, p)
    && LinksTouched(s, t, p) && TokensTouched(s, t, p, o) && SessionsTouched(s, t, o)
  }

  ghost predicate Touches(s: State, t: State, rid: nat, p: Proc, o: Oracle) {
    TablesTouched(s, t, p, o) && MemberEntered(t, rid, p, o)
  }

  /** The next counter is not at the membership, or this is how it comes there. */
  ghost predicate MayEnter(next: Proc, p: Proc, o: Oracle) {
    forall org | AtMember(next, org) :: p.Signup? && p.su.SuOrg? && org == o.newId
  }

  lemma TouchMoved(s: State, t: State, rid: nat, p: Proc, o: Oracle, next: Proc)
    requires TablesTouched(s, t, p, o) && MayEnter(next, p, o)
    ensures Touches(s, Goto(t, rid, next), rid, p, o)
  {
  }

  lemma TouchNothing(s: State, rid: nat, p: Proc, o: Oracle, next: Proc)
    requires MayEnter(next, p, o)
    ensures Touches(s, Goto(s, rid, next), rid, p, o)
  {
  }

  lemma TouchWritten(s: State, rid: nat, p: Proc, o: Oracle, t: Option<State>, next: Proc)
    requires t.Some? && o.call != Failed ==> TablesTouched(s, t.value, p, o)
    requires MayEnter(next, p, o)
    ensures Touches(s, Write(s, rid, o, t, next), rid, p, o)
  {
    hide TablesTouched;
    hide Touches;
    if t == None || o.call == Failed {
      TouchNothing(s, rid, p, o, Done(false));
    } else {
      TouchMoved(s, t.value, rid, p, o, if o.call == Fine then next else Done(false));
    }
  }

  lemma SignupTouches(s: State, rid: nat, pc: SignupPc, o: Oracle)
    ensures Touches(s, AdvanceSignup(s, rid, pc, o), rid, Signup(pc), o)
  {
    hide Touches;
    hide UpsertUser;
    hide SlugTaken;
    hide ToLower;
    hide Goto;
    hide Write;
    var p := Signup(pc);
    match pc
    case SuUser(req) =>
      var user := UpsertUser(s.db.users, req.email, req.name, o.newId).1;
      TouchWritten(s, rid, p, o, Some(WithUser(s, req.email, req.name, o.newId)), Signup(SuCred(req, user)));
    case SuCred(req, user) =>
      TouchNothing(s, rid, p, o, Done(false));
      var t := OnTables(s, CreateCredential(s.db, user, ToLower(req.username)));
      TouchWritten(s, rid, p, o, t, Signup(SuFind(req, user)));
    case SuFind(req, user) =>
      TouchNothing(s, rid, p, o, Done(false));
      TouchNothing(s, rid, p, o, Signup(SuOrg(req, user)));
    case SuOrg(req, user) =>
      TouchWritten(s, rid, p, o, WithOrg(s, req.slug, user, o.newId), Signup(SuMember(req, user, o.newId)));
    case SuMember(req, user, org) =>
      var t := OnTables(s, EnsureMembership(s.db, org, user, Owner));
      TouchWritten(s, rid, p, o, t, Signup(SuSession(req, user, org)));
    case SuSession(_, user, org) =>
      TouchMoved(s, WithSession(s, user, org, "local", o.newId), rid, p, o, Done(true));
  }

  lemma LoginTouches(s: State, rid: nat, pc: LoginPc, o: Oracle)
    ensures Touches(s, AdvanceLogin(s, rid, pc, o), rid, Login(pc), o)
  {
    hide IsPick;
    hide ToLower;
    hide Touches;
    if pc.LiSession? {
      TouchMoved(s, WithSession(s, pc.user, pc.org, "local", o.newId), rid, Login(pc), o, Done(true));
    } else {
      TouchNothing(s, rid, Login(pc), o, AdvanceLogin(s, rid, pc, o).procs[rid]);
    }
  }

  lemma CallbackTouches(s: State, rid: nat, pc: CallbackPc, o: Oracle)
    ensures Touches(s, AdvanceCallback(s, rid, pc, o), rid, Callback(pc), o)
  {
    hide IsPick;
    hide UserByEmail;
    hide Touches;
    var p := Callback(pc);
    match pc
    case CbPending(claim, email) =>
      TouchMoved(s, WithPending(s, claim, email, o.newId), rid, p, o, Done(true));
    case CbEnsure(user, org, claim) =>
      var t := OnTables(s, EnsureMembership(s.db, org, user, Member));
      TouchWritten(s, rid, p, o, t, Callback(CbSession(user, org, claim)));
    case CbSession(user, org, claim) =>
      TouchMoved(s, WithSession(s, user, org, claim.provider, o.newId), rid, p, o, Done(true));
    case _ =>
      TouchNothing(s, rid, p, o, AdvanceCallback(s, rid, pc, o).procs[rid]);
  }

  lemma LinkTouches(s: State, rid: nat, pc: LinkPc, o: Oracle)
    ensures Touches(s, AdvanceLink(s, rid, pc, o), rid, Link(pc), o)
  {
    hide IsPick;
    hide Norm;
    hide Touches;
    hide Pending.Get;
    var p := Link(pc);
    match pc
    case LnStart(req) =>
      var m := Pending.Get(s.pending, req.token, s.clock).0;
      TouchMoved(s, s.(pending := m), rid, p, o, AdvanceLink(s, rid, pc, o).procs[rid]);
    case LnLink(req, link, user) =>
      var t := OnTables(s, LinkIdentity(s.db, user, link.provider, link.subject));
      TouchWritten(s, rid, p, o, t, Link(LnForget(req, link, user)));
    case LnForget(req, link, user) =>
      TouchMoved(s, s.(pending := s.pending - {req.token}), rid, p, o, Link(LnPick(req, link, user)));
    case LnSession(_, link, user, org) =>
      TouchMoved(s, WithSession(s, user, org, link.provider, o.newId), rid, p, o, Done(true));
    case _ =>
      TouchNothing(s, rid, p, o, AdvanceLink(s, rid, pc, o).procs[rid]);
  }

  lemma InviteTouches(s: State, rid: nat, pc: InvitePc, o: Oracle)
    ensures Touches(s, AdvanceInvite(s, rid, pc, o), rid, NewInvite(pc), o)
  {
    hide GrantedRole;
    hide IsBlank;
    hide Norm;
    hide Touches;
    var p := NewInvite(pc);
    if pc.IcStore? {
      var role := GrantedRole(pc.req.role);
      var t := if role == None then None
               else CreateInvite(s.db, pc.req.hash, InviteRow(s, pc.req, pc.sess, role.value));
      TouchWritten(s, rid, p, o, OnTables(s, t), Done(true));
    } else {
      TouchNothing(s, rid, p, o, AdvanceInvite(s, rid, pc, o).procs[rid]);
    }
  }

  lemma AcceptTouches(s: State, rid: nat, pc: AcceptPc, o: Oracle)
    ensures Touches(s, AdvanceAccept(s, rid, pc, o), rid, Accept(pc), o)
  {
    hide UpsertUser;
    hide UserByEmail;
    hide ToLower;
    hide Touches;
    hide Write;
    var p := Accept(pc);
    match pc
    case AcUpsert(hash, inv) =>
      var user := UpsertUser(s.db.users, ToLower(inv.email), "", o.newId).1;
      var t := WithUser(s, ToLower(inv.email), "", o.newId);
      TouchWritten(s, rid, p, o, Some(t), Accept(AcMember(hash, inv, user)));
    case AcMember(hash, inv, user) =>
      var t := OnTables(s, EnsureMembership(s.db, inv.org, user, inv.role));
      TouchWritten(s, rid, p, o, t, Accept(AcUse(hash, inv, user)));
    case AcUse(hash, inv, user) =>
      TouchWritten(s, rid, p, o, Some(s.(db := UseInvite(s.db, hash, s.clock))), Accept(AcSession(hash, inv, user)));
    case AcSession(hash, inv, user) =>
      TouchMoved(s, WithSession(s, user, inv.org, "invite", o.newId), rid, p, o, Done(true));
    case _ =>
      TouchNothing(s, rid, p, o, AdvanceAccept(s, rid, pc, o).procs[rid]);
  }

  /** Every step keeps to the footprint of its handler. */
  lemma AdvanceTouches(s: State, rid: nat, o: Oracle)
    requires rid in s.procs
    ensures Touches(s, AdvanceProc(s, rid, o), rid, s.procs[rid], o)
  {
    hide Touches;
    hide AdvanceSignup;
    hide AdvanceLogin;
    hide AdvanceCallback;
    hide AdvanceLink;
    hide AdvanceInvite;
    hide AdvanceAccept;
    match s.procs[rid]
    case Signup(pc) => SignupTouches(s, rid, pc, o);
    case Login(pc) => LoginTouches(s, rid, pc, o);
    case Callback(pc) => CallbackTouches(s, rid, pc, o);
    case Link(pc) => LinkTouches(s, rid, pc, o);
    case NewInvite(pc) => InviteTouches(s, rid, pc, o);
    case Accept(pc) => AcceptTouches(s, rid, pc, o);
    case Done(_) => NothingTouched(s, rid, o);
  }

  lemma NothingTouched(s: State, rid: nat, o: Oracle)
    requires rid in s.procs && s.procs[rid].Done?
    ensures Touches(s, s, rid, s.procs[rid], o)
  {
  }
}
