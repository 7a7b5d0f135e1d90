/** Who is in an organisation made by a signup, and when it keeps an Owner. */
module AuthTenants {
  import opened Options
  import opened Text
  import opened Repo
  import opened AuthMachine
  import opened AuthInvariants
  import opened AuthFootprints
  import opened AuthSteps
  import opened AuthTheorems
  import opened AuthGates
  import opened AuthResults

  // ---------- What every step keeps ----------

  ghost predicate NobodyIn(t: Tables, org: OrgId) {
    && (forall u :: (org, u) !in t.memberships)
    && (forall h | h in t.invites :: t.invites[h].org != org)
  }

  /** An organisation whose signup has still to write its Owner has nobody in it, and one such signup. */
  ghost predicate OneFounder(s: State) {
    forall r, org {:trigger AtMember(s.procs[r], org)} | r in s.procs && AtMember(s.procs[r], org) ::
      NobodyIn(s.db, org) && forall q | q in s.procs && AtMember(s.procs[q], org) :: q == r
  }

  ghost predicate MakerIn(creators: map<OrgId, UserId>, m: Memberships, o: OrgId) {
    o in creators && (o, creators[o]) in m
  }

  /** Where there is a member or an invite, the maker is a member. */
  ghost predicate MakersIn(creators: map<OrgId, UserId>, m: Memberships, invites: Invites) {
    && (forall o, u | o in creators && (o, u) in m :: MakerIn(creators, m, o))
    && (forall h | h in invites && invites[h].org in creators :: MakerIn(creators, m, invites[h].org))
  }

  ghost predicate TenantInv(s: State) { OneFounder(s) && MakersIn(s.creators, s.db.memberships, s.db.invites) }

  /** What the invariant of the requests says about the counters that matter here. */
  lemma CounterFacts(s: State, rid: nat, p: Proc)
    requires Inv(s) && rid in s.procs && s.procs[rid] == p
    ensures p.Signup? && p.su.SuMember? ==>
              && p.su.org in s.creators && s.creators[p.su.org] == p.su.user
              && p.su.org in s.issued && p.su.org in s.db.orgs && p.su.user in s.db.users
    ensures p.Accept? && p.ac.AcMember? ==>
              && (exists h :: h in s.db.invites && s.db.invites[h].org == p.ac.inv.org)
              && p.ac.inv.role != Owner && p.ac.inv.org in s.db.orgs && p.ac.user in s.db.users
    ensures p.NewInvite? && p.ic.IcStore? ==>
              && (p.ic.sess.org, p.ic.sess.user) in s.db.memberships
              && (p.ic.sess.org in s.creators ==> s.creators[p.ic.sess.org] == p.ic.sess.user)
    ensures !(p.Callback? && p.cb.CbEnsure?)
  {
    hide TenantOk;
    hide CreatorsOk;
    hide LinksOk;
    hide PendingOk;
    hide SessionsOk;
    assert ProcInv(s, p);
    if p.Accept? && p.ac.AcMember? {
      assert s.db.invites[p.ac.hash].org == p.ac.inv.org;
    }
  }

  lemma NewOrgFacts(s: State, newId: nat)
    requires Inv(s) && newId !in s.issued
    ensures NobodyIn(s.db, newId) && newId !in s.creators
    ensures forall r | r in s.procs :: !AtMember(s.procs[r], newId)
  {
    NewOrgIsEmpty(s, newId);
    forall r | r in s.procs ensures !AtMember(s.procs[r], newId) {
      hide Inv;
      CounterFacts(s, r, s.procs[r]);
    }
  }

  lemma MakerStays(s: State, t: State, o: OrgId)
    requires Grows(s, t) && MakerIn(s.creators, s.db.memberships, o)
    ensures MakerIn(t.creators, t.db.memberships, o)
  {
    hide UsersGrow;
    hide InvitesGrow;
    hide SessionsGrow;
    hide HistoryGrows;
  }

  lemma NewMakers(s: State, t: State, p: Proc, o: Oracle, org: OrgId)
    requires CreatorsTouched(s, t, p, o) && org in t.creators && org !in s.creators
    ensures p.Signup? && p.su.SuOrg? && org == o.newId
  {
  }

  lemma MemberHasMaker(s: State, t: State, rid: nat, p: Proc, o: Oracle, org: OrgId, u: UserId)
    requires Inv(s) && rid in s.procs && s.procs[rid] == p && o.newId !in s.issued && Grows(s, t)
    requires Touches(s, t, rid, p, o) && MakersIn(s.creators, s.db.memberships, s.db.invites)
    requires org in t.creators && (org, u) in t.db.memberships
    ensures MakerIn(t.creators, t.db.memberships, org)
  {
    CounterFacts(s, rid, p);
    NewOrgFacts(s, o.newId);
    hide Inv;
    hide Grows;
    if org !in s.creators {
      NewMakers(s, t, p, o, org);
    } else if MakerIn(s.creators, s.db.memberships, org) {
      MakerStays(s, t, org);
    } else {
      hide CreatorsTouched;
      assert p.Signup? && p.su.SuMember? && p.su.org == org;
      FounderIsMaker(s, t, p, o);
    }
  }

  lemma FounderIsMaker(s: State, t: State, p: Proc, o: Oracle)
    requires p.Signup? && p.su.SuMember? && CreatorsTouched(s, t, p, o) && MembersTouched(s, t, p, o)
    requires p.su.org in s.creators && s.creators[p.su.org] == p.su.user
    requires t.db.memberships != s.db.memberships
    ensures MakerIn(t.creators, t.db.memberships, p.su.org)
  {
  }

  lemma InviteHasMaker(s: State, t: State, rid: nat, p: Proc, o: Oracle, h: string)
    requires Inv(s) && rid in s.procs && s.procs[rid] == p && o.newId !in s.issued && Grows(s, t)
    requires Touches(s, t, rid, p, o) && MakersIn(s.creators, s.db.memberships, s.db.invites)
    requires h in t.db.invites && t.db.invites[h].org in t.creators
    ensures MakerIn(t.creators, t.db.memberships, t.db.invites[h].org)
  {
    CounterFacts(s, rid, p);
    NewOrgFacts(s, o.newId);
    hide Inv;
    hide Grows;
    hide MembersTouched;
    var org := t.db.invites[h].org;
    if org !in s.creators {
      NewMakers(s, t, p, o, org);
    } else {
      hide CreatorsTouched;
      assert MakerIn(s.creators, s.db.memberships, org);
      MakerStays(s, t, org);
    }
  }

  lemma MakersStay(s: State, t: State, rid: nat, p: Proc, o: Oracle)
    requires Inv(s) && rid in s.procs && s.procs[rid] == p && o.newId !in s.issued && Grows(s, t)
    requires Touches(s, t, rid, p, o) && MakersIn(s.creators, s.db.memberships, s.db.invites)
    ensures MakersIn(t.creators, t.db.memberships, t.db.invites)
  {
    hide Inv;
    hide Grows;
    hide Touches;
    hide MakerIn;
    forall org, u | org in t.creators && (org, u) in t.db.memberships
      ensures MakerIn(t.creators, t.db.memberships, org)
    {
      MemberHasMaker(s, t, rid, p, o, org, u);
    }
    forall h | h in t.db.invites && t.db.invites[h].org in t.creators
      ensures MakerIn(t.creators, t.db.memberships, t.db.invites[h].org)
    {
      InviteHasMaker(s, t, rid, p, o, h);
    }
  }

  lemma NobodyStays(s: State, t: State, rid: nat, p: Proc, o: Oracle, org: OrgId)
    requires Inv(s) && rid in s.procs && s.procs[rid] == p
    requires Touches(s, t, rid, p, o) && NobodyIn(s.db, org) && !AtMember(p, org)
    ensures NobodyIn(t.db, org)
  {
    CounterFacts(s, rid, p);
    hide Inv;
    hide LinksTouched;
    hide TokensTouched;
    hide CreatorsTouched;
    hide MemberEntered;
  }

  lemma FounderEntered(s: State, t: State, rid: nat, p: Proc, o: Oracle, org: OrgId)
    requires Inv(s) && rid in s.procs && s.procs[rid] == p && o.newId !in s.issued && rid in t.procs
    requires Touches(s, t, rid, p, o) && AtMember(t.procs[rid], org)
    ensures NobodyIn(t.db, org) && org == o.newId && forall r | r in s.procs :: !AtMember(s.procs[r], org)
  {
    hide Inv;
    hide TablesTouched;
    assert org == o.newId;
    NewOrgFacts(s, o.newId);
    assert NobodyIn(t.db, org) by {
      hide Touches;
      NobodyStays(s, t, rid, p, o, org);
    }
  }

  lemma FoundersStay(s: State, t: State, rid: nat, p: Proc, o: Oracle)
    requires Inv(s) && rid in s.procs && s.procs[rid] == p && o.newId !in s.issued
    requires rid in t.procs && t.procs == s.procs[rid := t.procs[rid]]
    requires Touches(s, t, rid, p, o) && OneFounder(s)
    ensures OneFounder(t)
  {
    hide Inv;
    hide Touches;
    hide NobodyIn;
    hide AtMember;
    forall r, org | r in t.procs && AtMember(t.procs[r], org)
      ensures NobodyIn(t.db, org) && forall q | q in t.procs && AtMember(t.procs[q], org) :: q == r
    {
      if AtMember(t.procs[rid], org) {
        FounderEntered(s, t, rid, p, o, org);
        assert forall q | q in t.procs && q != rid :: t.procs[q] == s.procs[q];
      } else {
        assert AtMember(s.procs[r], org);
        NobodyStays(s, t, rid, p, o, org);
        assert forall q | q in t.procs && AtMember(t.procs[q], org) :: AtMember(s.procs[q], org);
      }
    }
  }

  lemma NextKeepsTenants(s: State, a: Action)
    requires Inv(s) && TenantInv(s) && Enabled(s, a)
    ensures TenantInv(Next(s, a))
  {
    hide TablesInv;
    hide ProcInv;
    hide Grows;
    hide AdvanceProc;
    hide OneFounder;
    hide MakersIn;
    hide Touches;
    if a.Advance? {
      AdvanceTouches(s, a.rid, a.o);
      AdvanceKeeps(s, a.rid, a.o);
      FoundersStay(s, Next(s, a), a.rid, s.procs[a.rid], a.o);
      MakersStay(s, Next(s, a), a.rid, s.procs[a.rid], a.o);
    } else {
      OthersTouchNothing(s, a);
      FoundersIgnore(s, Next(s, a));
    }
  }

  lemma OthersTouchNothing(s: State, a: Action)
    requires Enabled(s, a) && !a.Advance?
    ensures var t := Next(s, a);
            && t.creators == s.creators && t.db.memberships == s.db.memberships && t.db.invites == s.db.invites
            && (forall r | r in t.procs && t.procs[r].Signup? && t.procs[r].su.SuMember? ::
                  r in s.procs && t.procs[r] == s.procs[r])
  {
    hide Norm;
    hide Slug.IsValidSlug;
  }

  lemma FoundersIgnore(s: State, t: State)
    requires OneFounder(s) && t.db.memberships == s.db.memberships && t.db.invites == s.db.invites
    requires forall r | r in t.procs && t.procs[r].Signup? && t.procs[r].su.SuMember? ::
               r in s.procs && t.procs[r] == s.procs[r]
    ensures OneFounder(t)
  {
    forall r, org | r in t.procs && AtMember(t.procs[r], org)
      ensures NobodyIn(t.db, org) && forall q | q in t.procs && AtMember(t.procs[q], org) :: q == r
    {
      assert AtMember(s.procs[r], org);
      forall q | q in t.procs && AtMember(t.procs[q], org) ensures q == r {
        assert AtMember(s.procs[q], org);
      }
    }
  }

  lemma {:induction false} TenantsAlong(s: State, run: seq<Action>, i: nat)
    requires RunFrom(s, run) && i <= |run|
    ensures TenantInv(At(s, run, i))
  {
    hide Inv;
    hide Grows;
    hide Next;
    hide Enabled;
    if i == 0 {
      assert run[..0] == [];
    } else {
      hide At;
      hide TenantInv;
      TenantsAlong(s, run, i - 1);
      StepAlong(s, run, i - 1);
      GrowsAlong(s, run, i - 1, i - 1);
      NextKeepsTenants(At(s, run, i - 1), run[i - 1]);
    }
  }

  // ---------- Who is in, and as what ----------

  /** This action writes the Owner of a new organisation. */
  predicate FoundsAt(t: State, a: Action, org: OrgId) {
    a.Advance? && a.rid in t.procs && Founds(t.procs[a.rid], a.o, org)
  }

  /** This action joins `user` to the organisation by an invite. */
  predicate JoinsAt(t: State, a: Action, org: OrgId, user: UserId) {
    a.Advance? && a.rid in t.procs && Joins(t.procs[a.rid], a.o, org, user)
  }

  ghost predicate HasMember(s: State, org: OrgId) { exists u :: (org, u) in s.db.memberships }

  /** The maker is a member, but no Owner. */
  ghost predicate Lowered(s: State, org: OrgId) {
    MakerIn(s.creators, s.db.memberships, org) && s.db.memberships[(org, s.creators[org])] != Owner
  }

  /** A step changes memberships by founding or joining only. */
  lemma MembersChange(s: State, a: Action)
    requires Inv(s) && Enabled(s, a)
    ensures var t := Next(s, a);
            || t.db.memberships == s.db.memberships
            || (a.Advance? && s.procs[a.rid].Signup? && s.procs[a.rid].su.SuMember? &&
                var pc := s.procs[a.rid].su;
                FoundsAt(s, a, pc.org) && t.db.memberships == s.db.memberships[(pc.org, pc.user) := Owner])
            || (a.Advance? && s.procs[a.rid].Accept? && s.procs[a.rid].ac.AcMember? &&
                var pc := s.procs[a.rid].ac;
                JoinsAt(s, a, pc.inv.org, pc.user) &&
                t.db.memberships == s.db.memberships[(pc.inv.org, pc.user) := pc.inv.role])
  {
    hide Inv;
    hide AdvanceProc;
    hide CreatorsTouched;
    hide InvitesTouched;
    hide LinksTouched;
    hide TokensTouched;
    hide MemberEntered;
    if a.Advance? {
      AdvanceTouches(s, a.rid, a.o);
      CounterFacts(s, a.rid, s.procs[a.rid]);
    } else {
      OthersTouchNothing(s, a);
    }
  }

  /** A new organisation has no member yet. */
  lemma NewOrgHasNone(s: State, a: Action, org: OrgId)
    requires Inv(s) && Enabled(s, a) && org in Next(s, a).creators && org !in s.creators
    ensures !HasMember(Next(s, a), org)
  {
    hide Inv;
    hide AdvanceProc;
    if a.Advance? {
      AdvanceTouches(s, a.rid, a.o);
      NewOrgFacts(s, a.o.newId);
      hide InvitesTouched;
      hide LinksTouched;
      hide TokensTouched;
      hide MemberEntered;
    } else {
      OthersTouchNothing(s, a);
    }
  }

  /** A step before which there is no member, and after which there is one, founds the organisation. */
  lemma FirstMember(s: State, a: Action, org: OrgId)
    requires Inv(s) && TenantInv(s) && Enabled(s, a) && org in s.creators
    requires HasMember(Next(s, a), org)
    ensures HasMember(s, org) || FoundsAt(s, a, org)
  {
    MembersChange(s, a);
    if a.Advance? {
      CounterFacts(s, a.rid, s.procs[a.rid]);
    }
    hide Inv;
    hide Next;
    hide OneFounder;
    var u :| (org, u) in Next(s, a).db.memberships;
    if (org, u) !in s.db.memberships && !FoundsAt(s, a, org) {
      var h :| h in s.db.invites && s.db.invites[h].org == org;
      assert MakerIn(s.creators, s.db.memberships, org);
      assert (org, s.creators[org]) in s.db.memberships;
    }
  }

  lemma WriteKeepsEffect(s: State, rid: nat, o: Oracle, t: Option<State>, next: Proc)
    requires t.Some? && o.call != Failed
    ensures Write(s, rid, o, t, next).db == t.value.db && Write(s, rid, o, t, next).creators == t.value.creators
  {
  }

  /** The writing step of a signup makes its user a member. */
  lemma FoundsWrites(s: State, a: Action, org: OrgId)
    requires Inv(s) && Enabled(s, a) && FoundsAt(s, a, org)
    ensures HasMember(Next(s, a), org)
  {
    CounterFacts(s, a.rid, s.procs[a.rid]);
    hide Inv;
    hide Write;
    var pc := s.procs[a.rid].su;
    var t := OnTables(s, EnsureMembership(s.db, org, pc.user, Owner));
    WriteKeepsEffect(s, a.rid, a.o, t, Signup(SuSession(pc.req, pc.user, org)));
    assert (org, pc.user) in Next(s, a).db.memberships;
  }

  lemma AcceptJoins(s: State, rid: nat, o: Oracle, pc: AcceptPc)
    requires pc.AcMember? && o.call != Failed && pc.inv.org in s.db.orgs && pc.user in s.db.users
    ensures var t := AdvanceAccept(s, rid, pc, o);
            && t.db.memberships == s.db.memberships[(pc.inv.org, pc.user) := pc.inv.role]
            && t.creators == s.creators
  {
    hide Write;
    hide UseInvite;
    hide UpsertUser;
    hide UserByEmail;
    hide ToLower;
    var t := OnTables(s, EnsureMembership(s.db, pc.inv.org, pc.user, pc.inv.role));
    WriteKeepsEffect(s, rid, o, t, Accept(AcUse(pc.hash, pc.inv, pc.user)));
  }

  lemma AcceptSteps(s: State, a: Action)
    requires Enabled(s, a) && a.Advance? && s.procs[a.rid].Accept?
    ensures Next(s, a) == AdvanceAccept(s, a.rid, s.procs[a.rid].ac, a.o)
  {
    hide AdvanceAccept;
  }

  lemma JoinsWrites(s: State, a: Action, org: OrgId, user: UserId)
    requires Inv(s) && Enabled(s, a) && JoinsAt(s, a, org, user)
    ensures var t := Next(s, a);
            (org, user) in t.db.memberships && t.db.memberships[(org, user)] != Owner && t.creators == s.creators
    ensures org in s.db.orgs
  {
    CounterFacts(s, a.rid, s.procs[a.rid]);
    hide Inv;
    hide AdvanceAccept;
    AcceptSteps(s, a);
    hide Next;
    AcceptJoins(s, a.rid, a.o, s.procs[a.rid].ac);
  }

  lemma CreatorsKept(s: State, t: State, org: OrgId)
    requires Grows(s, t) && org in t.creators && org in s.db.orgs
    ensures org in s.creators && s.creators[org] == t.creators[org]
  {
  }

  lemma CreatorsStay(s: State, t: State, org: OrgId)
    requires Grows(s, t) && org in s.creators
    ensures org in t.creators && t.creators[org] == s.creators[org]
  {
  }

  lemma MadersHaveRows(s: State)
    requires Inv(s)
    ensures forall o | o in s.creators :: o in s.db.orgs
  {
    hide ProcInv;
  }

  /** A maker that is not lowered becomes so only by joining. */
  lemma LoweredByJoining(s: State, a: Action, org: OrgId)
    requires Inv(s) && Enabled(s, a) && Lowered(Next(s, a), org)
    ensures Lowered(s, org) || JoinsAt(s, a, org, Next(s, a).creators[org])
  {
    MembersChange(s, a);
    NextKeepsInv(s, a);
    if org !in s.creators {
      NewOrgHasNone(s, a, org);
    } else {
      CreatorsStay(s, Next(s, a), org);
      hide Inv;
      hide Next;
    }
  }

  lemma LoweredKept(s: State, t: State, org: OrgId, k: (OrgId, UserId), role: Role)
    requires Lowered(s, org) && org in t.creators && t.creators[org] == s.creators[org]
    requires t.db.memberships == s.db.memberships ||
             (t.db.memberships == s.db.memberships[k := role] && (k.0 == org ==> role != Owner))
    ensures Lowered(t, org)
  {
  }

  /** Once lowered, always lowered: no Owner is written any more, and no invite carries that role. */
  lemma LoweredStays(s: State, a: Action, org: OrgId)
    requires Inv(s) && TenantInv(s) && Enabled(s, a) && Lowered(s, org)
    ensures Lowered(Next(s, a), org)
  {
    MembersChange(s, a);
    NextKeepsInv(s, a);
    CreatorsStay(s, Next(s, a), org);
    assert HasMember(s, org) by { assert (org, s.creators[org]) in s.db.memberships; }
    FoundedOnce(s, a, org);
    hide Next;
    hide TenantInv;
    hide Grows;
    hide Lowered;
    if a.Advance? {
      CounterFacts(s, a.rid, s.procs[a.rid]);
    }
    hide Inv;
    if a.Advance? && s.procs[a.rid].Accept? && s.procs[a.rid].ac.AcMember? {
      var pc := s.procs[a.rid].ac;
      LoweredKept(s, Next(s, a), org, (pc.inv.org, pc.user), pc.inv.role);
    } else if a.Advance? && s.procs[a.rid].Signup? && s.procs[a.rid].su.SuMember? {
      var pc := s.procs[a.rid].su;
      LoweredKept(s, Next(s, a), org, (pc.org, pc.user), Owner);
    } else {
      LoweredKept(s, Next(s, a), org, (org, 0), Member);
    }
  }

  lemma FoundedOnce(s: State, a: Action, org: OrgId)
    requires TenantInv(s) && HasMember(s, org)
    ensures !FoundsAt(s, a, org)
  {
    hide MakersIn;
  }

  // ---------- Whole runs ----------

  ghost predicate FoundedIn(s: State, run: seq<Action>, org: OrgId)
    requires RunFrom(s, run)
  {
    exists i | 0 <= i < |run| :: FoundsAt(At(s, run, i), run[i], org)
  }

  ghost predicate JoinedIn(s: State, run: seq<Action>, org: OrgId, user: UserId)
    requires RunFrom(s, run)
  {
    exists i | 0 <= i < |run| :: JoinsAt(At(s, run, i), run[i], org, user)
  }

  lemma AtStart(s: State, run: seq<Action>)
    requires RunFrom(s, run)
    ensures At(s, run, 0) == s
  {
    assert run[..0] == [];
  }

  /** What is known of every instant of a run. */
  lemma {:induction false} KnownAt(s: State, run: seq<Action>, i: nat)
    requires RunFrom(s, run) && i <= |run|
    ensures Inv(At(s, run, i)) && TenantInv(At(s, run, i)) && Grows(At(s, run, i), Execute(s, run))
  {
    hide Inv;
    hide TenantInv;
    hide Grows;
    GrowsAlong(s, run, i, |run|);
    AtEnd(s, run);
    TenantsAlong(s, run, i);
  }

  lemma {:induction false} LoweredOnlyByJoining(s: State, run: seq<Action>, n: nat, org: OrgId) returns (i: nat)
    requires RunFrom(s, run) && n <= |run| && Lowered(At(s, run, n), org)
    requires org in Execute(s, run).creators
    ensures i < n && JoinsAt(At(s, run, i), run[i], org, Execute(s, run).creators[org])
    decreases n
  {
    hide Inv;
    hide TenantInv;
    hide Grows;
    hide Next;
    hide Enabled;
    hide JoinsAt;
    hide At;
    AtStart(s, run);
    KnownAt(s, run, n);
    CreatorsStay(At(s, run, n), Execute(s, run), org);
    KnownAt(s, run, n - 1);
    StepAlong(s, run, n - 1);
    LoweredByJoining(At(s, run, n - 1), run[n - 1], org);
    if Lowered(At(s, run, n - 1), org) {
      i := LoweredOnlyByJoining(s, run, n - 1, org);
    } else {
      i := n - 1;
    }
  }

  lemma {:induction false} LoweredAlong(s: State, run: seq<Action>, i: nat, n: nat, org: OrgId)
    requires RunFrom(s, run) && i <= n <= |run| && Lowered(At(s, run, i), org)
    ensures Lowered(At(s, run, n), org)
    decreases n
  {
    hide Inv;
    hide TenantInv;
    hide Grows;
    hide Next;
    hide Enabled;
    hide Lowered;
    hide At;
    if i < n {
      LoweredAlong(s, run, i, n - 1, org);
      KnownAt(s, run, n - 1);
      StepAlong(s, run, n - 1);
      LoweredStays(At(s, run, n - 1), run[n - 1], org);
    }
  }

  lemma {:induction false} JoiningLowers(s: State, run: seq<Action>, i: nat, org: OrgId)
    requires RunFrom(s, run) && i < |run| && org in Execute(s, run).creators
    requires JoinsAt(At(s, run, i), run[i], org, Execute(s, run).creators[org])
    ensures Lowered(Execute(s, run), org)
  {
    hide Inv;
    hide TenantInv;
    hide Grows;
    hide Next;
    hide Enabled;
    hide JoinsAt;
    hide At;
    KnownAt(s, run, i);
    StepAlong(s, run, i);
    JoinsWrites(At(s, run, i), run[i], org, Execute(s, run).creators[org]);
    CreatorsKept(At(s, run, i), Execute(s, run), org);
    LoweredAlong(s, run, i + 1, |run|, org);
    AtEnd(s, run);
  }

  lemma {:induction false} FoundedBefore(s: State, run: seq<Action>, n: nat, org: OrgId) returns (i: nat)
    requires RunFrom(s, run) && n <= |run|
    requires org in At(s, run, n).creators && HasMember(At(s, run, n), org)
    ensures i < n && FoundsAt(At(s, run, i), run[i], org)
    decreases n
  {
    hide Inv;
    hide TenantInv;
    hide Grows;
    hide Next;
    hide Enabled;
    hide HasMember;
    hide FoundsAt;
    hide At;
    AtStart(s, run);
    KnownAt(s, run, n - 1);
    StepAlong(s, run, n - 1);
    var t := At(s, run, n - 1);
    if org !in t.creators {
      NewOrgHasNone(t, run[n - 1], org);
    }
    FirstMember(t, run[n - 1], org);
    if HasMember(t, org) {
      i := FoundedBefore(s, run, n - 1, org);
    } else {
      i := n - 1;
    }
  }

  /**
   An organisation made by a signup has members exactly if the signup wrote its Owner: where that write failed,
   nobody ever gets in.
   */
  lemma {:induction false} MembersIff(s: State, run: seq<Action>, org: OrgId)
    requires RunFrom(s, run) && org in Execute(s, run).creators
    ensures HasMember(Execute(s, run), org) <==> FoundedIn(s, run, org)
  {
    hide Inv;
    hide TenantInv;
    hide Grows;
    hide Next;
    hide Enabled;
    hide FoundsAt;
    hide At;
    AtEnd(s, run);
    if HasMember(Execute(s, run), org) {
      var i := FoundedBefore(s, run, |run|, org);
    }
    if FoundedIn(s, run, org) {
      var i :| 0 <= i < |run| && FoundsAt(At(s, run, i), run[i], org);
      KnownAt(s, run, i);
      KnownAt(s, run, i + 1);
      StepAlong(s, run, i);
      FoundsWrites(At(s, run, i), run[i], org);
      MembersStay(At(s, run, i + 1), Execute(s, run), org);
    }
  }

  lemma MembersStay(s: State, t: State, org: OrgId)
    requires Grows(s, t) && HasMember(s, org)
    ensures HasMember(t, org)
  {
    var u :| (org, u) in s.db.memberships;
    assert (org, u) in t.db.memberships;
  }

  ghost predicate HasOwner(s: State, org: OrgId) {
    exists u :: (org, u) in s.db.memberships && s.db.memberships[(org, u)] == Owner
  }

  /** In such an organisation the maker is a member as soon as anyone is, and nobody else is ever an Owner. */
  lemma OwnerIsMaker(t: State, org: OrgId)
    requires Inv(t) && TenantInv(t) && org in t.creators
    ensures HasOwner(t, org) <==> HasMember(t, org) && !Lowered(t, org)
  {
    hide ProcInv;
    hide OneFounder;
    if HasMember(t, org) {
      var u :| (org, u) in t.db.memberships;
      assert MakerIn(t.creators, t.db.memberships, org);
    }
    if HasOwner(t, org) {
      var u :| (org, u) in t.db.memberships && t.db.memberships[(org, u)] == Owner;
      assert u == t.creators[org];
    }
  }

  /**
   An organisation made by a signup has an Owner exactly if the signup wrote it and the maker never took up an
   invite to its own organisation.
   */
  lemma {:induction false} OwnerIff(s: State, run: seq<Action>, org: OrgId)
    requires RunFrom(s, run) && org in Execute(s, run).creators
    ensures HasOwner(Execute(s, run), org)
       <==> FoundedIn(s, run, org) && !JoinedIn(s, run, org, Execute(s, run).creators[org])
  {
    hide Inv;
    hide TenantInv;
    hide Grows;
    hide HasOwner;
    hide HasMember;
    hide Lowered;
    hide FoundedIn;
    hide JoinsAt;
    hide At;
    KnownAt(s, run, |run|);
    AtEnd(s, run);
    OwnerIsMaker(Execute(s, run), org);
    MembersIff(s, run, org);
    if Lowered(Execute(s, run), org) {
      var i := LoweredOnlyByJoining(s, run, |run|, org);
    }
    if JoinedIn(s, run, org, Execute(s, run).creators[org]) {
      var i :| 0 <= i < |run| && JoinsAt(At(s, run, i), run[i], org, Execute(s, run).creators[org]);
      JoiningLowers(s, run, i, org);
    }
  }
}
