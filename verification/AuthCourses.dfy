/** Which requests are answered well, exactly, and what a callback, a token and a session come to. */
module AuthCourses {
  import opened Options
  import opened Text
  import opened Repo
  import opened Sessions
  import opened AuthMachine
  import opened AuthInvariants
  import opened AuthFootprints
  import opened AuthSteps
  import opened AuthFlow
  import opened AuthRuns
  import opened AuthTheorems
  import opened AuthOutcomes
  import opened AuthGates
  import opened AuthResults
  import opened AuthTenants
  import opened AuthOrigins
  import opened AuthAccepts

  // ---------- Answered well, exactly ----------

  /** The body of the request is turned down before any call. */
  predicate StartRefuses(a: Action) {
    match a
    case StartSignup(_, email, _, _, slug) => Norm(email) == "" || !Slug.PlainSlug(Norm(slug))
    case StartLogin(_, username) => Norm(username) == ""
    case _ => false
  }

  lemma StartIff(s: State, a: Action)
    requires Enabled(s, a) && Made(a).Some?
    ensures a.rid in Next(s, a).procs
    ensures if StartRefuses(a) then Next(s, a).procs[a.rid] == Done(false) else Working(Next(s, a), a.rid)
  {
    hide Norm;
    hide Slug.IsValidSlug;
    hide Slug.PlainSlug;
    if a.StartSignup? {
      Slug.SlugMeaning(Norm(a.slug));
      BlankIsNoSlug();
    }
  }

  lemma BlankIsNoSlug()
    ensures !Slug.PlainSlug("")
  {
  }

  /** This action is a step of the request, and refuses it. */
  ghost predicate RefusedAt(t: State, a: Action, rid: nat) {
    a.Advance? && a.rid == rid && rid in t.procs && Refuses(t, t.procs[rid], a.o)
  }

  predicate Unrefused(s: State, rid: nat) { rid in s.procs && s.procs[rid] != Done(false) }

  lemma RefusalEnds(s: State, a: Action, rid: nat)
    requires Inv(s) && Enabled(s, a) && RefusedAt(s, a, rid)
    ensures rid in Next(s, a).procs && Next(s, a).procs[rid] == Done(false)
  {
    hide Inv;
    hide Refuses;
    hide AdvanceProc;
    StepFlows(s, rid, a.o);
  }

  lemma StaysUnrefused(s: State, a: Action, rid: nat)
    requires Inv(s) && Enabled(s, a) && Unrefused(s, rid) && !RefusedAt(s, a, rid)
    ensures Unrefused(Next(s, a), rid)
  {
    hide Inv;
    hide Refuses;
    hide Onward;
    hide Rank;
    hide AdvanceProc;
    if a.Advance? && a.rid == rid {
      StepFlows(s, rid, a.o);
    } else {
      StandsStill(s, a, rid);
    }
  }

  lemma {:induction false} UnrefusedAlong(s: State, run: seq<Action>, i: nat, n: nat, rid: nat)
    requires RunFrom(s, run) && i <= n <= |run| && Unrefused(At(s, run, i), rid)
    requires forall j | i <= j < n :: !RefusedAt(At(s, run, j), run[j], rid)
    ensures Unrefused(At(s, run, n), rid)
    decreases n
  {
    hide Inv;
    hide TenantInv;
    hide Grows;
    hide Next;
    hide Enabled;
    hide RefusedAt;
    hide Unrefused;
    hide At;
    if i < n {
      UnrefusedAlong(s, run, i, n - 1, rid);
      KnownAt(s, run, n - 1);
      StepAlong(s, run, n - 1);
      StaysUnrefused(At(s, run, n - 1), run[n - 1], rid);
    }
  }

  /**
   A request that was answered is answered well exactly if its body was not turned down and none of its steps
   met what that step refuses: whatever else ran beside it.
   */
  lemma {:induction false} SucceededIff(s: State, run: seq<Action>, k: nat)
    requires RunFrom(s, run) && k < |run| && Made(run[k]).Some?
    requires run[k].rid in Execute(s, run).procs && Execute(s, run).procs[run[k].rid].Done?
    ensures Succeeded(Execute(s, run), run[k].rid)
       <==> !StartRefuses(run[k]) && forall i | k < i < |run| :: !RefusedAt(At(s, run, i), run[i], run[k].rid)
  {
    hide Inv;
    hide TenantInv;
    hide Grows;
    hide Next;
    hide Enabled;
    hide StartRefuses;
    hide RefusedAt;
    hide At;
    var rid := run[k].rid;
    StepAlong(s, run, k);
    AtEnd(s, run);
    StartIff(At(s, run, k), run[k]);
    if StartRefuses(run[k]) {
      RefusedAtEnd(s, run, k + 1, rid);
    } else if i :| k < i < |run| && RefusedAt(At(s, run, i), run[i], rid) {
      KnownAt(s, run, i);
      StepAlong(s, run, i);
      RefusalEnds(At(s, run, i), run[i], rid);
      RefusedAtEnd(s, run, i + 1, rid);
    } else {
      UnrefusedAlong(s, run, k + 1, |run|, rid);
    }
  }

  // ---------- Linking ----------

  /** Nobody is told to have linked an identity that was someone else's before, unless that lookup failed. */
  lemma LinkedElsewhere(s: State, run: seq<Action>, k: nat) returns (i: nat)
    requires SucceededIn(s, run, k) && run[k].StartLink?
    requires var t := Execute(s, run); var login := Norm(run[k].email);
             run[k].token in t.asserted && login in t.db.creds ==>
               var c := t.asserted[run[k].token]; var known := At(s, run, k).db.identities;
               (c.provider, c.subject) in known && known[(c.provider, c.subject)] != t.db.creds[login]
    ensures k < i < |run| && run[i].Advance? && run[i].rid == run[k].rid && run[i].o.call != Fine
    ensures var t := At(s, run, i);
            run[i].rid in t.procs && t.procs[run[i].rid].Link? && t.procs[run[i].rid].ln.LnCheck?
  {
    hide Inv;
    hide TenantInv;
    hide Grows;
    hide Next;
    hide Enabled;
    hide PassesAt;
    hide LinkUser;
    hide At;
    hide Norm;
    i := NoSuccessWithoutChecks(s, run, k, NotElsewhere);
    CheckShape(At(s, run, i), run[i], run[k].rid);
    KnownAt(s, run, i);
    GrowsAlong(s, run, k, i);
    CheckFacts(At(s, run, i), run[k].rid);
    var pc := At(s, run, i).procs[run[k].rid].ln;
    LinkStays(At(s, run, i), Execute(s, run), pc.req, pc.link, pc.user);
    TokenFits(Execute(s, run), pc.req, pc.link, pc.user);
    var key := (pc.link.provider, pc.link.subject);
    if key in At(s, run, k).db.identities {
      LinkKept(At(s, run, k), At(s, run, i), key);
    }
  }

  lemma CheckShape(t: State, a: Action, rid: nat)
    requires PassesAt(t, a, rid, NotElsewhere)
    ensures rid in t.procs && t.procs[rid].Link? && t.procs[rid].ln.LnCheck? && a.Advance? && a.rid == rid
    ensures RequestOf(t.procs[rid]) == Some(LinkOf(t.procs[rid].ln.req))
    ensures var pc := t.procs[rid].ln; var k := (pc.link.provider, pc.link.subject);
            k in t.db.identities && t.db.identities[k] != pc.user ==> a.o.call != Fine
  {
    hide IsPick;
  }

  lemma CheckFacts(t: State, rid: nat)
    requires Inv(t) && rid in t.procs && t.procs[rid].Link? && t.procs[rid].ln.LnCheck?
    ensures LinkUser(t, t.procs[rid].ln.req, t.procs[rid].ln.link, t.procs[rid].ln.user)
  {
    hide TablesInv;
    assert ProcInv(t, t.procs[rid]);
  }

  /** A token links once: a request that starts after a successful one with the same token is refused. */
  lemma {:induction false} TokenLinksOnce(s: State, run: seq<Action>, k: nat, l: nat)
    requires RunFrom(s, run) && k < l < |run| && run[k].StartLink? && run[l].StartLink?
    requires run[l].token == run[k].token && Succeeded(At(s, run, l), run[k].rid)
    ensures !Succeeded(Execute(s, run), run[l].rid)
  {
    hide Inv;
    hide TenantInv;
    hide Grows;
    hide PassesAt;
    hide Outcome;
    hide Norm;
    hide ValidRun;
    hide Execute;
    RunSplit(s, run, l);
    assert run[..l][k] == run[k];
    var user, org := OutcomeIn(s, run[..l], k);
    OutcomeSpends(Execute(s, run[..l]), LinkReq(run[k].token, Norm(run[k].email)), user, org);
    if Succeeded(Execute(s, run), run[l].rid) {
      var i := NoSuccessWithoutChecks(s, run, l, KeptToken);
      GrowsAlong(s, run, l, i);
      KeptShape(At(s, run, i), run[i], run[l].rid, LinkReq(run[l].token, Norm(run[l].email)));
      SpentStays(At(s, run, l), At(s, run, i), run[k].token);
    }
  }

  lemma OutcomeSpends(t: State, req: LinkReq, user: UserId, org: OrgId)
    requires Outcome(t, LinkOf(req), user, org)
    ensures Spent(t, req.token)
  {
    hide Norm;
  }

  lemma SpentStays(s: State, t: State, token: nat)
    requires Grows(s, t) && Spent(s, token)
    ensures Spent(t, token)
  {
  }

  lemma KeptShape(t: State, a: Action, rid: nat, req: LinkReq)
    requires PassesAt(t, a, rid, KeptToken) && RequestOf(t.procs[rid]) == Some(LinkOf(req))
    ensures req.token in t.pending
  {
    hide IsPick;
  }

  // ---------- Sessions ----------

  /** This action opens the session `sid`. */
  ghost predicate OpensAt(t: State, u: State, sid: nat) { sid !in t.sessions && sid in u.sessions }

  lemma StepOpens(s: State, a: Action, sid: nat)
    requires Enabled(s, a) && sid in Next(s, a).sessions
    ensures if OpensAt(s, Next(s, a), sid) then Next(s, a).sessions[sid].expiry == Some(s.clock + 28_800)
            else sid in s.sessions && (Next(s, a).sessions[sid] == s.sessions[sid] || (a.Advance? && a.o.newId == sid))
  {
    hide AdvanceProc;
    hide Norm;
    hide Slug.IsValidSlug;
    if a.Advance? {
      AdvanceTouches(s, a.rid, a.o);
      hide MembersTouched;
      hide InvitesTouched;
      hide LinksTouched;
      hide TokensTouched;
      hide CreatorsTouched;
      hide MemberEntered;
    }
  }

  lemma SessionsIssued(s: State)
    requires Inv(s)
    ensures s.sessions.Keys <= s.issued
  {
    hide ProcInv;
  }

  lemma AdvanceIsNew(s: State, a: Action)
    requires Enabled(s, a) && a.Advance?
    ensures a.o.newId !in s.issued
  {
  }

  /**
   Every session there is was opened by a step of the run, and is good until 28800 seconds after that step, to
   the second, for those who invite and for every reader of the store.
   */
  lemma {:induction false} SessionLives(s: State, run: seq<Action>, n: nat, sid: nat) returns (i: nat)
    requires RunFrom(s, run) && n <= |run| && sid in At(s, run, n).sessions
    ensures i < n && OpensAt(At(s, run, i), At(s, run, i + 1), sid)
    ensures At(s, run, n).sessions[sid].expiry == Some(At(s, run, i).clock + 28_800)
    ensures LiveSession(At(s, run, n), sid) <==> At(s, run, n).clock <= At(s, run, i).clock + 28_800
    ensures forall now :: Expired(At(s, run, n).sessions[sid], now) <==> now > At(s, run, i).clock + 28_800
    decreases n
  {
    hide Inv;
    hide TenantInv;
    hide Grows;
    hide Next;
    hide Enabled;
    hide At;
    AtStart(s, run);
    KnownAt(s, run, n - 1);
    StepAlong(s, run, n - 1);
    var before, after := At(s, run, n - 1), At(s, run, n);
    StepOpens(before, run[n - 1], sid);
    SessionsIssued(before);
    if run[n - 1].Advance? {
      AdvanceIsNew(before, run[n - 1]);
    }
    if OpensAt(before, after, sid) {
      i := n - 1;
    } else {
      i := SessionLives(s, run, n - 1, sid);
    }
  }

  // ---------- Callbacks ----------

  /** The lookup of a callback's identity, in this state and with this result, finds it linked. */
  predicate Finds(t: State, a: Action, claim: Claim) {
    a.Advance? && a.o.call == Fine && Linked(t.db, claim.provider, claim.subject)
  }

  /** This step of the callback hands a token out. */
  predicate GivesAt(t: State, a: Action, rid: nat) {
    a.Advance? && a.rid == rid && rid in t.procs && t.procs[rid].Callback? && t.procs[rid].cb.CbPending?
  }

  /** This step of the callback opens a session for the user. */
  predicate OpensForAt(t: State, a: Action, rid: nat, user: UserId) {
    && a.Advance? && a.rid == rid && rid in t.procs && t.procs[rid].Callback? && t.procs[rid].cb.CbSession?
    && t.procs[rid].cb.user == user
  }

  ghost predicate GivesIn(s: State, run: seq<Action>, k: nat)
    requires RunFrom(s, run) && k < |run| && run[k].StartCallback?
  {
    exists l | k < l < |run| :: GivesAt(At(s, run, l), run[l], run[k].rid)
  }

  ghost predicate OpensForIn(s: State, run: seq<Action>, k: nat, user: UserId)
    requires RunFrom(s, run) && k < |run| && run[k].StartCallback?
  {
    exists l | k < l < |run| :: OpensForAt(At(s, run, l), run[l], run[k].rid, user)
  }

  lemma CallbackStarts(s: State, a: Action)
    requires Enabled(s, a) && a.StartCallback?
    ensures a.rid in Next(s, a).procs
    ensures Next(s, a).procs[a.rid] == Callback(CbIdentity(a.claim, Norm(a.claim.raw)))
  {
    hide Norm;
  }

  lemma CallbackSteps(s: State, a: Action)
    requires Enabled(s, a) && a.Advance? && s.procs[a.rid].Callback?
    ensures Next(s, a) == AdvanceCallback(s, a.rid, s.procs[a.rid].cb, a.o)
  {
    hide AdvanceCallback;
  }

  /** The lookup decides the way, and whose session it will be. */
  lemma AfterIdentity(s: State, a: Action, claim: Claim, email: string)
    requires Inv(s) && Enabled(s, a) && a.Advance? && s.procs[a.rid] == Callback(CbIdentity(claim, email))
    ensures var t := Next(s, a);
            && a.rid in t.procs
            && t.procs[a.rid] == if Finds(s, a, claim)
                                 then Callback(CbOrg(s.db.identities[(claim.provider, claim.subject)], true, claim))
                                 else Callback(CbEmail(claim, email))
  {
    LinkedUser(s, claim.provider, claim.subject);
    CallbackSteps(s, a);
    hide Inv;
    hide Next;
    hide UserByIdentity;
  }

  lemma AfterSecond(s: State, a: Action, p: CallbackPc)
    requires Inv(s) && Enabled(s, a) && a.Advance? && s.procs[a.rid] == Callback(p) && (p.CbEmail? || p.CbOrg?)
    ensures var t := Next(s, a);
            && a.rid in t.procs
            && if CallbackRefuses(s, p, a.o) then t.procs[a.rid] == Done(false)
               else t.procs[a.rid].Callback? &&
                    var q := t.procs[a.rid].cb;
                    if p.CbEmail? then q == CbPending(p.claim, p.email)
                    else q.CbSession? && q.user == p.user && q.claim == p.claim && q.org == a.o.org
  {
    assert ProcInv(s, s.procs[a.rid]);
    CallbackSteps(s, a);
    hide Inv;
    hide Next;
    hide IsPick;
    if p.CbEmail? {
      HolderFound(s.db.users, p.email);
      hide AddressHeld;
      hide UserByEmail;
    }
  }

  lemma {:induction false} FinalFrom(s: State, run: seq<Action>, n: nat, m: nat, rid: nat)
    requires RunFrom(s, run) && n <= m <= |run| && rid in At(s, run, n).procs && At(s, run, n).procs[rid].Done?
    ensures rid in At(s, run, m).procs && At(s, run, m).procs[rid] == At(s, run, n).procs[rid]
    decreases m
  {
    hide Inv;
    hide TenantInv;
    hide Grows;
    hide Next;
    hide Enabled;
    hide At;
    if n < m {
      FinalFrom(s, run, n, m - 1, rid);
      KnownAt(s, run, m - 1);
      StepAlong(s, run, m - 1);
      AnswerStays(At(s, run, m - 1), run[m - 1], rid);
    }
  }

  /** Once the answer is due, the next step gives it, and nothing comes after. */
  lemma LastStep(s: State, run: seq<Action>, n: nat, rid: nat) returns (l: nat)
    requires RunFrom(s, run) && n <= |run| && Working(At(s, run, n), rid) && Final(At(s, run, n).procs[rid])
    requires !Working(Execute(s, run), rid) && At(s, run, n).procs[rid].Callback?
    ensures n <= l < |run| && run[l].Advance? && run[l].rid == rid && Succeeded(Execute(s, run), rid)
    ensures forall m | n <= m <= l :: rid in At(s, run, m).procs && At(s, run, m).procs[rid] == At(s, run, n).procs[rid]
    ensures forall m | l < m <= |run| :: rid in At(s, run, m).procs && At(s, run, m).procs[rid].Done?
  {
    hide Inv;
    hide TenantInv;
    hide Grows;
    hide Next;
    hide Enabled;
    hide At;
    hide Refuses;
    l := NextMove(s, run, n, rid);
    KnownAt(s, run, l);
    StepAlong(s, run, l);
    AtEnd(s, run);
    LastAnswersWell(At(s, run, l), run[l], rid);
    forall m | l < m <= |run| ensures rid in At(s, run, m).procs && At(s, run, m).procs[rid] == Done(true) {
      FinalFrom(s, run, l + 1, m, rid);
    }
  }

  lemma LastAnswersWell(s: State, a: Action, rid: nat)
    requires Inv(s) && Enabled(s, a) && a.Advance? && a.rid == rid && s.procs[rid].Callback? && Final(s.procs[rid])
    ensures rid in Next(s, a).procs && Next(s, a).procs[rid] == Done(true)
  {
    hide Inv;
    hide AdvanceProc;
    StepFlows(s, rid, a.o);
  }

  /** What an answered callback did: looked its identity up at `i`, and went on at `j` by what it found. */
  lemma CallbackCourse(s: State, run: seq<Action>, k: nat) returns (i: nat, j: nat)
    requires RunFrom(s, run) && k < |run| && run[k].StartCallback?
    requires run[k].rid in Execute(s, run).procs && Execute(s, run).procs[run[k].rid].Done?
    ensures k < i < j < |run|
    ensures run[i].Advance? && run[i].rid == run[k].rid && run[j].Advance? && run[j].rid == run[k].rid
    ensures var rid, claim, email := run[k].rid, run[k].claim, Norm(run[k].claim.raw);
            && (forall m | k < m <= i ::
                  rid in At(s, run, m).procs && At(s, run, m).procs[rid] == Callback(CbIdentity(claim, email)))
            && (forall m | i < m <= j ::
                  rid in At(s, run, m).procs &&
                  At(s, run, m).procs[rid] ==
                    if Finds(At(s, run, i), run[i], claim)
                    then Callback(CbOrg(At(s, run, i).db.identities[(claim.provider, claim.subject)], true, claim))
                    else Callback(CbEmail(claim, email)))
  {
    hide Inv;
    hide TenantInv;
    hide Grows;
    hide Next;
    hide Enabled;
    hide Norm;
    hide Finds;
    hide At;
    var rid := run[k].rid;
    StepAlong(s, run, k);
    CallbackStarts(At(s, run, k), run[k]);
    i := NextMove(s, run, k + 1, rid);
    KnownAt(s, run, i);
    StepAlong(s, run, i);
    AfterIdentity(At(s, run, i), run[i], run[k].claim, Norm(run[k].claim.raw));
    j := NextMove(s, run, i + 1, rid);
  }

  /**
   A callback, exactly.  If its lookup finds the identity linked, it is answered well exactly if the user it is
   linked to has an organisation to be picked, and then a session is opened for that user, and no token is ever
   handed out.  Otherwise it is answered well exactly if some user holds the address, and then a token is handed
   out, and no session opened.
   */
  lemma CallbackIff(s: State, run: seq<Action>, k: nat) returns (i: nat, j: nat)
    requires RunFrom(s, run) && k < |run| && run[k].StartCallback?
    requires run[k].rid in Execute(s, run).procs && Execute(s, run).procs[run[k].rid].Done?
    ensures k < i < j < |run|
    ensures run[i].Advance? && run[i].rid == run[k].rid && run[j].Advance? && run[j].rid == run[k].rid
    ensures var rid, claim := run[k].rid, run[k].claim; var t := At(s, run, i);
            rid in t.procs && t.procs[rid] == Callback(CbIdentity(claim, Norm(claim.raw)))
    ensures var rid, claim := run[k].rid, run[k].claim;
            var linked, ids := Finds(At(s, run, i), run[i], claim), At(s, run, i).db.identities;
            && (Succeeded(Execute(s, run), rid)
                <==> run[j].o.call == Fine &&
                     if linked
                     then IsPick(At(s, run, j).db, ids[(claim.provider, claim.subject)], run[j].o.org)
                     else AddressHeld(At(s, run, j).db.users, Norm(claim.raw)))
            && (GivesIn(s, run, k) <==> Succeeded(Execute(s, run), rid) && !linked)
            && (forall user ::
                  OpensForIn(s, run, k, user)
                  <==> Succeeded(Execute(s, run), rid) && linked
                       && user == ids[(claim.provider, claim.subject)])
  {
    hide Inv;
    hide TenantInv;
    hide Grows;
    hide Next;
    hide Enabled;
    hide Norm;
    hide IsPick;
    hide AddressHeld;
    hide At;
    i, j := CallbackCourse(s, run, k);
    var rid := run[k].rid;
    KnownAt(s, run, j);
    StepAlong(s, run, j);
    var p := At(s, run, j).procs[rid].cb;
    AfterSecond(At(s, run, j), run[j], p);
    if CallbackRefuses(At(s, run, j), p, run[j].o) {
      RefusedAtEnd(s, run, j + 1, rid);
      forall m | j < m <= |run| ensures rid in At(s, run, m).procs && At(s, run, m).procs[rid].Done? {
        FinalFrom(s, run, j + 1, m, rid);
      }
    } else {
      var l := LastStep(s, run, j + 1, rid);
      if p.CbEmail? {
        assert GivesAt(At(s, run, l), run[l], rid);
      } else {
        assert OpensForAt(At(s, run, l), run[l], rid, p.user);
      }
    }
  }

  // ---------- Addresses, and what else goes on ----------

  /** Two signups whose addresses differ in the case of letters only are never both answered well. */
  lemma SignupsIgnoreCase(s: State, run: seq<Action>, k: nat, l: nat)
    requires SucceededIn(s, run, k) && SucceededIn(s, run, l) && k != l
    requires run[k].StartSignup? && run[l].StartSignup?
    ensures !SameButCase(run[k].email, run[l].email) && !SameButCase(run[k].slug, run[l].slug)
  {
    hide Norm;
    hide ToLower;
    hide SameButCase;
    SignupsNeverShare(s, run, k, l);
    if SameButCase(run[k].email, run[l].email) {
      CaseMakesNoDifference(run[k].email, run[l].email);
    }
    if SameButCase(run[k].slug, run[l].slug) {
      CaseMakesNoDifference(run[k].slug, run[l].slug);
    }
  }

  lemma UserMade(s: State, rid: nat, pc: AcceptPc, o: Oracle)
    requires pc.AcUpsert? && o.call == Fine && ToLower(pc.inv.email) == pc.inv.email
    requires !AddressHeld(s.db.users, pc.inv.email)
    ensures AdvanceAccept(s, rid, pc, o).db.users == s.db.users[o.newId := User(pc.inv.email, Some(""))]
  {
    HolderFound(s.db.users, pc.inv.email);
    hide UserByEmail;
    hide AddressHeld;
  }

  /** An accept that makes a user gives it the invited address and an empty name. */
  lemma InvitedUserMade(s: State, rid: nat, o: Oracle)
    requires Inv(s) && Enabled(s, Advance(rid, o)) && s.procs[rid].Accept? && s.procs[rid].ac.AcUpsert?
    requires o.call == Fine && !AddressHeld(s.db.users, s.procs[rid].ac.inv.email)
    ensures Next(s, Advance(rid, o)).db.users
         == s.db.users[o.newId := User(s.procs[rid].ac.inv.email, Some(""))]
  {
    var pc := s.procs[rid].ac;
    AcceptSteps(s, Advance(rid, o));
    hide Next;
    hide AdvanceAccept;
    UserMade(s, rid, pc, o) by {
      assert ProcInv(s, s.procs[rid]);
      SeenInviteFacts(s, pc.hash, pc.inv);
    }
  }

  /** The clock moves, sessions go, and passwords and second factors are set up. */
  lemma BackgroundActions(s: State, a: Action)
    requires Enabled(s, a) && Made(a) == None && !a.Advance?
    ensures var t := Next(s, a);
            && t.procs == s.procs
            && (a.Tick? ==> t == s.(clock := a.to))
            && (a.DropSession? ==> t == s.(sessions := t.sessions) && t.sessions.Keys == s.sessions.Keys - {a.sid})
            && (a.Enrol? && a.user in s.db.users ==> a.user in t.db.totp && t.db.totp[a.user] == a.secret)
            && (a.SetCredential? && a.user in s.db.users && a.user !in s.db.creds.Values
                && a.username !in s.db.creds ==>
                  a.username in t.db.creds && t.db.creds[a.username] == a.user)
  {
  }
}
