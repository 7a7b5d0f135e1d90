/** Where requests, tokens and links come from: the actions of the run that made them. */
module AuthOrigins {
  import opened Options
  import opened Text
  import opened Repo
  import opened AuthMachine
  import opened AuthInvariants
  import opened AuthFootprints
  import opened AuthSteps
  import opened AuthTheorems
  import opened AuthOutcomes
  import opened AuthGates
  import opened AuthResults
  import opened AuthTenants

  // ---------- Requests ----------

  predicate Working(s: State, rid: nat) { rid in s.procs && !s.procs[rid].Done? }

  /** Who works on a request after a step did so before, on the same, or has just started on it. */
  lemma RequestStep(s: State, a: Action, rid: nat)
    requires Inv(s) && Enabled(s, a) && Working(Next(s, a), rid)
    ensures var r := RequestOf(Next(s, a).procs[rid]);
            || (Working(s, rid) && RequestOf(s.procs[rid]) == r)
            || (Made(a).Some? && a.rid == rid && Made(a) == r)
  {
    hide Inv;
    hide AdvanceProc;
    hide RequestOf;
    hide Norm;
    hide Slug.IsValidSlug;
    if a.Advance? && a.rid == rid {
      WorkGoesOn(s, rid, a.o);
    } else if a.Advance? {
      if rid in s.procs {
        OthersStand(s, a.rid, a.o, rid);
      } else {
        NoneAppear(s, a.rid, a.o, rid);
      }
    } else if Made(a).Some? && a.rid == rid {
      StartServes(s, a);
      ServedWorks(Next(s, a), rid, Made(a).value);
    }
  }

  lemma WorkGoesOn(s: State, rid: nat, o: Oracle)
    requires Working(s, rid) && Working(AdvanceProc(s, rid, o), rid)
    ensures RequestOf(AdvanceProc(s, rid, o).procs[rid]) == RequestOf(s.procs[rid])
  {
    hide AdvanceProc;
    WorkingHasRequest(s.procs[rid]);
    AdvanceGoes(s, rid, o, RequestOf(s.procs[rid]).value);
  }

  lemma WorkingHasRequest(p: Proc)
    ensures !p.Done? <==> RequestOf(p).Some?
  {
  }

  lemma ServedWorks(s: State, rid: nat, r: Request)
    requires ServedAt(s, rid, r) && Working(s, rid)
    ensures RequestOf(s.procs[rid]) == Some(r)
  {
    hide Answered;
  }

  lemma NoneAppear(s: State, moving: nat, o: Oracle, rid: nat)
    requires Inv(s) && Enabled(s, Advance(moving, o)) && rid !in s.procs
    ensures rid !in AdvanceProc(s, moving, o).procs
  {
    hide AdvanceProc;
    hide TablesInv;
    hide ProcInv;
    hide Grows;
    AdvanceKeeps(s, moving, o);
  }

  /** Every request in flight was made by an action of the run. */
  lemma {:induction false} RequestWasMade(s: State, run: seq<Action>, n: nat, rid: nat) returns (i: nat)
    requires RunFrom(s, run) && n <= |run| && Working(At(s, run, n), rid)
    ensures i < n && Made(run[i]).Some? && run[i].rid == rid
    ensures Made(run[i]) == RequestOf(At(s, run, n).procs[rid])
    decreases n
  {
    hide Inv;
    hide TenantInv;
    hide Grows;
    hide Next;
    hide Enabled;
    hide Made;
    hide RequestOf;
    hide At;
    AtStart(s, run);
    KnownAt(s, run, n - 1);
    StepAlong(s, run, n - 1);
    RequestStep(At(s, run, n - 1), run[n - 1], rid);
    var before, after := At(s, run, n - 1), At(s, run, n);
    if Working(before, rid) && RequestOf(before.procs[rid]) == RequestOf(after.procs[rid]) {
      i := RequestWasMade(s, run, n - 1, rid);
    } else {
      i := n - 1;
    }
  }

  // ---------- Tokens ----------

  /** This action, of a callback with this claim, hands the token out. */
  predicate HandsOutAt(t: State, a: Action, token: nat, claim: Claim) {
    a.Advance? && a.o.newId == token && a.rid in t.procs &&
    t.procs[a.rid].Callback? && t.procs[a.rid].cb.CbPending? && t.procs[a.rid].cb.claim == claim
  }

  lemma TokenStepOf(s: State, a: Action, token: nat)
    requires Enabled(s, a) && token in Next(s, a).asserted && token !in s.asserted
    ensures HandsOutAt(s, a, token, Next(s, a).asserted[token])
  {
    hide AdvanceProc;
    hide Norm;
    hide Slug.IsValidSlug;
    if a.Advance? {
      AdvanceTouches(s, a.rid, a.o);
      hide MembersTouched;
      hide InvitesTouched;
      hide LinksTouched;
      hide CreatorsTouched;
      hide MemberEntered;
    }
  }

  lemma TokensStay(s: State, t: State, token: nat)
    requires Grows(s, t) && token in s.asserted
    ensures token in t.asserted && t.asserted[token] == s.asserted[token]
  {
  }

  /** Every token was handed out by a callback of the run, for the claim it was started with. */
  lemma {:induction false} TokenWasHandedOut(s: State, run: seq<Action>, n: nat, token: nat) returns (j: nat)
    requires RunFrom(s, run) && n <= |run| && token in At(s, run, n).asserted
    ensures j < n && HandsOutAt(At(s, run, j), run[j], token, At(s, run, n).asserted[token])
    decreases n
  {
    hide Inv;
    hide TenantInv;
    hide Grows;
    hide Next;
    hide Enabled;
    hide HandsOutAt;
    hide At;
    AtStart(s, run);
    StepAlong(s, run, n - 1);
    GrowsAlong(s, run, n - 1, n);
    if token in At(s, run, n - 1).asserted {
      TokensStay(At(s, run, n - 1), At(s, run, n), token);
      j := TokenWasHandedOut(s, run, n - 1, token);
    } else {
      TokenStepOf(At(s, run, n - 1), run[n - 1], token);
      j := n - 1;
    }
  }

  // ---------- Links ----------

  /** This action, of a request with this token, links the identity to the user. */
  predicate LinksAt(t: State, a: Action, key: (string, string), token: nat, user: UserId) {
    a.Advance? && a.rid in t.procs && t.procs[a.rid].Link? && t.procs[a.rid].ln.LnLink? &&
    var pc := t.procs[a.rid].ln;
    (pc.link.provider, pc.link.subject) == key && pc.req.token == token && pc.user == user && key !in t.db.identities
  }

  lemma LinkStepOf(s: State, a: Action, key: (string, string)) returns (token: nat)
    requires Enabled(s, a) && key in Next(s, a).db.identities && key !in s.db.identities
    ensures LinksAt(s, a, key, token, Next(s, a).db.identities[key])
  {
    hide AdvanceProc;
    hide Norm;
    hide Slug.IsValidSlug;
    if a.Advance? {
      AdvanceTouches(s, a.rid, a.o);
      hide MembersTouched;
      hide InvitesTouched;
      hide TokensTouched;
      hide CreatorsTouched;
      hide MemberEntered;
      assert s.procs[a.rid].Link?;
      token := s.procs[a.rid].ln.req.token;
    }
  }

  lemma {:induction false} LinkWasWritten(s: State, run: seq<Action>, n: nat, key: (string, string))
      returns (l: nat, token: nat)
    requires RunFrom(s, run) && n <= |run| && key in At(s, run, n).db.identities && key !in s.db.identities
    ensures l < n && LinksAt(At(s, run, l), run[l], key, token, At(s, run, n).db.identities[key])
    decreases n
  {
    hide Inv;
    hide TenantInv;
    hide Grows;
    hide Next;
    hide Enabled;
    hide LinksAt;
    hide At;
    AtStart(s, run);
    StepAlong(s, run, n - 1);
    GrowsAlong(s, run, n - 1, n);
    if key in At(s, run, n - 1).db.identities {
      LinkKept(At(s, run, n - 1), At(s, run, n), key);
      l, token := LinkWasWritten(s, run, n - 1, key);
    } else {
      token := LinkStepOf(At(s, run, n - 1), run[n - 1], key);
      l := n - 1;
    }
  }

  lemma LinkerFacts(t: State, a: Action, key: (string, string), token: nat, user: UserId)
    requires Inv(t) && LinksAt(t, a, key, token, user)
    ensures token in t.asserted && (t.asserted[token].provider, t.asserted[token].subject) == key
    ensures UserWith(t, user, Norm(t.asserted[token].raw))
    ensures Working(t, a.rid) && exists email :: RequestOf(t.procs[a.rid]) == Some(LinkOf(LinkReq(token, email)))
  {
    hide TablesInv;
    hide Norm;
    assert ProcInv(t, t.procs[a.rid]);
    assert RequestOf(t.procs[a.rid]) == Some(LinkOf(LinkReq(token, t.procs[a.rid].ln.req.email)));
  }

  lemma CallbackFacts(t: State, a: Action, token: nat, claim: Claim)
    requires HandsOutAt(t, a, token, claim)
    ensures Working(t, a.rid) && RequestOf(t.procs[a.rid]) == Some(CallbackOf(claim))
  {
  }

  lemma MadeCallback(a: Action, claim: Claim)
    requires Made(a) == Some(CallbackOf(claim))
    ensures a.StartCallback? && a.claim == claim
  {
  }

  lemma MadeLink(a: Action, token: nat, email: string)
    requires Made(a) == Some(LinkOf(LinkReq(token, email)))
    ensures a.StartLink? && a.token == token
  {
  }

  /**
   Every identity linked in the run has its history there: callback `i` with its claim handed out a token at
   step `j`; request `m`, made with that token, linked it at step `l`; and the user it belongs to holds the
   address of that claim.
   */
  lemma LinkHasHistory(s: State, run: seq<Action>, provider: string, subject: string)
      returns (token: nat, i: nat, j: nat, m: nat, l: nat)
    requires RunFrom(s, run)
    requires var t := Execute(s, run);
             (provider, subject) in t.db.identities && (provider, subject) !in s.db.identities
    ensures i < j < l < |run| && m < l
    ensures run[i].StartCallback? && (run[i].claim.provider, run[i].claim.subject) == (provider, subject)
    ensures HandsOutAt(At(s, run, j), run[j], token, run[i].claim) && run[j].rid == run[i].rid
    ensures run[m].StartLink? && run[m].token == token && run[l].Advance? && run[l].rid == run[m].rid
    ensures var user := Execute(s, run).db.identities[(provider, subject)];
            && LinksAt(At(s, run, l), run[l], (provider, subject), token, user)
            && UserWith(Execute(s, run), user, Norm(run[i].claim.raw))
  {
    hide Inv;
    hide TenantInv;
    hide Grows;
    hide Made;
    hide RequestOf;
    hide LinksAt;
    hide HandsOutAt;
    hide Norm;
    hide At;
    var key := (provider, subject);
    AtEnd(s, run);
    l, token := LinkWasWritten(s, run, |run|, key);
    var user := Execute(s, run).db.identities[key];
    KnownAt(s, run, l);
    LinkerFacts(At(s, run, l), run[l], key, token, user);
    LinkerMoves(At(s, run, l), run[l], key, token, user);
    m := RequestWasMade(s, run, l, run[l].rid);
    var email :| RequestOf(At(s, run, l).procs[run[l].rid]) == Some(LinkOf(LinkReq(token, email)));
    MadeLink(run[m], token, email);
    var claim := At(s, run, l).asserted[token];
    j := TokenWasHandedOut(s, run, l, token);
    CallbackFacts(At(s, run, j), run[j], token, claim);
    GiverMoves(At(s, run, j), run[j], token, claim);
    i := RequestWasMade(s, run, j, run[j].rid);
    MadeCallback(run[i], claim);
    AddressStays(At(s, run, l), Execute(s, run), user, Norm(claim.raw));
  }

  lemma LinkerMoves(t: State, a: Action, key: (string, string), token: nat, user: UserId)
    ensures LinksAt(t, a, key, token, user) ==> a.Advance?
  {
  }

  lemma GiverMoves(t: State, a: Action, token: nat, claim: Claim)
    ensures HandsOutAt(t, a, token, claim) ==> a.Advance?
  {
  }

  lemma AddressStays(s: State, t: State, user: UserId, email: string)
    requires Grows(s, t) && UserWith(s, user, email)
    ensures UserWith(t, user, email)
  {
  }
}
