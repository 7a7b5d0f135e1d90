/** The checks on the way of a request: which of them it passed, in which state, when it was answered well. */
module AuthGates {
  import opened Options
  import opened Text
  import opened Repo
  import opened AuthMachine
  import opened AuthInvariants
  import opened AuthSteps
  import opened AuthFlow
  import opened AuthRuns
  import opened AuthTheorems
  import opened AuthOutcomes

  /** The steps of the handlers that every request which ends well has to pass. */
  datatype Gate =
    | NewUser | NewLogin | FreeSlug | NewSlug | NewOwner
    | KeptToken | Password | SecondFactor | SameAddress | NotElsewhere | LinkWrite | HomeOrg
    | OpenSession | KnownUser | OwnerRole | FullBody | InviteWrite
    | InviteFound | LiveInvite | NewMember | UseMark

  /** Where the gate stands in the handler of the request: its first and its last step. */
  function Place(g: Gate, p: Proc): Option<(nat, nat)> {
    match p
    case Signup(_) =>
      (match g
       case NewUser => Some((0, 0)) case NewLogin => Some((1, 1)) case FreeSlug => Some((2, 2))
       case NewSlug => Some((3, 3)) case NewOwner => Some((4, 4)) case _ => None)
    case Login(_) =>
      (match g
       case Password => Some((0, 0)) case SecondFactor => Some((1, 2)) case HomeOrg => Some((3, 3)) case _ => None)
    case Link(_) =>
      (match g
       case KeptToken => Some((0, 0)) case Password => Some((1, 1)) case SecondFactor => Some((2, 3))
       case SameAddress => Some((4, 4)) case NotElsewhere => Some((5, 5)) case LinkWrite => Some((6, 6))
       case HomeOrg => Some((8, 8)) case _ => None)
    case NewInvite(_) =>
      (match g
       case OpenSession => Some((0, 0)) case KnownUser => Some((1, 1)) case OwnerRole => Some((2, 2))
       case FullBody => Some((3, 3)) case InviteWrite => Some((4, 4)) case _ => None)
    case Accept(_) =>
      (match g
       case InviteFound => Some((0, 0)) case LiveInvite => Some((1, 1)) case NewMember => Some((4, 4))
       case UseMark => Some((5, 5)) case _ => None)
    case _ => None
  }

  /** The request is about to be checked. */
  predicate Facing(p: Proc, g: Gate) {
    Place(g, p).Some? && Place(g, p).value.0 <= Rank(p) <= Place(g, p).value.1
  }

  /** The check is still to come. */
  predicate Ahead(p: Proc, g: Gate) { Place(g, p).Some? && Rank(p) <= Place(g, p).value.1 }

  /** The step asks whether the user has a second factor. */
  predicate AsksFactor(p: Proc) { (p.Login? && p.li.LiHasTotp?) || (p.Link? && p.ln.LnHasTotp?) }

  function AskedUser(p: Proc): UserId
    requires AsksFactor(p)
  {
    if p.Login? then p.li.user else p.ln.user
  }

  /** The call, made in this state with this result, lets the request through. */
  ghost predicate LetThrough(s: State, p: Proc, o: Oracle) {
    if AsksFactor(p) then !Asked(s, AskedUser(p), o) else !Refuses(s, p, o)
  }

  ghost predicate PassesAt(t: State, a: Action, rid: nat, g: Gate) {
    && rid in t.procs && Facing(t.procs[rid], g)
    && a.Advance? && a.rid == rid && LetThrough(t, t.procs[rid], a.o)
  }

  /** Action `i` of the run takes the request through the gate. */
  ghost predicate PassedAt(s: State, run: seq<Action>, i: nat, rid: nat, g: Gate) {
    i < |run| && ValidRun(s, run[..i]) && PassesAt(Execute(s, run[..i]), run[i], rid, g)
  }

  lemma PlaceKept(g: Gate, p: Proc, q: Proc)
    requires SameHandler(p, q)
    ensures Place(g, p) == Place(g, q)
  {
  }

  /** A step that does not refuse leaves no gate out. */
  lemma NoneLeftOut(s: State, p: Proc, o: Oracle, g: Gate)
    requires Ahead(p, g) && !Refuses(s, p, o)
    ensures (!Final(p) && Onward(s, p, o) <= Place(g, p).value.1) || (Facing(p, g) && LetThrough(s, p, o))
  {
    hide IsPick;
    hide SlugTaken;
    hide ToLower;
    hide AddressHeld;
    hide Linked;
  }

  /** A step leaves the gate ahead, refuses the request, or takes it through. */
  lemma NextAhead(s: State, a: Action, rid: nat, g: Gate)
    requires Inv(s) && Enabled(s, a) && rid in s.procs && Ahead(s.procs[rid], g)
    ensures var t := Next(s, a);
            rid in t.procs && (Ahead(t.procs[rid], g) || t.procs[rid] == Done(false) || PassesAt(s, a, rid, g))
  {
    hide Inv;
    hide Facing;
    hide LetThrough;
    hide AdvanceProc;
    hide Refuses;
    hide Onward;
    hide Rank;
    hide Place;
    var p := s.procs[rid];
    if a.Advance? && a.rid == rid {
      StepFlows(s, rid, a.o);
      var q := Next(s, a).procs[rid];
      if !Refuses(s, p, a.o) {
        NoneLeftOut(s, p, a.o, g);
        if SameHandler(p, q) {
          PlaceKept(g, p, q);
        }
      }
    } else if a.Advance? {
      OthersStand(s, a.rid, a.o, rid);
    }
  }

  lemma NothingAhead(p: Proc, g: Gate)
    ensures Ahead(p, g) ==> !p.Done?
  {
  }

  lemma AnswerStays(s: State, a: Action, rid: nat)
    requires Inv(s) && Enabled(s, a) && rid in s.procs && s.procs[rid].Done?
    ensures rid in Next(s, a).procs && Next(s, a).procs[rid] == s.procs[rid]
  {
    hide Inv;
    hide AdvanceProc;
    if a.Advance? {
      OthersStand(s, a.rid, a.o, rid);
    }
  }

  lemma {:induction false} AnswersAreFinal(s: State, run: seq<Action>, rid: nat)
    requires Inv(s) && ValidRun(s, run) && rid in s.procs && s.procs[rid].Done?
    ensures rid in Execute(s, run).procs && Execute(s, run).procs[rid] == s.procs[rid]
    decreases run
  {
    hide Inv;
    hide Next;
    hide Enabled;
    if run != [] {
      NextKeepsInv(s, run[0]);
      AnswerStays(s, run[0], rid);
      AnswersAreFinal(Next(s, run[0]), run[1..], rid);
    }
  }

  /** A request that ends well has passed every gate that was ahead of it. */
  lemma {:induction false} GateWasPassed(s: State, run: seq<Action>, rid: nat, g: Gate) returns (i: nat)
    requires Inv(s) && ValidRun(s, run) && rid in s.procs && Ahead(s.procs[rid], g)
    requires Succeeded(Execute(s, run), rid)
    ensures PassedAt(s, run, i, rid, g)
    decreases run
  {
    hide Inv;
    hide Next;
    hide Enabled;
    hide PassesAt;
    hide Facing;
    NothingAhead(s.procs[rid], g);
    var t := Next(s, run[0]);
    NextKeepsInv(s, run[0]);
    NextAhead(s, run[0], rid, g);
    if Ahead(t.procs[rid], g) {
      i := GateWasPassed(t, run[1..], rid, g);
      assert run[..i + 1][0] == run[0] && run[..i + 1][1..] == run[1..][..i];
      i := i + 1;
    } else {
      if t.procs[rid] == Done(false) {
        AnswersAreFinal(t, run[1..], rid);
      }
      assert run[..0] == [];
      i := 0;
    }
  }

  // ---------- Gates in a run from the beginning ----------

  /** Request number `k` of the run is of the kind the gate guards. */
  predicate Guarded(run: seq<Action>, k: nat, g: Gate) {
    k < |run| &&
    match g
    case NewUser | NewLogin | FreeSlug | NewSlug | NewOwner => run[k].StartSignup?
    case Password | SecondFactor | HomeOrg => run[k].StartLogin? || run[k].StartLink?
    case KeptToken | SameAddress | NotElsewhere | LinkWrite => run[k].StartLink?
    case OpenSession | KnownUser | OwnerRole | FullBody | InviteWrite => run[k].StartInvite?
    case InviteFound | LiveInvite | NewMember | UseMark => run[k].StartAccept?
  }

  ghost predicate SucceededIn(s: State, run: seq<Action>, k: nat) {
    RunFrom(s, run) && k < |run| && Made(run[k]).Some? && Succeeded(Execute(s, run), run[k].rid)
  }

  /** The state in which action `i` of the run is taken. */
  ghost function At(s: State, run: seq<Action>, i: nat): State
    requires RunFrom(s, run) && i <= |run|
  {
    RunSplit(s, run, i);
    Execute(s, run[..i])
  }

  /** Between two instants of a run the state is in order and grows. */
  lemma GrowsAlong(s: State, run: seq<Action>, i: nat, j: nat)
    requires RunFrom(s, run) && i <= j <= |run|
    ensures Inv(At(s, run, i)) && Grows(At(s, run, i), At(s, run, j))
  {
    hide Inv;
    hide Grows;
    hide ValidRun;
    hide Execute;
    RunSplit(s, run, j);
    RunSplit(s, run[..j], i);
    assert run[..j][..i] == run[..i];
    ReachedInv(s, run[..i]);
    RunKeepsInv(At(s, run, i), run[..j][i..]);
  }

  lemma StepAlong(s: State, run: seq<Action>, i: nat)
    requires RunFrom(s, run) && i < |run|
    ensures Enabled(At(s, run, i), run[i]) && At(s, run, i + 1) == Next(At(s, run, i), run[i])
    ensures ValidRun(At(s, run, i + 1), run[i + 1..]) && Execute(At(s, run, i + 1), run[i + 1..]) == Execute(s, run)
  {
    hide Next;
    hide Enabled;
    RunSplit(s, run, i);
    RunSplit(s, run, i + 1);
    RunSplit(s, run[..i + 1], i);
    assert run[..i + 1][..i] == run[..i] && run[..i + 1][i..] == [run[i]] && run[i..][0] == run[i];
    assert [run[i]][1..] == [];
  }

  lemma AtFurther(s: State, run: seq<Action>, i: nat, j: nat)
    requires RunFrom(s, run) && i <= j <= |run|
    ensures ValidRun(At(s, run, i), run[i..][..j - i])
    ensures At(s, run, j) == Execute(At(s, run, i), run[i..][..j - i])
  {
    hide ValidRun;
    hide Execute;
    RunSplit(s, run, i);
    RunSplit(Execute(s, run[..i]), run[i..], j - i);
    assert run[..j] == run[..i] + run[i..][..j - i];
    RunConcat(s, run[..i], run[i..][..j - i]);
  }

  /** The gate is passed as the request that was made. */
  lemma GatePassedAs(t: State, run: seq<Action>, rid: nat, g: Gate, r: Request) returns (j: nat)
    requires Inv(t) && ValidRun(t, run) && ServedAt(t, rid, r) && Succeeded(Execute(t, run), rid)
    requires Ahead(t.procs[rid], g) || t.procs[rid] == Done(false)
    ensures PassedAt(t, run, j, rid, g) && RequestOf(Execute(t, run[..j]).procs[rid]) == Some(r)
  {
    hide Inv;
    hide Answered;
    hide LetThrough;
    hide Ahead;
    if t.procs[rid] == Done(false) {
      AnswersAreFinal(t, run, rid);
    }
    j := GateWasPassed(t, run, rid, g);
    RunServes(t, run[..j], rid, r);
  }

  /**
   A request that was answered well passed every gate on its way, as the request it was made as: no login and
   no linking without a verified password and the check of the second factor, no linking of an identity found
   linked elsewhere, no invite from anyone who was not an Owner while the request ran, no signup with a name or
   a slug that was taken, no accept of an invite that was found used or too old.
   */
  lemma NoSuccessWithoutChecks(s: State, run: seq<Action>, k: nat, g: Gate) returns (i: nat)
    requires SucceededIn(s, run, k) && Guarded(run, k, g)
    ensures k < i < |run| && PassesAt(At(s, run, i), run[i], run[k].rid, g)
    ensures RequestOf(At(s, run, i).procs[run[k].rid]) == Made(run[k])
  {
    hide Inv;
    hide Grows;
    hide PassesAt;
    hide ServedAt;
    hide Ahead;
    hide ValidRun;
    hide Execute;
    hide Next;
    hide Enabled;
    StepAlong(s, run, k);
    GrowsAlong(s, run, k + 1, k + 1);
    var t, more := At(s, run, k + 1), run[k + 1..];
    StartServes(At(s, run, k), run[k]);
    StartAhead(At(s, run, k), run[k], g);
    var j := GatePassedAs(t, more, run[k].rid, g, Made(run[k]).value);
    i := k + 1 + j;
    AtFurther(s, run, k + 1, i);
  }

  /** A request starts at the first step of its handler, unless it is turned down at once. */
  lemma StartsFirst(s: State, a: Action)
    requires Enabled(s, a) && Made(a).Some?
    ensures a.rid in Next(s, a).procs
    ensures var p := Next(s, a).procs[a.rid];
            p == Done(false) || (Rank(p) == 0 && (a.StartSignup? ==> p.Signup?) && (a.StartLogin? ==> p.Login?) &&
                                 (a.StartLink? ==> p.Link?) && (a.StartInvite? ==> p.NewInvite?) &&
                                 (a.StartAccept? ==> p.Accept?))
  {
    hide Norm;
    hide Slug.IsValidSlug;
  }

  lemma FirstIsAhead(p: Proc, a: Action, g: Gate)
    requires Guarded([a], 0, g) && Rank(p) == 0
    requires (a.StartSignup? ==> p.Signup?) && (a.StartLogin? ==> p.Login?) && (a.StartLink? ==> p.Link?)
    requires (a.StartInvite? ==> p.NewInvite?) && (a.StartAccept? ==> p.Accept?)
    ensures Ahead(p, g)
  {
    hide Rank;
  }

  lemma StartAhead(s: State, a: Action, g: Gate)
    requires Enabled(s, a) && Guarded([a], 0, g)
    ensures var t := Next(s, a);
            a.rid in t.procs && (Ahead(t.procs[a.rid], g) || t.procs[a.rid] == Done(false))
  {
    hide Next;
    hide Enabled;
    hide Ahead;
    hide Rank;
    StartsFirst(s, a);
    if Next(s, a).procs[a.rid] != Done(false) {
      FirstIsAhead(Next(s, a).procs[a.rid], a, g);
    }
  }
}
