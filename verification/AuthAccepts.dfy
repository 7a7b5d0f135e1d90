/** Which accepts are answered well, exactly: a matter of the lookup and of the check after it. */
module AuthAccepts {
  import opened Options
  import opened Text
  import opened Repo
  import opened AuthMachine
  import opened AuthInvariants
  import opened AuthRuns
  import opened AuthTheorems
  import opened AuthGates
  import opened AuthResults
  import opened AuthTenants
  import opened AuthOrigins

  // ---------- The next step of a request ----------

  lemma StandsStill(s: State, a: Action, rid: nat)
    requires Inv(s) && Enabled(s, a) && rid in s.procs && !(a.Advance? && a.rid == rid)
    ensures rid in Next(s, a).procs && Next(s, a).procs[rid] == s.procs[rid]
  {
    hide Inv;
    hide AdvanceProc;
    if a.Advance? {
      OthersStand(s, a.rid, a.o, rid);
    }
  }

  /** A request that is answered by the end of the run makes its next step somewhere in it. */
  lemma {:induction false} NextMove(s: State, run: seq<Action>, n: nat, rid: nat) returns (i: nat)
    requires RunFrom(s, run) && n <= |run| && Working(At(s, run, n), rid) && !Working(Execute(s, run), rid)
    ensures n <= i < |run| && run[i].Advance? && run[i].rid == rid
    ensures rid in At(s, run, i).procs && At(s, run, i).procs[rid] == At(s, run, n).procs[rid]
    ensures forall m | n <= m <= i :: rid in At(s, run, m).procs && At(s, run, m).procs[rid] == At(s, run, n).procs[rid]
    decreases |run| - n
  {
    hide Inv;
    hide TenantInv;
    hide Grows;
    hide Next;
    hide Enabled;
    hide At;
    AtEnd(s, run);
    i := n;
    if !(run[n].Advance? && run[n].rid == rid) {
      KnownAt(s, run, n);
      StepAlong(s, run, n);
      StandsStill(At(s, run, n), run[n], rid);
      i := NextMove(s, run, n + 1, rid);
    }
  }

  // ---------- Past the check ----------

  /** The invite was found in order; nothing but a failing call can refuse the request any more. */
  predicate Sure(s: State, rid: nat) {
    rid in s.procs &&
    match s.procs[rid]
    case Accept(pc) => !pc.AcLookup? && !pc.AcCheck?
    case Done(ok) => ok
    case _ => false
  }

  lemma AcceptGoesOn(s: State, rid: nat, pc: AcceptPc, o: Oracle)
    requires o.call == Fine && !pc.AcLookup? && !pc.AcCheck?
    requires pc.AcMember? ==> pc.inv.org in s.db.orgs && pc.user in s.db.users
    ensures Sure(AdvanceAccept(s, rid, pc, o), rid)
  {
    hide UpsertUser;
    hide UserByEmail;
    hide UseInvite;
    hide ToLower;
    hide WithUser;
    hide WithSession;
  }

  lemma StaysSure(s: State, a: Action, rid: nat)
    requires Inv(s) && Enabled(s, a) && Sure(s, rid)
    requires a.Advance? && a.rid == rid ==> a.o.call == Fine
    ensures Sure(Next(s, a), rid)
  {
    if a.Advance? && a.rid == rid {
      CounterFacts(s, rid, s.procs[rid]);
      AcceptSteps(s, a);
      hide Next;
      hide Inv;
      AcceptGoesOn(s, rid, s.procs[rid].ac, a.o);
    } else {
      hide Inv;
      hide Next;
      StandsStill(s, a, rid);
    }
  }

  /** None of the request's own calls fails. */
  predicate OwnCallsFine(run: seq<Action>, rid: nat) {
    forall i | 0 <= i < |run| && run[i].Advance? && run[i].rid == rid :: run[i].o.call == Fine
  }

  lemma {:induction false} SureAlong(s: State, run: seq<Action>, i: nat, n: nat, rid: nat)
    requires RunFrom(s, run) && i <= n <= |run| && Sure(At(s, run, i), rid) && OwnCallsFine(run, rid)
    ensures Sure(At(s, run, n), rid)
    decreases n
  {
    hide Inv;
    hide TenantInv;
    hide Grows;
    hide Next;
    hide Enabled;
    hide Sure;
    hide At;
    if i < n {
      SureAlong(s, run, i, n - 1, rid);
      KnownAt(s, run, n - 1);
      StepAlong(s, run, n - 1);
      StaysSure(At(s, run, n - 1), run[n - 1], rid);
    }
  }

  // ---------- Exactly ----------

  /** The lookup of an accept, whatever it finds. */
  predicate LooksAt(t: State, a: Action, rid: nat, hash: string) {
    a.Advance? && a.rid == rid && rid in t.procs && t.procs[rid] == Accept(AcLookup(hash))
  }

  /** The check of what it found. */
  predicate ChecksAt(t: State, a: Action, rid: nat, hash: string, inv: Invite) {
    a.Advance? && a.rid == rid && rid in t.procs && t.procs[rid] == Accept(AcCheck(hash, inv))
  }

  lemma AfterLookup(s: State, a: Action, rid: nat, hash: string)
    requires Enabled(s, a) && LooksAt(s, a, rid, hash)
    ensures var t := Next(s, a);
            && rid in t.procs
            && t.procs[rid] == if a.o.call == Fine && hash in s.db.invites
                               then Accept(AcCheck(hash, s.db.invites[hash])) else Done(false)
  {
    AcceptSteps(s, a);
    hide Next;
  }

  lemma AfterCheck(s: State, a: Action, rid: nat, hash: string, inv: Invite)
    requires Enabled(s, a) && ChecksAt(s, a, rid, hash, inv)
    ensures var t := Next(s, a);
            && rid in t.procs
            && t.procs[rid] == if inv.usedAt == None && s.clock <= inv.expires
                               then Accept(AcEmail(hash, inv)) else Done(false)
  {
    AcceptSteps(s, a);
    hide Next;
  }

  lemma {:induction false} RefusedAtEnd(s: State, run: seq<Action>, n: nat, rid: nat)
    requires RunFrom(s, run) && n <= |run| && rid in At(s, run, n).procs
    requires At(s, run, n).procs[rid] == Done(false)
    ensures !Succeeded(Execute(s, run), rid)
  {
    hide Inv;
    hide TenantInv;
    hide Grows;
    hide ValidRun;
    hide Execute;
    KnownAt(s, run, n);
    RunSplit(s, run, n);
    AnswersAreFinal(At(s, run, n), run[n..], rid);
  }

  lemma AcceptStarts(s: State, a: Action)
    requires Enabled(s, a) && a.StartAccept?
    ensures a.rid in Next(s, a).procs && Next(s, a).procs[a.rid] == Accept(AcLookup(a.hash))
  {
  }

  /** The lookup of an answered accept, and, if it found the invite, the check. */
  lemma LookupAndCheck(s: State, run: seq<Action>, k: nat) returns (i: nat, j: nat)
    requires RunFrom(s, run) && k < |run| && run[k].StartAccept?
    requires run[k].rid in Execute(s, run).procs && Execute(s, run).procs[run[k].rid].Done?
    ensures k < i < |run| && LooksAt(At(s, run, i), run[i], run[k].rid, run[k].hash)
    ensures run[i].o.call == Fine && run[k].hash in At(s, run, i).db.invites ==>
              i < j < |run| &&
              ChecksAt(At(s, run, j), run[j], run[k].rid, run[k].hash, At(s, run, i).db.invites[run[k].hash])
  {
    hide Next;
    hide Enabled;
    hide At;
    var rid := run[k].rid;
    StepAlong(s, run, k);
    AcceptStarts(At(s, run, k), run[k]);
    i := NextMove(s, run, k + 1, rid);
    j := 0;
    StepAlong(s, run, i);
    AfterLookup(At(s, run, i), run[i], rid, run[k].hash);
    if run[i].o.call == Fine && run[k].hash in At(s, run, i).db.invites {
      j := NextMove(s, run, i + 1, rid);
    }
  }

  /**
   An accept that was answered, none of whose own calls failed, was answered well exactly if the lookup found
   the invite unused and the check found it in time: whatever became of the invite in between or after.
   */
  lemma AcceptedIff(s: State, run: seq<Action>, k: nat) returns (i: nat, j: nat)
    requires RunFrom(s, run) && k < |run| && run[k].StartAccept? && OwnCallsFine(run, run[k].rid)
    requires run[k].rid in Execute(s, run).procs && Execute(s, run).procs[run[k].rid].Done?
    ensures k < i < |run| && LooksAt(At(s, run, i), run[i], run[k].rid, run[k].hash)
    ensures var found := At(s, run, i).db.invites; var hash := run[k].hash;
            && (hash in found ==> i < j < |run| && ChecksAt(At(s, run, j), run[j], run[k].rid, hash, found[hash]))
            && (Succeeded(Execute(s, run), run[k].rid)
                <==> hash in found && found[hash].usedAt == None && At(s, run, j).clock <= found[hash].expires)
  {
    hide Next;
    hide Enabled;
    hide Sure;
    hide At;
    hide LooksAt;
    hide ChecksAt;
    var rid, hash := run[k].rid, run[k].hash;
    i, j := LookupAndCheck(s, run, k);
    LookupMoves(At(s, run, i), run[i], rid, hash);
    StepAlong(s, run, i);
    AfterLookup(At(s, run, i), run[i], rid, hash);
    if hash !in At(s, run, i).db.invites {
      RefusedAtEnd(s, run, i + 1, rid);
    } else {
      var inv := At(s, run, i).db.invites[hash];
      StepAlong(s, run, j);
      AfterCheck(At(s, run, j), run[j], rid, hash, inv);
      if inv.usedAt == None && At(s, run, j).clock <= inv.expires {
        PastTheCheck(At(s, run, j + 1), rid, hash, inv);
        SureAlong(s, run, j + 1, |run|, rid);
        AtEnd(s, run);
        SureAndDone(Execute(s, run), rid);
      } else {
        RefusedAtEnd(s, run, j + 1, rid);
      }
    }
  }

  lemma LookupMoves(t: State, a: Action, rid: nat, hash: string)
    requires LooksAt(t, a, rid, hash)
    ensures a.Advance? && a.rid == rid
  {
  }

  lemma PastTheCheck(s: State, rid: nat, hash: string, inv: Invite)
    requires rid in s.procs && s.procs[rid] == Accept(AcEmail(hash, inv))
    ensures Sure(s, rid)
  {
  }

  lemma SureAndDone(s: State, rid: nat)
    requires Sure(s, rid) && s.procs[rid].Done?
    ensures Succeeded(s, rid)
  {
  }
}
