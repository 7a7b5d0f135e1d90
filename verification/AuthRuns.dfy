/** Runs taken apart and put together. */
module AuthRuns {
  import opened AuthMachine
  import opened AuthInvariants
  import opened AuthSteps

  lemma {:induction false} RunConcat(s: State, a: seq<Action>, b: seq<Action>)
    requires ValidRun(s, a) && ValidRun(Execute(s, a), b)
    ensures ValidRun(s, a + b) && Execute(s, a + b) == Execute(Execute(s, a), b)
    decreases a
  {
    hide Next;
    hide Enabled;
    if a == [] {
      assert a + b == b;
    } else {
      assert (a + b)[0] == a[0] && (a + b)[1..] == a[1..] + b;
      RunConcat(Next(s, a[0]), a[1..], b);
    }
  }

  lemma {:induction false} RunStep(s: State, run: seq<Action>)
    requires run != [] && Enabled(s, run[0]) && ValidRun(Next(s, run[0]), run[1..])
    ensures ValidRun(s, run) && Execute(s, run) == Execute(Next(s, run[0]), run[1..])
  {
    hide Next;
    hide Enabled;
  }

  lemma {:induction false} RunSplit(s: State, run: seq<Action>, i: nat)
    requires ValidRun(s, run) && i <= |run|
    ensures ValidRun(s, run[..i]) && ValidRun(Execute(s, run[..i]), run[i..])
    ensures Execute(Execute(s, run[..i]), run[i..]) == Execute(s, run)
    decreases run
  {
    hide Next;
    hide Enabled;
    if i == 0 {
      assert run[..0] == [] && run[0..] == run;
    } else {
      RunSplit(Next(s, run[0]), run[1..], i - 1);
      var pre := run[..i];
      assert pre[0] == run[0] && pre[1..] == run[1..][..i - 1] && run[1..][i - 1..] == run[i..];
      RunStep(s, pre);
      RunStep(s, run);
    }
  }

  lemma {:induction false} FreshId(issued: set<nat>) returns (n: nat)
    ensures forall m | m in issued :: m < n
    decreases issued
  {
    n := 0;
    if issued != {} {
      var m :| m in issued;
      var k := FreshId(issued - {m});
      n := if m < k then k else m + 1;
      assert issued == (issued - {m}) + {m};
    }
  }

  ghost predicate Leads(s: State, run: seq<Action>, t: State) { ValidRun(s, run) && Execute(s, run) == t && Inv(t) }

  lemma LeadsOn(s: State, a: seq<Action>, t: State, b: seq<Action>, u: State)
    requires Leads(s, a, t) && Leads(t, b, u)
    ensures Leads(s, a + b, u)
  {
    hide ValidRun;
    hide Execute;
    hide Inv;
    RunConcat(s, a, b);
  }

  lemma LeadsInv(s: State, run: seq<Action>, t: State)
    requires Leads(s, run, t)
    ensures Inv(t)
  {
  }

  lemma StartLeads(s: State, a: Action)
    requires Inv(s) && Enabled(s, a)
    ensures Leads(s, [a], Next(s, a))
  {
    hide Inv;
    hide Next;
    hide Enabled;
    NextKeepsInv(s, a);
    assert [a][1..] == [];
    assert ValidRun(Next(s, a), []) && Execute(Next(s, a), []) == Next(s, a);
  }

  /** The request's next call ends as `call` says; `org` is the organisation picked, if one is, `pass` a verdict. */
  lemma StepWith(s: State, rid: nat, call: CallResult, org: nat, pass: bool)
      returns (o: Oracle, run: seq<Action>, t: State)
    requires Inv(s) && rid in s.procs && !s.procs[rid].Done?
    ensures o.newId !in s.issued && o == Oracle(call, o.newId, org, pass)
    ensures run == [Advance(rid, o)] && Leads(s, run, t) && t == AdvanceProc(s, rid, o)
  {
    hide Inv;
    hide AdvanceProc;
    var n := FreshId(s.issued);
    o := Oracle(call, n, org, pass);
    run := [Advance(rid, o)];
    t := Next(s, run[0]);
    StartLeads(s, run[0]);
  }

  lemma StepWell(s: State, rid: nat, org: nat) returns (o: Oracle, run: seq<Action>, t: State)
    requires Inv(s) && rid in s.procs && !s.procs[rid].Done?
    ensures o.newId !in s.issued && o == Oracle(Fine, o.newId, org, true)
    ensures run == [Advance(rid, o)] && Leads(s, run, t) && t == AdvanceProc(s, rid, o)
  {
    o, run, t := StepWith(s, rid, Fine, org, true);
  }
}
