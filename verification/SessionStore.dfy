/**
 The in-memory session store of internal/session/store.go: the sequential object, and the threads that
 share it.
 */
module SessionStore {
  import opened Options
  import opened Clock
  import opened Sessions

  type Id = string

  datatype Entry = Entry(id: Id, session: Session)

  type Table = map<Id, Session>

  /** The sessions a sweep at `now` keeps. */
  function Live(m: Table, now: Time): Table {
    map id | id in m && !Expired(m[id], now) :: m[id]
  }

  /** The answer of a store that never cleans up and only looks at the expiry when it is asked. */
  function SimpleGet(m: Table, id: Id, now: Time): Option<Session> {
    if id in m && !Expired(m[id], now) then Some(m[id]) else None
  }

  /** `data` is `simple` with some of the sessions that have expired by `now` removed. */
  predicate Cleaned(data: Table, simple: Table, now: Time) {
    && (forall id | id in data :: id in simple && data[id] == simple[id])
    && (forall id | id in simple && id !in data :: Expired(simple[id], now))
  }

  /** What cleaning removes, no later reader of either store can tell. */
  lemma CleaningIsInvisible(data: Table, simple: Table, t: Time, now: Time)
    requires Cleaned(data, simple, t) && t <= now
    ensures Live(data, now) == Live(simple, now)
    ensures forall id :: SimpleGet(data, id, now) == SimpleGet(simple, id, now)
  {
  }

  /** The session may still be used at `now`: it never expires, or its last instant is not past. */
  predicate Usable(s: Session, now: Time) {
    match s.expiry
    case None => true
    case Some(last) => now <= last
  }

  // ---------- The object ----------

  class Store {
    var data: Table

    constructor ()
      ensures data == map[]
    {
      data := map[];
    }

    /** `id` is the freshly drawn opaque identifier. */
    method Create(sess: Session, id: Id) returns (r: Id)
      modifies this
      ensures r == id && data == old(data)[id := sess]
    {
      data := data[id := sess];
      r := id;
    }

    /** `now` is read between the lookup and the deletion. */
    method Get(id: Id, now: Time) returns (r: Option<Session>)
      modifies this
      ensures r == SimpleGet(old(data), id, now)
      ensures r == if id in old(data) && Usable(old(data)[id], now) then Some(old(data)[id]) else None
      ensures forall other | other != id :: other in data <==> other in old(data)
      ensures id in data <==> r.Some?
      ensures data == if id in old(data) && Expired(old(data)[id], now) then old(data) - {id} else old(data)
      ensures forall simple :: Cleaned(old(data), simple, now) ==> Cleaned(data, simple, now)
    {
      if id !in data {
        return None;
      }
      var sess := data[id];
      if Expired(sess, now) {
        data := data - {id};
        return None;
      }
      return Some(sess);
    }

    /** The reader behind a cookie: it looks at the clock once more; an absent cookie is the empty identifier. */
    method ReadSession(cookie: Id, now: Time, later: Time) returns (r: Option<Session>)
      requires now <= later
      modifies this
      ensures r == if cookie == "" then None else SimpleGet(old(data), cookie, later)
      ensures r == if cookie != "" && cookie in old(data) && Usable(old(data)[cookie], later)
                   then Some(old(data)[cookie]) else None
      ensures forall simple :: Cleaned(old(data), simple, now) ==> Cleaned(data, simple, now)
    {
      if cookie == "" {
        return None;
      }
      r := Get(cookie, now);
      if r.Some? && Expired(r.value, later) {
        return None;
      }
    }

    method Delete(id: Id)
      modifies this
      ensures data == old(data) - {id}
    {
      data := data - {id};
    }

    method Sweep(now: Time)
      modifies this
      ensures data == Live(old(data), now)
      ensures forall id :: id in data <==> id in old(data) && Usable(old(data)[id], now)
      ensures forall id | id in data :: data[id] == old(data)[id]
      ensures forall simple :: Cleaned(old(data), simple, now) ==> Cleaned(data, simple, now)
    {
      var todo := data.Keys;
      while todo != {}
        invariant todo <= data.Keys <= old(data).Keys
        invariant forall id | id in data :: data[id] == old(data)[id]
        invariant forall id | id in old(data) && id !in todo :: id in data <==> !Expired(old(data)[id], now)
        decreases todo
      {
        var id :| id in todo;
        if Expired(data[id], now) {
          data := data - {id};
        }
        todo := todo - {id};
      }
    }

    method List() returns (out: seq<Entry>)
      ensures |out| == |data|
      ensures forall e :: e in out <==> e.id in data && e.session == data[e.id]
      ensures forall i, j | 0 <= i < j < |out| :: out[i].id != out[j].id
    {
      out := [];
      var todo := data.Keys;
      while todo != {}
        invariant todo <= data.Keys && |out| + |todo| == |data|
        invariant forall e :: e in out <==> e.id in data && e.id !in todo && e.session == data[e.id]
        invariant forall i, j | 0 <= i < j < |out| :: out[i].id != out[j].id
        decreases todo
      {
        var id :| id in todo;
        assert Entry(id, data[id]) !in out;
        assert forall i | 0 <= i < |out| :: out[i] in out;
        out := out + [Entry(id, data[id])];
        todo := todo - {id};
      }
    }
  }

  // ---------- The threads ----------

  /** Where a thread is between two of its accesses to the store or the clock. */
  datatype Thread =
    | Lookup(id: Id, cookie: bool, since: nat)
    | Check(id: Id, cookie: bool, since: nat, sess: Session, seen: nat)
    | Evict(id: Id, cookie: bool, since: nat, at: nat)
    | Recheck(id: Id, since: nat, sess: Session, seen: nat)  // the second test, made by ReadSession
    | Sweeping(now: Time)

  /** The clock and the simple store at one instant. */
  datatype Moment = Moment(clock: Time, simple: Table)

  /**
   A finished read: it began at instant `since` and returned `result` at instant `until`; `cookie` says that it
   was ReadSession's.
   */
  datatype Answer = Answer(id: Id, cookie: bool, since: nat, until: nat, result: Option<Session>)

  /**
   The shared store, the threads, the identifiers drawn so far, and the record of the run: the simple
   store at every instant and the answers given.
   */
  datatype State = State(
    clock: Time, data: Table, threads: map<nat, Thread>, issued: set<Id>,
    past: seq<Moment>, answers: seq<Answer>)

  datatype Action =
    | Tick(to: Time)
    | Create(id: Id, sess: Session)
    | Delete(id: Id)
    | BeginRead(tid: nat, id: Id, cookie: bool)  // Store.Get, or ReadSession when `cookie`
    | BeginSweep(tid: nat)
    | Advance(tid: nat)

  predicate Initial(s: State) {
    && s.threads == map[] && s.answers == []
    && s.past == [Moment(s.clock, s.data)]
    && s.data.Keys <= s.issued
  }

  predicate Enabled(s: State, a: Action) {
    match a
    case Tick(to) => s.clock <= to
    case Create(id, _) => id !in s.issued
    case Delete(_) => true
    case BeginRead(tid, _, _) => tid !in s.threads
    case BeginSweep(tid) => tid !in s.threads
    case Advance(tid) => tid in s.threads
  }

  function Simple(s: State): Table
    requires s.past != []
  {
    s.past[|s.past| - 1].simple
  }

  /** The simple store sees creations and deletions, and nothing else. */
  function SimpleNext(m: Table, a: Action): Table {
    match a
    case Create(id, sess) => m[id := sess]
    case Delete(id) => m - {id}
    case _ => m
  }

  /** One atomic step; the instant after it is number `|s.past|`. */
  function Next(s: State, a: Action): State
    requires s.past != [] && Enabled(s, a)
  {
    var t := match a
      case Tick(to) => s.(clock := to)
      case Create(id, sess) => s.(data := s.data[id := sess], issued := s.issued + {id})
      case Delete(id) => s.(data := s.data - {id})
      case BeginRead(tid, id, cookie) => s.(threads := s.threads[tid := Lookup(id, cookie, |s.past|)])
      case BeginSweep(tid) => s.(threads := s.threads[tid := Sweeping(s.clock)])
      case Advance(tid) => AdvanceThread(s, tid);
    t.(past := s.past + [Moment(t.clock, SimpleNext(Simple(s), a))])
  }

  function Return(s: State, tid: nat, id: Id, cookie: bool, since: nat, result: Option<Session>): State {
    s.(threads := s.threads - {tid}, answers := s.answers + [Answer(id, cookie, since, |s.past|, result)])
  }

  function AdvanceThread(s: State, tid: nat): State
    requires tid in s.threads
  {
    match s.threads[tid]
    case Lookup(id, cookie, since) =>
      if id in s.data
      then s.(threads := s.threads[tid := Check(id, cookie, since, s.data[id], |s.past|)])
      else Return(s, tid, id, cookie, since, None)
    case Check(id, cookie, since, sess, seen) =>
      if Expired(sess, s.clock) then s.(threads := s.threads[tid := Evict(id, cookie, since, |s.past|)])
      else if cookie then s.(threads := s.threads[tid := Recheck(id, since, sess, seen)])
      else Return(s, tid, id, cookie, since, Some(sess))
    case Evict(id, cookie, since, _) =>
      Return(s.(data := s.data - {id}), tid, id, cookie, since, None)
    case Recheck(id, since, sess, seen) =>
      Return(s, tid, id, true, since, if Expired(sess, s.clock) then None else Some(sess))
    case Sweeping(now) =>
      s.(data := Live(s.data, now), threads := s.threads - {tid})
  }

  // ---------- What every step keeps ----------

  /** What the simple store would have answered at instant `c`. */
  function AnswerAt(past: seq<Moment>, c: nat, id: Id): Option<Session>
    requires c < |past|
  {
    SimpleGet(past[c].simple, id, past[c].clock)
  }

  predicate Explained(past: seq<Moment>, a: Answer) {
    && a.since <= a.until < |past|
    && (a.cookie && a.result.Some? ==> Usable(a.result.value, past[a.until].clock))
    && exists c :: a.since <= c <= a.until && AnswerAt(past, c, a.id) == a.result
  }

  /** The session a thread holds is still the one stored under `id`, if any is. */
  predicate Holds(s: State, id: Id, sess: Session)
    requires s.past != []
  {
    id in s.issued && (id in Simple(s) ==> Simple(s)[id] == sess)
  }

  predicate ThreadOk(s: State, t: Thread)
    requires s.past != []
  {
    match t
    case Lookup(_, _, since) => since < |s.past|
    case Check(id, _, since, sess, seen) =>
      && since <= seen < |s.past| && Holds(s, id, sess)
      && id in s.past[seen].simple && s.past[seen].simple[id] == sess
    case Evict(id, _, since, at) =>
      && since <= at < |s.past| && AnswerAt(s.past, at, id) == None
      && id in s.issued && (id in Simple(s) ==> Expired(Simple(s)[id], s.clock))
    case Recheck(id, since, sess, seen) =>
      && since <= seen < |s.past| && Holds(s, id, sess)
      && AnswerAt(s.past, seen, id) == Some(sess)
    case Sweeping(now) => now <= s.clock
  }

  predicate Inv(s: State) {
    && s.past != [] && s.past[|s.past| - 1].clock == s.clock
    && (forall i | 0 <= i < |s.past| :: s.past[i].clock <= s.clock)
    && Simple(s).Keys <= s.issued
    && Cleaned(s.data, Simple(s), s.clock)
    && (forall tid | tid in s.threads :: ThreadOk(s, s.threads[tid]))
    && (forall i | 0 <= i < |s.answers| :: Explained(s.past, s.answers[i]))
  }

  /** Later states know more of the past, and never give an identifier a second session. */
  predicate Later(s: State, t: State)
    requires s.past != []
  {
    && s.past <= t.past && s.clock <= t.clock && s.issued <= t.issued
    && (forall id | id in s.issued && id in Simple(t) :: id in Simple(s) && Simple(t)[id] == Simple(s)[id])
  }

  lemma ThreadStable(s: State, t: State, th: Thread)
    requires s.past != [] && Later(s, t) && ThreadOk(s, th)
    ensures ThreadOk(t, th)
  {
  }

  lemma ExplainedStable(p: seq<Moment>, q: seq<Moment>, a: Answer)
    requires p <= q && Explained(p, a)
    ensures Explained(q, a)
  {
    var c :| a.since <= c <= a.until && AnswerAt(p, c, a.id) == a.result;
    assert AnswerAt(q, c, a.id) == a.result;
  }

  lemma NextIsLater(s: State, a: Action)
    requires Inv(s) && Enabled(s, a)
    ensures Later(s, Next(s, a))
  {
  }

  /** The thread that moves is left in order, or its answer is explained. */
  lemma AdvanceIsExplained(s: State, tid: nat)
    requires Inv(s) && Enabled(s, Advance(tid))
    ensures var t := Next(s, Advance(tid));
            && Cleaned(t.data, Simple(t), t.clock)
            && (tid in t.threads ==> ThreadOk(t, t.threads[tid]))
            && (|t.answers| > |s.answers| ==> Explained(t.past, t.answers[|s.answers|]))
  {
    var t, n := Next(s, Advance(tid)), |s.past|;
    assert ThreadOk(s, s.threads[tid]);
    match s.threads[tid]
    case Lookup(id, _, _) =>
      assert id !in s.data ==> AnswerAt(t.past, n, id) == None;
    case Check(id, _, _, sess, seen) =>
      assert Expired(sess, s.clock) ==> AnswerAt(t.past, n, id) == None;
      assert !Expired(sess, s.clock) ==> AnswerAt(t.past, seen, id) == Some(sess);
    case Evict(id, _, _, at) =>
      assert AnswerAt(t.past, at, id) == None;
    case Recheck(id, _, sess, seen) =>
      assert Expired(sess, s.clock) ==> AnswerAt(t.past, n, id) == None;
      assert !Expired(sess, s.clock) ==> AnswerAt(t.past, seen, id) == Some(sess);
    case Sweeping(_) =>
  }

  lemma StoreKept(s: State, a: Action)
    requires Inv(s) && Enabled(s, a) && !a.Advance?
    ensures var t := Next(s, a);
            && Cleaned(t.data, Simple(t), t.clock)
            && (forall tid | tid in t.threads && tid !in s.threads :: ThreadOk(t, t.threads[tid]))
  {
  }

  lemma ThreadsKept(s: State, a: Action)
    requires Inv(s) && Enabled(s, a)
    ensures forall tid | tid in Next(s, a).threads :: ThreadOk(Next(s, a), Next(s, a).threads[tid])
  {
    hide Cleaned;
    hide ThreadOk;
    hide Explained;
    var t := Next(s, a);
    NextIsLater(s, a);
    if a.Advance? {
      AdvanceIsExplained(s, a.tid);
    } else {
      StoreKept(s, a);
    }
    forall tid | tid in t.threads ensures ThreadOk(t, t.threads[tid]) {
      if tid in s.threads && t.threads[tid] == s.threads[tid] {
        ThreadStable(s, t, s.threads[tid]);
      }
    }
  }

  lemma AnswersKept(s: State, a: Action)
    requires Inv(s) && Enabled(s, a)
    ensures forall i | 0 <= i < |Next(s, a).answers| :: Explained(Next(s, a).past, Next(s, a).answers[i])
  {
    hide Cleaned;
    hide ThreadOk;
    hide Explained;
    var t := Next(s, a);
    if a.Advance? {
      AdvanceIsExplained(s, a.tid);
    }
    forall i | 0 <= i < |t.answers| ensures Explained(t.past, t.answers[i]) {
      if i < |s.answers| {
        ExplainedStable(s.past, t.past, s.answers[i]);
      }
    }
  }

  lemma NextKeepsInv(s: State, a: Action)
    requires Inv(s) && Enabled(s, a)
    ensures Inv(Next(s, a))
  {
    hide Cleaned;
    hide ThreadOk;
    hide Explained;
    if a.Advance? {
      AdvanceIsExplained(s, a.tid);
    } else {
      StoreKept(s, a);
    }
    ThreadsKept(s, a);
    AnswersKept(s, a);
  }

  // ---------- Whole runs ----------

  predicate ValidRun(s: State, run: seq<Action>)
    requires s.past != []
    decreases run
  {
    run == [] || (Enabled(s, run[0]) && ValidRun(Next(s, run[0]), run[1..]))
  }

  function Execute(s: State, run: seq<Action>): (t: State)
    requires s.past != [] && ValidRun(s, run)
    ensures |t.past| == |s.past| + |run|
    decreases run
  {
    if run == [] then s else Execute(Next(s, run[0]), run[1..])
  }

  lemma {:induction false} RunKeepsInv(s: State, run: seq<Action>)
    requires s.past != [] && ValidRun(s, run) && Inv(s)
    ensures Inv(Execute(s, run))
    decreases run
  {
    if run != [] {
      NextKeepsInv(s, run[0]);
      RunKeepsInv(Next(s, run[0]), run[1..]);
    }
  }

  /** The recorded past is the run of the simple store alone. */
  lemma {:induction false} PastIsSimpleRun(s: State, run: seq<Action>, k: nat)
    requires s.past != [] && ValidRun(s, run) && k < |run|
    ensures var t, n := Execute(s, run), |s.past|;
            && t.past[..n] == s.past
            && t.past[n + k].simple == SimpleNext(t.past[n + k - 1].simple, run[k])
    decreases run
  {
    var u := Next(s, run[0]);
    var t, n := Execute(s, run), |s.past|;
    if |run| == 1 {
      assert Execute(u, run[1..]) == u;
    } else {
      PastIsSimpleRun(u, run[1..], if k == 0 then 0 else k - 1);
      assert t.past[..n] == t.past[..n + 1][..n];
      assert forall i | 0 <= i <= n :: t.past[i] == t.past[..n + 1][i] == u.past[i];
    }
  }

  /**
   Every read, of any thread in any interleaving with creations, deletions, other reads and sweeps,
   has an instant between its start and its return at which the simple store gives the same answer.
   */
  lemma ReadsAreLinearizable(s: State, run: seq<Action>, i: nat) returns (c: nat)
    requires Initial(s) && ValidRun(s, run) && i < |Execute(s, run).answers|
    ensures var t := Execute(s, run); var a := t.answers[i];
            a.since <= c <= a.until < |t.past| &&
            SimpleGet(t.past[c].simple, a.id, t.past[c].clock) == a.result
  {
    RunKeepsInv(s, run);
    var t := Execute(s, run);
    assert Explained(t.past, t.answers[i]);
    c :| t.answers[i].since <= c <= t.answers[i].until && AnswerAt(t.past, c, t.answers[i].id) == t.answers[i].result;
  }

  /** What a reading thread reads, and since when. */
  function Reading(th: Thread): Option<(Id, bool, nat)> {
    match th
    case Lookup(id, cookie, since) => Some((id, cookie, since))
    case Check(id, cookie, since, _, _) => Some((id, cookie, since))
    case Evict(id, cookie, since, _) => Some((id, cookie, since))
    case Recheck(id, since, _, _) => Some((id, true, since))
    case Sweeping(_) => None
  }

  lemma NextAddsMoment(s: State, a: Action)
    requires s.past != [] && Enabled(s, a)
    ensures |Next(s, a).past| == |s.past| + 1
  {
  }

  lemma ThreadsReadOn(s: State, a: Action, tid: nat)
    requires s.past != [] && Enabled(s, a) && tid in Next(s, a).threads
    ensures var now := Reading(Next(s, a).threads[tid]);
            || now == None || (tid in s.threads && now == Reading(s.threads[tid]))
            || (a.BeginRead? && a.tid == tid && now == Some((a.id, a.cookie, |s.past|)))
  {
  }

  lemma AnswersAppend(s: State, a: Action)
    requires s.past != [] && Enabled(s, a)
    ensures var t := Next(s, a);
            || t.answers == s.answers
            || (a.Advance? && Reading(s.threads[a.tid]).Some? && |t.answers| == |s.answers| + 1 &&
                var x := t.answers[|s.answers|];
                && x.until == |s.past| && Reading(s.threads[a.tid]) == Some((x.id, x.cookie, x.since))
                && s.answers <= t.answers)
  {
  }

  lemma {:induction false} AnswersStay(s: State, run: seq<Action>)
    requires s.past != [] && ValidRun(s, run)
    ensures s.answers <= Execute(s, run).answers
    decreases run
  {
    hide Next;
    if run != [] {
      NextAddsMoment(s, run[0]);
      AnswersAppend(s, run[0]);
      AnswersStay(Next(s, run[0]), run[1..]);
    }
  }

  /** The answer was returned by step `k` of thread `tid`, which was reading already, or began at step `j`. */
  predicate Spanned(s: State, run: seq<Action>, a: Answer, tid: nat, j: int, k: nat) {
    && j < k < |run| && run[k] == Advance(tid) && a.until == |s.past| + k
    && if j < 0 then tid in s.threads && Reading(s.threads[tid]) == Some((a.id, a.cookie, a.since))
       else run[j].BeginRead? && run[j].tid == tid && run[j].id == a.id && run[j].cookie == a.cookie &&
            a.since == |s.past| + j
  }

  lemma {:induction false} AnswersSpan(s: State, run: seq<Action>, i: nat) returns (tid: nat, j: int, k: nat)
    requires s.past != [] && ValidRun(s, run) && |s.answers| <= i < |Execute(s, run).answers|
    ensures Spanned(s, run, Execute(s, run).answers[i], tid, j, k)
    decreases run
  {
    hide Next;
    assert run != [];
    var u := Next(s, run[0]);
    AnswersAppend(s, run[0]);
    AnswersStay(u, run[1..]);
    NextAddsMoment(s, run[0]);
    if i < |u.answers| {
      tid, j, k := run[0].tid, -1, 0;
    } else {
      tid, j, k := AnswersSpan(u, run[1..], i);
      if j < 0 {
        ThreadsReadOn(s, run[0], tid);
        j := if tid in s.threads && Reading(u.threads[tid]) == Reading(s.threads[tid]) then -1 else 0;
      } else {
        j := j + 1;
      }
      k := k + 1;
    }
  }

  /** The interval of an answer is that of its read: from the step that began it to the step that returned it. */
  lemma AnswersSpanTheirReads(s: State, run: seq<Action>, i: nat) returns (tid: nat, j: nat, k: nat)
    requires Initial(s) && ValidRun(s, run) && i < |Execute(s, run).answers|
    ensures var a := Execute(s, run).answers[i];
            && j < k < |run| && run[k] == Advance(tid) && a.until == 1 + k && a.since == 1 + j
            && run[j].BeginRead? && run[j].tid == tid && run[j].id == a.id && run[j].cookie == a.cookie
  {
    var from;
    tid, from, k := AnswersSpan(s, run, i);
    j := from;
  }

  /** What ReadSession returns may still be used at the instant it returns. */
  lemma {:induction false} CookiesAreCheckedLast(s: State, run: seq<Action>, i: nat)
    requires Initial(s) && ValidRun(s, run) && i < |Execute(s, run).answers|
    ensures var t := Execute(s, run); var a := t.answers[i];
            a.cookie && a.result.Some? ==> a.until < |t.past| && Usable(a.result.value, t.past[a.until].clock)
  {
    RunKeepsInv(s, run);
    assert Explained(Execute(s, run).past, Execute(s, run).answers[i]);
  }

  /** The cleaning is done: a sweep leaves only what was usable at its tick, a read not what it found otherwise. */
  lemma CleaningCleans(s: State, tid: nat)
    requires s.past != [] && Enabled(s, Advance(tid))
    ensures var t := Next(s, Advance(tid));
            && (s.threads[tid].Sweeping? ==>
                  forall id :: id in t.data <==> id in s.data && Usable(s.data[id], s.threads[tid].now))
            && (s.threads[tid].Evict? ==> s.threads[tid].id !in t.data)
            && (s.threads[tid].Check? && !Usable(s.threads[tid].sess, s.clock) ==>
                  tid in t.threads && t.threads[tid].Evict? && t.threads[tid].id == s.threads[tid].id)
  {
  }

  /** The tick of a sweep is the clock at its start. */
  lemma SweepsReadTheClock(s: State, tid: nat)
    requires s.past != [] && Enabled(s, BeginSweep(tid))
    ensures var t := Next(s, BeginSweep(tid)); tid in t.threads && t.threads[tid] == Sweeping(t.clock)
  {
  }

  /** At every instant the store and the simple store agree on the sessions that are still alive. */
  lemma {:induction false} StoreShowsLiveSessions(s: State, run: seq<Action>)
    requires Initial(s) && ValidRun(s, run)
    ensures var t := Execute(s, run); Live(t.data, t.clock) == Live(Simple(t), t.clock)
  {
    RunKeepsInv(s, run);
    var t := Execute(s, run);
    CleaningIsInvisible(t.data, Simple(t), t.clock, t.clock);
  }
}
