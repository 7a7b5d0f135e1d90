/**
 The SearchOrgUsers query of database/queries/users.sql, operator by operator: the fan-out of the filter
 array, the null-ignoring aggregates, the LEFT JOIN LATERAL, both GROUP BYs, HAVING, the window count,
 the order and the clamped paging.
 */
module Search {
  import opened Options
  import opened Text
  import opened Ilike

  // ---------- JSON ----------

  datatype Json =
    | Null | Bool(b: bool) | Num(printed: string) | Str(s: string)
    | Arr(items: seq<Json>) | Obj(fields: map<string, Json>)

  const MAX_INT4: int := 0x7FFF_FFFF

  /** From the database: the text of a composite JSON value, and the cast of a text to int4 (`None` is its error). */
  datatype Database = Database(printJson: Json -> string, toInt4: string -> Option<int>)

  /** The operator `->` with a key. */
  function Get(j: Json, key: string): Option<Json> {
    if j.Obj? && key in j.fields then Some(j.fields[key]) else None
  }

  /** The operator `->>` with a key. */
  function GetText(db: Database, j: Json, key: string): Option<string> {
    match Get(j, key)
    case None => None
    case Some(Null) => None
    case Some(Bool(b)) => Some(if b then "true" else "false")
    case Some(Num(t)) => Some(t)
    case Some(Str(t)) => Some(t)
    case Some(v) => Some(db.printJson(v))
  }

  function Coalesce<T>(x: Option<T>, default: T): T {
    if x.Some? then x.value else default
  }

  // ---------- Parameters ----------

  datatype Params = Params(pageSize: int, pageNum: int, filters: Json)

  function IntParam(db: Database, payload: Json, key: string, default: int): Option<int> {
    match GetText(db, payload, key)
    case None => Some(default)
    case Some(t) => db.toInt4(t)
  }

  function Least(a: int, b: int): int { if a < b then a else b }
  function Greatest(a: int, b: int): int { if a > b then a else b }

  function ParamsOf(db: Database, payload: Json): (r: Option<Params>)
    ensures r.Some? ==> 1 <= r.value.pageSize <= 100 && 0 <= r.value.pageNum
  {
    var size, num := IntParam(db, payload, "pageSize", 10), IntParam(db, payload, "pageNum", 0);
    if size == None || num == None then None
    else Some(Params(Greatest(1, Least(size.value, 100)), Greatest(0, num.value),
                     Coalesce(Get(payload, "filterFields"), Arr([]))))
  }

  // ---------- Conditions ----------

  datatype Column = Email | Name

  datatype Cond = Cond(col: Option<Column>, op: string, val: string)

  function ColumnOf(field: string): Option<Column> {
    if field == "email" then Some(Email)
    else if field == "name" || field == "firstname" || field == "lastname" then Some(Name)
    else None
  }

  function CondOf(db: Database, j: Json): Cond {
    Cond(ColumnOf(ToLower(Coalesce(GetText(db, j, "field"), ""))),
         ToLower(Coalesce(GetText(db, j, "operation"), "eq")),
         Coalesce(GetText(db, j, "value"), ""))
  }

  /** The rows one filter element fans out to: itself, then its alternatives. `None` if those are no array. */
  function CondsOf(db: Database, elem: Json): (r: Option<seq<Cond>>)
    ensures r.Some? ==> r.value != []
  {
    var alts := Coalesce(Get(elem, "alternatives"), Arr([]));
    if !alts.Arr? then None
    else Some([CondOf(db, elem)] + seq(|alts.items|, i requires 0 <= i < |alts.items| => CondOf(db, alts.items[i])))
  }

  type Filter = seq<seq<Cond>>

  function GroupsOf(db: Database, elems: seq<Json>): (r: Option<Filter>)
    ensures r.Some? ==> |r.value| == |elems|
    ensures r.Some? ==> forall i | 0 <= i < |elems| :: r.value[i] != [] && CondsOf(db, elems[i]) == Some(r.value[i])
    ensures r.None? ==> exists i :: 0 <= i < |elems| && CondsOf(db, elems[i]) == None
  {
    if elems == [] then Some([])
    else
      var n := |elems| - 1;
      var init, last := GroupsOf(db, elems[..n]), CondsOf(db, elems[n]);
      if init == None || last == None then None else Some(init.value + [last.value])
  }

  // ---------- Rows and three-valued logic ----------

  datatype Row = Row(id: nat, email: string, name: Option<string>, createdAt: int)

  type Tri = Option<bool>

  function Not3(a: Tri): Tri { if a.Some? then Some(!a.value) else None }

  function Or3(a: Tri, b: Tri): Tri {
    if a == Some(true) || b == Some(true) then Some(true)
    else if a == None || b == None then None
    else Some(false)
  }

  /** BOOL_OR: nulls are ignored; null if nothing is left. */
  function BoolOr(xs: seq<Tri>): Tri {
    if xs == [] then None
    else
      var rest, x := BoolOr(xs[..|xs| - 1]), xs[|xs| - 1];
      if x == None then rest else if rest == None then x else Some(rest.value || x.value)
  }

  function BoolAnd(xs: seq<Tri>): Tri {
    if xs == [] then None
    else
      var rest, x := BoolAnd(xs[..|xs| - 1]), xs[|xs| - 1];
      if x == None then rest else if rest == None then x else Some(rest.value && x.value)
  }

  function Test(op: string, field: string, val: string): Matched {
    if op == "cn" then Match(field, "%" + val + "%")
    else if op == "sw" then Match(field, val + "%")
    else if op == "ew" then Match(field, "%" + val)
    else if field == val then Yes else No
  }

  /** The test of one condition holds, read without a thought for errors. */
  predicate Holds(op: string, field: string, val: string) {
    if op == "cn" then ILike(field, "%" + val + "%")
    else if op == "sw" then ILike(field, val + "%")
    else if op == "ew" then ILike(field, "%" + val)
    else field == val
  }

  function TruthOf(m: Matched): Option<Tri> {
    match m case Yes => Some(Some(true)) case No => Some(Some(false)) case Raised => None
  }

  /** The CASE expression of one condition on one row; `None` is an error, a null name is no error. */
  function CaseOf(b: Row, c: Cond): Option<Tri> {
    match c.col
    case Some(Email) => TruthOf(Test(c.op, b.email, c.val))
    case Some(Name) => if b.name.Some? then TruthOf(Test(c.op, b.name.value, c.val)) else Some(None)
    case None => Some(Some(false))
  }

  // ---------- Grouping ----------

  /** The distinct keys, in order of first appearance. */
  function Keys<K(==), V>(rows: seq<(K, V)>): seq<K> {
    if rows == [] then []
    else
      var rest, k := Keys(rows[..|rows| - 1]), rows[|rows| - 1].0;
      if k in rest then rest else rest + [k]
  }

  /** The values under one key. */
  function Values<K(==), V>(rows: seq<(K, V)>, k: K): seq<V> {
    if rows == [] then []
    else Values(rows[..|rows| - 1], k) + if rows[|rows| - 1].0 == k then [rows[|rows| - 1].1] else []
  }

  function Tag<K, V>(k: K, vs: seq<V>): seq<(K, V)> {
    seq(|vs|, i requires 0 <= i < |vs| => (k, vs[i]))
  }

  /** A lateral join: each key with each of its own rows. */
  function Lateral<K, V>(ks: seq<K>, vss: seq<seq<V>>): seq<(K, V)>
    requires |ks| == |vss|
  {
    if ks == [] then []
    else Lateral(ks[..|ks| - 1], vss[..|ks| - 1]) + Tag(ks[|ks| - 1], vss[|ks| - 1])
  }

  function Map<A, B>(f: A -> B, xs: seq<A>): (ys: seq<B>)
    ensures |ys| == |xs| && forall i | 0 <= i < |xs| :: ys[i] == f(xs[i])
  {
    seq(|xs|, i requires 0 <= i < |xs| => f(xs[i]))
  }

  /** An error in one of them is an error of all. */
  function Collect<T>(xs: seq<Option<T>>): (r: Option<seq<T>>)
    ensures r.None? <==> exists i :: 0 <= i < |xs| && xs[i].None?
    ensures r.Some? ==> |r.value| == |xs| && forall i | 0 <= i < |xs| :: xs[i] == Some(r.value[i])
  {
    if xs == [] then Some([])
    else
      var n := |xs| - 1;
      var init := Collect(xs[..n]);
      if init == None || xs[n] == None then None else Some(init.value + [xs[n].value])
  }

  // ---------- The pipeline ----------

  /** One row of the lateral subquery: a filter group, aggregated. */
  datatype GroupRow = GroupRow(groupMatch: Tri, hasRecognized: Tri)

  /** The filter array with its elements numbered, cross-joined with the conditions of each element. */
  function FanOut(filter: Filter): seq<(nat, Cond)> {
    Lateral(RowNumbers(|filter|), filter)
  }

  function RowNumbers(n: nat): seq<nat> { seq<nat>(n, (i: nat) => i + 1) }

  function Aggregate(b: Row, conds: seq<Cond>): Option<GroupRow> {
    match Collect(Map((c: Cond) => CaseOf(b, c), conds))
    case None => None
    case Some(cases) => Some(GroupRow(BoolOr(cases), BoolOr(Map((c: Cond) => Some(c.col.Some?), conds))))
  }

  /** The subquery for one base row: the fan-out grouped by index. */
  function Subquery(b: Row, filter: Filter): Option<seq<GroupRow>> {
    var rows := FanOut(filter);
    Collect(Map((idx: nat) => Aggregate(b, Values(rows, idx)), Keys(rows)))
  }

  /** The outer lateral join: a base row without group rows is kept, with nulls. */
  function LeftJoined(b: Row, filter: Filter): (r: Option<seq<Option<GroupRow>>>)
    ensures r.Some? ==> r.value != []
  {
    match Subquery(b, filter)
    case None => None
    case Some(g) => Some(if g == [] then [None] else Map((x: GroupRow) => Some(x), g))
  }

  /** The filter array and its alternatives; `None` if something that should be an array is none. */
  function ReadFilter(db: Database, filters: Json): (r: Option<Filter>)
    ensures r.Some? ==> forall i | 0 <= i < |r.value| :: r.value[i] != []
    ensures r.None? <==> !filters.Arr? || exists i :: 0 <= i < |filters.items| && CondsOf(db, filters.items[i]) == None
  {
    if filters.Arr? then GroupsOf(db, filters.items) else None
  }

  /** The lateral join is evaluated for each base row, the filter array with it. */
  function Joined(db: Database, b: Row, filters: Json): (r: Option<seq<Option<GroupRow>>>)
    ensures r.Some? ==> r.value != []
  {
    match ReadFilter(db, filters)
    case None => None
    case Some(filter) => LeftJoined(b, filter)
  }

  function HavingTerm(g: Option<GroupRow>): Tri {
    var row := if g.Some? then g.value else GroupRow(None, None);
    Or3(Not3(row.hasRecognized), row.groupMatch)
  }

  function Having(gs: seq<Option<GroupRow>>): bool {
    Coalesce(BoolAnd(Map(HavingTerm, gs)), true)
  }

  /** The rows of `base` that satisfy `p`, in order. */
  function Select(base: seq<Row>, p: Row -> bool): seq<Row> {
    if base == [] then []
    else Select(base[..|base| - 1], p) + if p(base[|base| - 1]) then [base[|base| - 1]] else []
  }

  /** The join, grouped by base row, with the HAVING clause. */
  function Filtered(db: Database, base: seq<Row>, filters: Json): Option<seq<Row>> {
    match Collect(Map((b: Row) => Joined(db, b, filters), base))
    case None => None
    case Some(groups) =>
      var joined := Lateral(base, groups);
      Some(Select(Keys(joined), (b: Row) => Having(Values(joined, b))))
  }

  function MemberOf(memberships: set<(nat, nat)>, org: nat): Row -> bool {
    (u: Row) => (org, u.id) in memberships
  }

  /** The members of the organisation: the membership table has at most one row for an org and a user. */
  function Base(users: seq<Row>, memberships: set<(nat, nat)>, org: nat): seq<Row> {
    Select(users, MemberOf(memberships, org))
  }

  /** Newest first; rows created at the same time keep the order they come in. */
  function SortDesc(rows: seq<Row>): seq<Row> {
    if rows == [] then [] else InsertDesc(rows[|rows| - 1], SortDesc(rows[..|rows| - 1]))
  }

  function InsertDesc(x: Row, rows: seq<Row>): seq<Row> {
    var n := |rows| - 1;
    if rows == [] || rows[n].createdAt >= x.createdAt then rows + [x]
    else InsertDesc(x, rows[..n]) + [rows[n]]
  }

  /** The page asked for; the offset is an int4 product, so a large one is an error. */
  function Page(rows: seq<Row>, size: nat, num: nat): (r: Option<seq<Row>>)
    ensures r.None? <==> size * num > MAX_INT4
    ensures r.Some? ==> |r.value| <= size
  {
    var offset := size * num;
    if offset > MAX_INT4 then None
    else
      var lo := Least(offset, |rows|);
      Some(rows[lo..Least(lo + size, |rows|)])
  }

  type Counted = (Row, nat)

  /** The window count: every row of the page carries the number of all matches. */
  function WithTotal(page: Option<seq<Row>>, total: nat): Option<seq<Counted>> {
    match page
    case None => None
    case Some(rows) => Some(Map((r: Row) => (r, total), rows))
  }

  /** The query; `None` is an error raised by the database. */
  function SearchOrgUsers(
      db: Database, users: seq<Row>, memberships: set<(nat, nat)>, org: nat, payload: Json): Option<seq<Counted>>
  {
    match ParamsOf(db, payload)
    case None => None
    case Some(p) =>
      match Filtered(db, Base(users, memberships, org), p.filters)
      case None => None
      case Some(rows) => WithTotal(Page(SortDesc(rows), p.pageSize, p.pageNum), |rows|)
  }

  // ---------- Grouping undoes a lateral join ----------

  predicate Distinct<T(==)>(xs: seq<T>) {
    forall i, j | 0 <= i < j < |xs| :: xs[i] != xs[j]
  }

  lemma {:induction false} KeysAppendTag<K, V>(rows: seq<(K, V)>, k: K, vs: seq<V>)
    requires k !in Keys(rows)
    ensures Keys(rows + Tag(k, vs)) == Keys(rows) + if vs == [] then [] else [k]
  {
    if vs == [] {
      assert rows + Tag(k, vs) == rows;
    } else {
      var n := |vs| - 1;
      KeysAppendTag(rows, k, vs[..n]);
      var all := rows + Tag(k, vs);
      assert all[..|all| - 1] == rows + Tag(k, vs[..n]);
    }
  }

  lemma {:induction false} ValuesAppendTag<K, V>(rows: seq<(K, V)>, k: K, vs: seq<V>, q: K)
    ensures Values(rows + Tag(k, vs), q) == Values(rows, q) + if q == k then vs else []
  {
    if vs == [] {
      assert rows + Tag(k, vs) == rows;
    } else {
      var n := |vs| - 1;
      ValuesAppendTag(rows, k, vs[..n], q);
      var all := rows + Tag(k, vs);
      assert all[..|all| - 1] == rows + Tag(k, vs[..n]);
      assert vs == vs[..n] + [vs[n]];
    }
  }

  lemma {:induction false} ValuesOfForeign<K, V>(rows: seq<(K, V)>, k: K)
    requires k !in Keys(rows)
    ensures Values(rows, k) == []
  {
    if rows != [] {
      ValuesOfForeign(rows[..|rows| - 1], k);
    }
  }

  lemma {:induction false} KeysOfLateral<K, V>(ks: seq<K>, vss: seq<seq<V>>)
    requires |ks| == |vss| && Distinct(ks) && forall i | 0 <= i < |vss| :: vss[i] != []
    ensures Keys(Lateral(ks, vss)) == ks
  {
    hide Keys;
    if ks == [] {
      KeysOfNothing<K, V>();
    } else {
      var n := |ks| - 1;
      KeysOfLateral(ks[..n], vss[..n]);
      KeysAppendTag(Lateral(ks[..n], vss[..n]), ks[n], vss[n]);
    }
  }

  lemma KeysOfNothing<K, V>()
    ensures var rows: seq<(K, V)> := []; Keys(rows) == []
  {
  }

  lemma {:induction false} ValuesOfLateral<K, V>(ks: seq<K>, vss: seq<seq<V>>, i: nat)
    requires |ks| == |vss| && Distinct(ks) && forall j | 0 <= j < |vss| :: vss[j] != []
    requires i < |ks|
    ensures Values(Lateral(ks, vss), ks[i]) == vss[i]
  {
    hide Keys;
    hide Values;
    var n := |ks| - 1;
    var rest := Lateral(ks[..n], vss[..n]);
    ValuesAppendTag(rest, ks[n], vss[n], ks[i]);
    if i < n {
      ValuesOfLateral(ks[..n], vss[..n], i);
    } else {
      KeysOfLateral(ks[..n], vss[..n]);
      ValuesOfForeign(rest, ks[n]);
    }
  }

  lemma {:induction false} GroupsOfLateral<K, V>(ks: seq<K>, vss: seq<seq<V>>)
    requires |ks| == |vss| && Distinct(ks) && forall i | 0 <= i < |vss| :: vss[i] != []
    ensures Keys(Lateral(ks, vss)) == ks
    ensures forall i | 0 <= i < |ks| :: Values(Lateral(ks, vss), ks[i]) == vss[i]
  {
    KeysOfLateral(ks, vss);
    forall i | 0 <= i < |ks| ensures Values(Lateral(ks, vss), ks[i]) == vss[i] {
      ValuesOfLateral(ks, vss, i);
    }
  }

  // ---------- Aggregates ----------

  lemma {:induction false} BoolOrMeaning(xs: seq<Tri>)
    ensures BoolOr(xs) == Some(true) <==> Some(true) in xs
    ensures BoolOr(xs) == None <==> forall i | 0 <= i < |xs| :: xs[i] == None
  {
    if xs != [] {
      BoolOrMeaning(xs[..|xs| - 1]);
      assert xs == xs[..|xs| - 1] + [xs[|xs| - 1]];
    }
  }

  lemma {:induction false} BoolAndMeaning(xs: seq<Tri>)
    ensures BoolAnd(xs) == Some(false) <==> Some(false) in xs
  {
    if xs != [] {
      BoolAndMeaning(xs[..|xs| - 1]);
      assert xs == xs[..|xs| - 1] + [xs[|xs| - 1]];
    }
  }

  // ---------- The plain reading ----------

  predicate Recognized(conds: seq<Cond>) {
    exists i :: 0 <= i < |conds| && conds[i].col.Some?
  }

  predicate SomeMatches(b: Row, conds: seq<Cond>) {
    exists i :: 0 <= i < |conds| && CaseOf(b, conds[i]) == Some(Some(true))
  }

  /** Nothing in the group has a truth value for this row. */
  predicate AllUnknown(b: Row, conds: seq<Cond>) {
    forall i | 0 <= i < |conds| :: CaseOf(b, conds[i]) == Some(None)
  }

  /** Evaluating the group on this row is an error. */
  predicate GroupRaises(b: Row, conds: seq<Cond>) {
    exists i :: 0 <= i < |conds| && CaseOf(b, conds[i]) == None
  }

  predicate Raises(b: Row, filter: Filter) {
    exists i :: 0 <= i < |filter| && GroupRaises(b, filter[i])
  }

  predicate GroupHolds(b: Row, conds: seq<Cond>) {
    !Recognized(conds) || SomeMatches(b, conds) || AllUnknown(b, conds)
  }

  /** Every filter group holds. */
  predicate Satisfies(b: Row, filter: Filter) {
    forall i | 0 <= i < |filter| :: GroupHolds(b, filter[i])
  }

  function Satisfying(filter: Filter): Row -> bool {
    (b: Row) => Satisfies(b, filter)
  }

  /** The two aggregates of a group, from the truth values of its conditions. */
  lemma {:induction false} GroupMeaning(b: Row, conds: seq<Cond>, cases: seq<Tri>, recs: seq<Tri>)
    requires conds != [] && |cases| == |conds| == |recs|
    requires forall i | 0 <= i < |conds| :: CaseOf(b, conds[i]) == Some(cases[i]) && recs[i] == Some(conds[i].col.Some?)
    ensures HavingTerm(Some(GroupRow(BoolOr(cases), BoolOr(recs)))) == Some(false) <==> !GroupHolds(b, conds)
  {
    hide CaseOf;
    BoolOrMeaning(cases);
    BoolOrMeaning(recs);
    assert SomeMatches(b, conds) <==> Some(true) in cases by {
      if SomeMatches(b, conds) {
        var i :| 0 <= i < |conds| && CaseOf(b, conds[i]) == Some(Some(true));
        assert cases[i] == Some(true);
      }
    }
    assert Recognized(conds) <==> Some(true) in recs by {
      if Recognized(conds) {
        var i :| 0 <= i < |conds| && conds[i].col.Some?;
        assert recs[i] == Some(true);
      }
    }
    assert recs[0] != None;
    assert AllUnknown(b, conds) <==> forall i | 0 <= i < |cases| :: cases[i] == None;
  }

  lemma AggregateMeaning(b: Row, conds: seq<Cond>)
    requires conds != []
    ensures Aggregate(b, conds) == None <==> GroupRaises(b, conds)
    ensures Aggregate(b, conds).Some? ==>
              (HavingTerm(Aggregate(b, conds)) == Some(false) <==> !GroupHolds(b, conds))
  {
    hide CaseOf;
    hide HavingTerm;
    hide GroupHolds;
    hide BoolOr;
    var evals, recs := Map((c: Cond) => CaseOf(b, c), conds), Map((c: Cond) => Some(c.col.Some?), conds);
    assert forall i | 0 <= i < |conds| :: evals[i] == CaseOf(b, conds[i]);
    if Collect(evals).Some? {
      GroupMeaning(b, conds, Collect(evals).value, recs);
    }
  }

  lemma SubqueryMeaning(b: Row, filter: Filter)
    requires forall i | 0 <= i < |filter| :: filter[i] != []
    ensures Subquery(b, filter) == Collect(Map((conds: seq<Cond>) => Aggregate(b, conds), filter))
  {
    hide Aggregate;
    hide Lateral;
    hide Keys;
    hide Values;
    hide Collect;
    var idx := RowNumbers(|filter|);
    GroupsOfLateral(idx, filter);
    var sub := Map((i: nat) => Aggregate(b, Values(FanOut(filter), i)), Keys(FanOut(filter)));
    forall i | 0 <= i < |filter| ensures sub[i] == Aggregate(b, filter[i]) {
      assert Values(FanOut(filter), idx[i]) == filter[i];
    }
    assert sub == Map((conds: seq<Cond>) => Aggregate(b, conds), filter);
  }

  /** HAVING keeps a row exactly if every group holds; the join fails exactly if some condition does. */
  lemma HavingMeaning(b: Row, filter: Filter)
    requires forall i | 0 <= i < |filter| :: filter[i] != []
    ensures LeftJoined(b, filter) == None <==> Raises(b, filter)
    ensures LeftJoined(b, filter).Some? ==> (Having(LeftJoined(b, filter).value) <==> Satisfies(b, filter))
  {
    hide Aggregate;
    hide GroupHolds;
    hide GroupRaises;
    SubqueryMeaning(b, filter);
    var aggs := Map((conds: seq<Cond>) => Aggregate(b, conds), filter);
    forall i | 0 <= i < |filter|
      ensures aggs[i] == None <==> GroupRaises(b, filter[i])
      ensures aggs[i].Some? ==> (HavingTerm(aggs[i]) == Some(false) <==> !GroupHolds(b, filter[i]))
    {
      AggregateMeaning(b, filter[i]);
    }
    if LeftJoined(b, filter).Some? {
      TermsMeaning(b, filter, LeftJoined(b, filter).value);
    }
  }

  lemma TermsMeaning(b: Row, filter: Filter, gs: seq<Option<GroupRow>>)
    requires if filter == [] then gs == [None] else |gs| == |filter|
    requires forall i | 0 <= i < |filter| :: HavingTerm(gs[i]) == Some(false) <==> !GroupHolds(b, filter[i])
    ensures Having(gs) <==> Satisfies(b, filter)
  {
    hide GroupHolds;
    var terms := Map(HavingTerm, gs);
    BoolAndMeaning(terms);
    if filter == [] {
      assert terms == [None];
    } else {
      assert forall i | 0 <= i < |filter| :: terms[i] == HavingTerm(gs[i]);
      if Some(false) in terms {
        var i :| 0 <= i < |terms| && terms[i] == Some(false);
        assert !GroupHolds(b, filter[i]);
      }
    }
  }

  lemma {:induction false} SelectCong(base: seq<Row>, p: Row -> bool, q: Row -> bool)
    requires forall i | 0 <= i < |base| :: p(base[i]) == q(base[i])
    ensures Select(base, p) == Select(base, q)
  {
    if base != [] {
      SelectCong(base[..|base| - 1], p, q);
    }
  }

  /** The query can be evaluated on these rows: on no row at all, or with a filter that reads and raises nothing. */
  predicate Quiet(db: Database, base: seq<Row>, filters: Json) {
    forall i | 0 <= i < |base| ::
      ReadFilter(db, filters).Some? && !Raises(base[i], ReadFilter(db, filters).value)
  }

  /** The filter in an array; the empty one if there is none. */
  function FilterIn(db: Database, filters: Json): (r: Filter)
    ensures forall i | 0 <= i < |r| :: r[i] != []
  {
    Coalesce(ReadFilter(db, filters), [])
  }

  /**
   The whole join, grouping and HAVING amounts to a plain filter: a member is returned, once, exactly if
   every filter group holds for it, and the query fails exactly if it cannot be evaluated on some row.  Null
   names are included.
   */
  lemma {:induction false} PipelineIsFilter(db: Database, base: seq<Row>, filters: Json)
    requires Distinct(base)
    ensures Filtered(db, base, filters)
         == if Quiet(db, base, filters) then Some(Select(base, Satisfying(FilterIn(db, filters)))) else None
  {
    hide LeftJoined;
    hide ReadFilter;
    hide Raises;
    hide Satisfies;
    var filter := FilterIn(db, filters);
    var per := Map((b: Row) => Joined(db, b, filters), base);
    forall i | 0 <= i < |base|
      ensures per[i] == None <==> ReadFilter(db, filters) == None || Raises(base[i], ReadFilter(db, filters).value)
      ensures per[i].Some? ==> (Having(per[i].value) <==> Satisfies(base[i], filter))
    {
      ReadFilterGroups(db, filters);
      if ReadFilter(db, filters).Some? {
        HavingMeaning(base[i], filter);
      }
    }
    if Collect(per).Some? {
      var vss := Collect(per).value;
      GroupsOfLateral(base, vss);
      var joined := Lateral(base, vss);
      forall i | 0 <= i < |base| ensures Having(Values(joined, base[i])) == Satisfies(base[i], filter) {
        assert Values(joined, base[i]) == vss[i];
      }
      SelectCong(base, (b: Row) => Having(Values(joined, b)), Satisfying(filter));
    }
  }

  lemma ReadFilterGroups(db: Database, filters: Json)
    ensures ReadFilter(db, filters).Some? ==>
              forall i | 0 <= i < |ReadFilter(db, filters).value| :: ReadFilter(db, filters).value[i] != []
  {
  }

  // ---------- Conditions ----------

  /** A test succeeds where it holds, unless it is an error. */
  lemma {:induction false} TestMeaning(op: string, field: string, val: string)
    ensures Test(op, field, val) == Yes ==> Holds(op, field, val)
    ensures Test(op, field, val) == No ==> !Holds(op, field, val)
    ensures Test(op, field, val) == Raised ==> op == "ew" && Backslashes(val) % 2 == 1
  {
    MatchMeaning(field, "%" + val + "%");
    MatchMeaning(field, val + "%");
    MatchMeaning(field, "%" + val);
    OnlyEndsWithRaises(field, val);
    if Test(op, field, val) == Raised {
      LoneNeverMatches(field, "%" + val);
    }
  }

  /** A filter is harmless when no value of `ew` ends in an odd number of backslashes. */
  lemma EvenFiltersAreQuiet(b: Row, filter: Filter)
    requires forall i, j | 0 <= i < |filter| && 0 <= j < |filter[i]| ::
      filter[i][j].op == "ew" ==> Backslashes(filter[i][j].val) % 2 == 0
    ensures !Raises(b, filter)
  {
    if Raises(b, filter) {
      var i :| 0 <= i < |filter| && GroupRaises(b, filter[i]);
      var j :| 0 <= j < |filter[i]| && CaseOf(b, filter[i][j]) == None;
      var c := filter[i][j];
      TestMeaning(c.op, b.email, c.val);
      if b.name.Some? {
        TestMeaning(c.op, b.name.value, c.val);
      }
    }
  }

  /** Some recognised condition holds of the row. */
  predicate RecognizedMatch(b: Row, c: Cond) {
    match c.col
    case Some(Email) => Holds(c.op, b.email, c.val)
    case Some(Name) => b.name.Some? && Holds(c.op, b.name.value, c.val)
    case None => false
  }

  predicate PlainSatisfies(b: Row, filter: Filter) {
    forall i | 0 <= i < |filter| ::
      (forall j | 0 <= j < |filter[i]| :: filter[i][j].col == None) ||
      (exists j | 0 <= j < |filter[i]| :: RecognizedMatch(b, filter[i][j]))
  }

  lemma CaseMeaning(b: Row, c: Cond)
    requires CaseOf(b, c).Some?
    ensures CaseOf(b, c) == Some(Some(true)) <==> RecognizedMatch(b, c)
    ensures CaseOf(b, c) == Some(None) <==> c.col == Some(Name) && b.name == None
  {
    TestMeaning(c.op, b.email, c.val);
    if b.name.Some? {
      TestMeaning(c.op, b.name.value, c.val);
    }
  }

  /** For a row with a name the rule has no exception; an empty filter accepts everything. */
  lemma NamedRowsPlain(b: Row, filter: Filter)
    requires b.name.Some? && !Raises(b, filter) && forall i | 0 <= i < |filter| :: filter[i] != []
    ensures Satisfies(b, filter) <==> PlainSatisfies(b, filter)
    ensures filter == [] ==> Satisfies(b, filter)
  {
    hide CaseOf;
    hide RecognizedMatch;
    forall i | 0 <= i < |filter|
      ensures GroupHolds(b, filter[i]) <==>
              (forall j | 0 <= j < |filter[i]| :: filter[i][j].col == None) ||
              (exists j | 0 <= j < |filter[i]| :: RecognizedMatch(b, filter[i][j]))
    {
      var conds := filter[i];
      assert !GroupRaises(b, conds);
      forall j | 0 <= j < |conds|
        ensures CaseOf(b, conds[j]) == Some(Some(true)) <==> RecognizedMatch(b, conds[j])
        ensures CaseOf(b, conds[j]) != Some(None)
      {
        CaseMeaning(b, conds[j]);
      }
      assert CaseOf(b, conds[0]) != Some(None);
    }
  }

  /** A row without a name passes every filter made of name conditions only, whatever the values. */
  lemma NullNamePasses(b: Row, filter: Filter)
    requires b.name == None
    requires forall i, j | 0 <= i < |filter| && 0 <= j < |filter[i]| :: filter[i][j].col == Some(Name)
    ensures Satisfies(b, filter) && !Raises(b, filter)
  {
  }

  /**
   One group, read plainly: nothing in it is recognised, or something recognised matches, or the row has no
   name and the group asks for names only.
   */
  predicate PlainGroup(b: Row, conds: seq<Cond>) {
    || (forall j | 0 <= j < |conds| :: conds[j].col == None)
    || (exists j | 0 <= j < |conds| :: RecognizedMatch(b, conds[j]))
    || (b.name == None && forall j | 0 <= j < |conds| :: conds[j].col == Some(Name))
  }

  predicate PlainHolds(b: Row, filter: Filter) {
    forall i | 0 <= i < |filter| :: PlainGroup(b, filter[i])
  }

  /** The plain reading is exact for all rows, with a name or without. */
  lemma RowsPlain(b: Row, filter: Filter)
    requires !Raises(b, filter) && forall i | 0 <= i < |filter| :: filter[i] != []
    ensures Satisfies(b, filter) <==> PlainHolds(b, filter)
  {
    hide CaseOf;
    hide RecognizedMatch;
    forall i | 0 <= i < |filter| ensures GroupHolds(b, filter[i]) <==> PlainGroup(b, filter[i]) {
      var conds := filter[i];
      assert !GroupRaises(b, conds);
      forall j | 0 <= j < |conds|
        ensures CaseOf(b, conds[j]) == Some(Some(true)) <==> RecognizedMatch(b, conds[j])
        ensures CaseOf(b, conds[j]) == Some(None) <==> conds[j].col == Some(Name) && b.name == None
      {
        CaseMeaning(b, conds[j]);
      }
    }
  }

  // ---------- Order ----------

  lemma {:induction false} SelectMeaning(base: seq<Row>, p: Row -> bool)
    ensures forall b :: b in Select(base, p) <==> b in base && p(b)
    ensures Distinct(base) ==> Distinct(Select(base, p))
  {
    if base != [] {
      var n := |base| - 1;
      SelectMeaning(base[..n], p);
      assert base == base[..n] + [base[n]];
      if Distinct(base) {
        assert Distinct(base[..n]);
        assert base[n] !in base[..n];
        var s := Select(base[..n], p);
        assert forall i | 0 <= i < |s| :: s[i] in s;
      }
    }
  }

  predicate Descending(rows: seq<Row>) {
    forall i, j | 0 <= i < j < |rows| :: rows[i].createdAt >= rows[j].createdAt
  }

  lemma {:induction false} InsertDescElements(x: Row, rows: seq<Row>)
    ensures multiset(InsertDesc(x, rows)) == multiset(rows) + multiset{x}
  {
    var n := |rows| - 1;
    if rows != [] && rows[n].createdAt < x.createdAt {
      InsertDescElements(x, rows[..n]);
      assert rows == rows[..n] + [rows[n]];
    }
  }

  lemma {:induction false} InsertDescDescending(x: Row, rows: seq<Row>)
    requires Descending(rows)
    ensures Descending(InsertDesc(x, rows))
  {
    var n := |rows| - 1;
    if rows != [] && rows[n].createdAt < x.createdAt {
      InsertDescDescending(x, rows[..n]);
      InsertDescElements(x, rows[..n]);
      var r := InsertDesc(x, rows[..n]);
      forall i | 0 <= i < |r| ensures r[i].createdAt >= rows[n].createdAt {
        assert r[i] in multiset(r);
        assert r[i] == x || r[i] in multiset(rows[..n]);
      }
    }
  }

  /** The result is ordered by creation time, newest first, and holds every match exactly as often. */
  lemma {:induction false} SortDescMeaning(rows: seq<Row>)
    ensures Descending(SortDesc(rows)) && multiset(SortDesc(rows)) == multiset(rows)
  {
    if rows != [] {
      var n := |rows| - 1;
      SortDescMeaning(rows[..n]);
      InsertDescElements(rows[n], SortDesc(rows[..n]));
      InsertDescDescending(rows[n], SortDesc(rows[..n]));
      assert rows == rows[..n] + [rows[n]];
    }
  }

  lemma SameLength(a: seq<Row>, b: seq<Row>)
    requires multiset(a) == multiset(b)
    ensures |a| == |b|
  {
    assert |multiset(a)| == |a| && |multiset(b)| == |b|;
  }

  // ---------- Pages ----------

  /** Pages 0..n, one after the other. */
  function Pages(rows: seq<Row>, size: nat, n: nat): seq<Row>
    requires n == 0 || size * (n - 1) <= MAX_INT4
  {
    if n == 0 then []
    else
      assert size * (n - 1) == size * (n - 2) + size;
      Pages(rows, size, n - 1) + Page(rows, size, n - 1).value
  }

  /** The rows of the first `n` pages. */
  function Front(rows: seq<Row>, size: nat, n: nat): seq<Row> { rows[..Least(size * n, |rows|)] }

  lemma NextPage(rows: seq<Row>, size: nat, n: nat)
    requires size * n <= MAX_INT4
    ensures Page(rows, size, n).Some?
    ensures Front(rows, size, n + 1) == Front(rows, size, n) + Page(rows, size, n).value
  {
    assert size * (n + 1) == size * n + size;
    var lo, hi := Least(size * n, |rows|), Least(size * (n + 1), |rows|);
    assert rows[..hi] == rows[..lo] + rows[lo..hi];
  }

  /** Concatenated pages are the list itself, as far as they reach: no row is lost or repeated. */
  lemma {:induction false} PagesConcatenate(rows: seq<Row>, size: nat, n: nat)
    requires n == 0 || size * (n - 1) <= MAX_INT4
    ensures Pages(rows, size, n) == Front(rows, size, n)
  {
    if n > 0 {
      assert size * (n - 1) == size * (n - 2) + size;
      PagesConcatenate(rows, size, n - 1);
      NextPage(rows, size, n - 1);
    }
  }

  // ---------- The query as a whole ----------

  /** The members of an organisation that satisfy the filter, newest first. */
  function Matches(users: seq<Row>, memberships: set<(nat, nat)>, org: nat, filter: Filter): seq<Row> {
    SortDesc(Select(Base(users, memberships, org), Satisfying(filter)))
  }

  predicate DistinctIds(users: seq<Row>) {
    forall i, j | 0 <= i < j < |users| :: users[i].id != users[j].id
  }

  lemma FilteredMatches(db: Database, users: seq<Row>, memberships: set<(nat, nat)>, org: nat, filters: Json)
    requires DistinctIds(users) && Quiet(db, Base(users, memberships, org), filters)
    ensures var rows := Filtered(db, Base(users, memberships, org), filters);
            && rows.Some? && |SortDesc(rows.value)| == |rows.value|
            && SortDesc(rows.value) == Matches(users, memberships, org, FilterIn(db, filters))
  {
    hide Filtered;
    hide Satisfies;
    hide SortDesc;
    hide Quiet;
    hide FilterIn;
    var base := Base(users, memberships, org);
    SelectMeaning(users, MemberOf(memberships, org));
    PipelineIsFilter(db, base, filters);
    SortDescMeaning(Filtered(db, base, filters).value);
    SameLength(SortDesc(Filtered(db, base, filters).value), Filtered(db, base, filters).value);
  }

  /** The query can be evaluated: its parameters can be read, and its filter raises nothing on any member. */
  predicate Answerable(db: Database, users: seq<Row>, memberships: set<(nat, nat)>, org: nat, payload: Json) {
    && ParamsOf(db, payload).Some?
    && Quiet(db, Base(users, memberships, org), ParamsOf(db, payload).value.filters)
  }

  /** What a search returns: the requested page of the ordered matches, each row with the number of all of them. */
  lemma SearchMeaning(db: Database, users: seq<Row>, memberships: set<(nat, nat)>, org: nat, payload: Json)
    requires DistinctIds(users) && Answerable(db, users, memberships, org, payload)
    ensures var p := ParamsOf(db, payload).value;
            var all := Matches(users, memberships, org, FilterIn(db, p.filters));
            SearchOrgUsers(db, users, memberships, org, payload) == WithTotal(Page(all, p.pageSize, p.pageNum), |all|)
  {
    hide ParamsOf;
    hide FilterIn;
    hide Filtered;
    hide Matches;
    hide SortDesc;
    hide Page;
    hide Quiet;
    FilteredMatches(db, users, memberships, org, ParamsOf(db, payload).value.filters);
  }

  /** Requests for pages 0, 1, 2, ... of one filter array and one page size. */
  predicate Successive(db: Database, payloads: seq<Json>, filters: Json, size: nat) {
    forall k | 0 <= k < |payloads| :: ParamsOf(db, payloads[k]) == Some(Params(size, k, filters))
  }

  function Results(
      db: Database, users: seq<Row>, memberships: set<(nat, nat)>, org: nat, payloads: seq<Json>): Option<seq<Counted>>
  {
    if payloads == [] then Some([])
    else
      var n := |payloads| - 1;
      var init := Results(db, users, memberships, org, payloads[..n]);
      var last := SearchOrgUsers(db, users, memberships, org, payloads[n]);
      if init == None || last == None then None else Some(init.value + last.value)
  }

  lemma WithTotalAppend(a: seq<Row>, b: seq<Row>, total: nat)
    ensures WithTotal(Some(a), total).Some? && WithTotal(Some(b), total).Some?
    ensures WithTotal(Some(a + b), total) == Some(WithTotal(Some(a), total).value + WithTotal(Some(b), total).value)
  {
    assert WithTotal(Some(a + b), total).value == WithTotal(Some(a), total).value + WithTotal(Some(b), total).value;
  }

  /** The answers to such requests, put together, are the ordered matches, none lost and none repeated. */
  lemma {:induction false} SearchPagesConcatenate(
      db: Database, users: seq<Row>, memberships: set<(nat, nat)>, org: nat, payloads: seq<Json>,
      filters: Json, size: nat)
    requires DistinctIds(users) && Successive(db, payloads, filters, size)
    requires Quiet(db, Base(users, memberships, org), filters)
    requires payloads == [] || size * (|payloads| - 1) <= MAX_INT4
    ensures var all := Matches(users, memberships, org, FilterIn(db, filters));
            Results(db, users, memberships, org, payloads)
            == WithTotal(Some(Front(all, size, |payloads|)), |all|)
  {
    hide Matches;
    hide SearchOrgUsers;
    hide Results;
    hide WithTotal;
    hide Page;
    hide FilterIn;
    hide ParamsOf;
    hide Successive;
    hide Quiet;
    hide Front;
    var all, n := Matches(users, memberships, org, FilterIn(db, filters)), |payloads| - 1;
    if payloads == [] {
      NoResults(db, users, memberships, org, all, size);
    } else {
      PayloadsInit(db, payloads, filters, size);
      SearchPagesConcatenate(db, users, memberships, org, payloads[..n], filters, size);
      SearchMeaning(db, users, memberships, org, payloads[n]);
      NextPage(all, size, n);
      var page := Page(all, size, n).value;
      WithTotalAppend(Front(all, size, n), page, |all|);
      LastResult(db, users, memberships, org, payloads, WithTotal(Some(page), |all|).value);
    }
  }

  lemma {:induction false} NoResults(
      db: Database, users: seq<Row>, memberships: set<(nat, nat)>, org: nat, all: seq<Row>, size: nat)
    ensures Results(db, users, memberships, org, []) == WithTotal(Some(Front(all, size, 0)), |all|)
  {
    assert size * 0 == 0;
  }

  lemma PayloadsInit(db: Database, payloads: seq<Json>, filters: Json, size: nat)
    requires Successive(db, payloads, filters, size) && payloads != []
    requires size * (|payloads| - 1) <= MAX_INT4
    ensures var n := |payloads| - 1;
            && Successive(db, payloads[..n], filters, size)
            && (n > 0 ==> size * (n - 1) <= MAX_INT4)
            && ParamsOf(db, payloads[n]) == Some(Params(size, n, filters))
  {
    hide ParamsOf;
    var n := |payloads| - 1;
    assert size * n == size * (n - 1) + size;
  }

  lemma {:induction false} LastResult(
      db: Database, users: seq<Row>, memberships: set<(nat, nat)>, org: nat, payloads: seq<Json>, last: seq<Counted>)
    requires payloads != [] && SearchOrgUsers(db, users, memberships, org, payloads[|payloads| - 1]) == Some(last)
    ensures var init := Results(db, users, memberships, org, payloads[..|payloads| - 1]);
            Results(db, users, memberships, org, payloads) == if init == None then None else Some(init.value + last)
  {
    hide SearchOrgUsers;
  }

  lemma FilteredFailsIff(db: Database, base: seq<Row>, filters: Json)
    ensures Filtered(db, base, filters) == None <==> !Quiet(db, base, filters)
  {
    hide LeftJoined;
    hide ReadFilter;
    hide Raises;
    var per := Map((b: Row) => Joined(db, b, filters), base);
    forall i | 0 <= i < |base|
      ensures per[i] == None <==> ReadFilter(db, filters) == None || Raises(base[i], ReadFilter(db, filters).value)
    {
      ReadFilterGroups(db, filters);
      if ReadFilter(db, filters).Some? {
        HavingMeaning(base[i], ReadFilter(db, filters).value);
      }
    }
  }

  /**
   A search fails exactly on a bad number, on an offset beyond int4, or, as soon as the organisation has a
   member, on a filter or alternatives that are no array or a condition that is an error on some member.
   */
  lemma SearchFailsIff(db: Database, users: seq<Row>, memberships: set<(nat, nat)>, org: nat, payload: Json)
    ensures SearchOrgUsers(db, users, memberships, org, payload) == None <==>
            var p, base := ParamsOf(db, payload), Base(users, memberships, org);
            || p == None || p.value.pageSize * p.value.pageNum > MAX_INT4
            || (exists b :: b in base &&
                  var filter := ReadFilter(db, p.value.filters); filter == None || Raises(b, filter.value))
  {
    hide ParamsOf;
    hide ReadFilter;
    hide Raises;
    hide Filtered;
    hide SortDesc;
    var p, base := ParamsOf(db, payload), Base(users, memberships, org);
    if p.Some? {
      FilteredFailsIff(db, base, p.value.filters);
      if !Quiet(db, base, p.value.filters) {
        var i :| 0 <= i < |base| && !(ReadFilter(db, p.value.filters).Some? &&
                                      !Raises(base[i], ReadFilter(db, p.value.filters).value));
        assert base[i] in base;
      }
    }
  }

  /** Who is among the matches: every member that satisfies the filter, once, and nobody else. */
  lemma MatchesExact(users: seq<Row>, memberships: set<(nat, nat)>, org: nat, filter: Filter)
    requires DistinctIds(users)
    ensures var all := Matches(users, memberships, org, filter);
            && Descending(all)
            && forall u :: multiset(all)[u] ==
                 if u in users && (org, u.id) in memberships && Satisfies(u, filter) then 1 else 0
  {
    var base := Base(users, memberships, org);
    var found := Select(base, Satisfying(filter));
    SelectMeaning(users, MemberOf(memberships, org));
    SelectMeaning(base, Satisfying(filter));
    SortDescMeaning(found);
    forall u ensures multiset(found)[u] == if u in found then 1 else 0 {
      DistinctOnce(found, u);
    }
  }

  lemma {:induction false} DistinctOnce(rows: seq<Row>, u: Row)
    requires Distinct(rows)
    ensures multiset(rows)[u] == if u in rows then 1 else 0
  {
    if rows != [] {
      var n := |rows| - 1;
      DistinctOnce(rows[..n], u);
      assert rows == rows[..n] + [rows[n]];
    }
  }

  /** The matches of the query are the members for which its filter holds, read plainly: each once, newest first. */
  predicate ExactlyTheMatches(
      all: seq<Row>, users: seq<Row>, memberships: set<(nat, nat)>, org: nat, filter: Filter)
  {
    && Descending(all)
    && (forall u | u in all :: u in users)
    && (forall u | u in users ::
          multiset(all)[u] == if (org, u.id) in memberships && PlainHolds(u, filter) then 1 else 0)
  }

  lemma MatchesPlain(db: Database, users: seq<Row>, memberships: set<(nat, nat)>, org: nat, filters: Json)
    requires DistinctIds(users) && Quiet(db, Base(users, memberships, org), filters)
    ensures ExactlyTheMatches(Matches(users, memberships, org, FilterIn(db, filters)), users, memberships, org,
                              FilterIn(db, filters))
  {
    hide Satisfies;
    hide PlainHolds;
    hide Raises;
    hide ReadFilter;
    hide Matches;
    var filter, base := FilterIn(db, filters), Base(users, memberships, org);
    MatchesExact(users, memberships, org, filter);
    SelectMeaning(users, MemberOf(memberships, org));
    forall u | u in base ensures Satisfies(u, filter) <==> PlainHolds(u, filter) {
      var i :| 0 <= i < |base| && base[i] == u;
      RowsPlain(u, filter);
    }
    var all := Matches(users, memberships, org, filter);
    forall u | u in all ensures u in users {
      assert multiset(all)[u] > 0;
    }
  }

  /** The whole query: a page of exactly the members for which the filter holds, and how many there are. */
  lemma SearchIsPlain(db: Database, users: seq<Row>, memberships: set<(nat, nat)>, org: nat, payload: Json)
      returns (all: seq<Row>)
    requires DistinctIds(users) && Answerable(db, users, memberships, org, payload)
    ensures var p := ParamsOf(db, payload).value;
            && ExactlyTheMatches(all, users, memberships, org, FilterIn(db, p.filters))
            && SearchOrgUsers(db, users, memberships, org, payload)
               == WithTotal(Page(all, p.pageSize, p.pageNum), |all|)
  {
    hide Quiet;
    hide ExactlyTheMatches;
    hide Matches;
    hide FilterIn;
    hide ParamsOf;
    var p := ParamsOf(db, payload).value;
    all := Matches(users, memberships, org, FilterIn(db, p.filters));
    SearchMeaning(db, users, memberships, org, payload);
    MatchesPlain(db, users, memberships, org, p.filters);
  }
}
