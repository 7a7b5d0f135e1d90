/** The search from the payload a client sends to the rows it gets, in the client's own terms. */
module SearchJson {
  import opened Options
  import opened Text
  import opened Ilike
  import opened Search

  // ---------- What a client asks for ----------

  /** One condition: a field, an operation or none, and a JSON value that is no array and no object. */
  datatype Part = Part(field: string, op: Option<string>, value: Json)

  /** One element of the filter array: a condition and perhaps alternatives. */
  datatype Element = Element(part: Part, alternatives: Option<seq<Part>>)

  predicate IsScalar(j: Json) { !j.Arr? && !j.Obj? }

  /** The one text a scalar reads as; that of null is empty. */
  function Texts(j: Json): set<string> {
    match j
    case Str(t) => {t}
    case Num(t) => {t}
    case Bool(b) => {if b then "true" else "false"}
    case Null => {""}
    case _ => {}
  }

  function PartKeys(p: Part): map<string, Json> {
    map["field" := Str(p.field), "value" := p.value] + if p.op.Some? then map["operation" := Str(p.op.value)] else map[]
  }

  function PartJson(p: Part): Json { Obj(PartKeys(p)) }

  function ElementJson(e: Element): Json {
    Obj(PartKeys(e.part) +
        if e.alternatives.Some? then map["alternatives" := Arr(Map(PartJson, e.alternatives.value))] else map[])
  }

  function Parts(e: Element): seq<Part> {
    [e.part] + if e.alternatives.Some? then e.alternatives.value else []
  }

  // ---------- What it means ----------

  predicate ForEmail(p: Part) { SameButCase(p.field, "email") }

  predicate ForName(p: Part) {
    SameButCase(p.field, "name") || SameButCase(p.field, "firstname") || SameButCase(p.field, "lastname")
  }

  predicate Says(p: Part, op: string) { p.op.Some? && SameButCase(p.op.value, op) }

  /** The operation takes its value as part of a pattern. */
  predicate TakesPattern(p: Part) { Says(p, "cn") || Says(p, "sw") || Says(p, "ew") }

  /** Scalar values, without the wildcards of patterns or a backslash where they would be part of one. */
  predicate PlainValues(e: Element) {
    forall p | p in Parts(e) ::
      IsScalar(p.value) && (TakesPattern(p) ==> forall text | text in Texts(p.value) :: Literal(text))
  }

  /** The text of the column passes the test: contains, starts with, ends with, or, for anything else, equals. */
  predicate Passes(column: string, p: Part, text: string) {
    if Says(p, "cn") then exists i | 0 <= i <= |column| :: StandsAt(column, text, i)
    else if Says(p, "sw") then StandsAt(column, text, 0)
    else if Says(p, "ew") then |text| <= |column| && StandsAt(column, text, |column| - |text|)
    else column == text
  }

  predicate PassesPart(u: Row, p: Part) {
    exists text | text in Texts(p.value) ::
      (ForEmail(p) && Passes(u.email, p, text)) || (ForName(p) && u.name.Some? && Passes(u.name.value, p, text))
  }

  /**
   A member passes an element if none of its fields is known, or one of its parts passes, or the member has no
   name and all parts ask for it.
   */
  predicate PassesElement(u: Row, e: Element) {
    || (forall p | p in Parts(e) :: !ForEmail(p) && !ForName(p))
    || (exists p | p in Parts(e) :: PassesPart(u, p))
    || (u.name == None && forall p | p in Parts(e) :: ForName(p))
  }

  predicate PassesAll(u: Row, es: seq<Element>) { forall e | e in es :: PassesElement(u, e) }

  // ---------- From JSON to conditions ----------

  lemma {:induction false} LowerIs(s: string, w: string)
    requires forall i | 0 <= i < |w| :: 'a' <= w[i] <= 'z'
    ensures ToLower(s) == w <==> SameButCase(s, w)
  {
    SameLowerIff(s, w);
    assert ToLower(w) == w;
  }

  lemma {:induction false} Spellings(s: string)
    ensures ToLower(s) == "email" <==> SameButCase(s, "email")
    ensures ToLower(s) == "name" <==> SameButCase(s, "name")
    ensures ToLower(s) == "firstname" <==> SameButCase(s, "firstname")
    ensures ToLower(s) == "lastname" <==> SameButCase(s, "lastname")
    ensures ToLower(s) == "cn" <==> SameButCase(s, "cn")
    ensures ToLower(s) == "sw" <==> SameButCase(s, "sw")
    ensures ToLower(s) == "ew" <==> SameButCase(s, "ew")
  {
    hide ToLower;
    hide SameButCase;
    LowerIs(s, "email");
    LowerIs(s, "name");
    LowerIs(s, "firstname");
    LowerIs(s, "lastname");
    LowerIs(s, "cn");
    LowerIs(s, "sw");
    LowerIs(s, "ew");
  }

  /** The condition that the query makes of a part. */
  predicate Reflects(c: Cond, p: Part) {
    && (c.col == Some(Email) <==> ForEmail(p))
    && (c.col == Some(Name) <==> ForName(p))
    && (c.op == "cn" <==> Says(p, "cn")) && (c.op == "sw" <==> Says(p, "sw")) && (c.op == "ew" <==> Says(p, "ew"))
    && c.val in Texts(p.value)
  }

  /** The keys of a part, in an object that may have others. */
  predicate CarriesPart(j: Json, p: Part) {
    && j.Obj? && "field" in j.fields && j.fields["field"] == Str(p.field)
    && "value" in j.fields && j.fields["value"] == p.value
    && if p.op.Some? then "operation" in j.fields && j.fields["operation"] == Str(p.op.value)
       else "operation" !in j.fields
  }

  lemma PartCarried(p: Part, e: Element)
    ensures CarriesPart(PartJson(p), p) && CarriesPart(ElementJson(e), e.part)
    ensures Get(ElementJson(e), "alternatives")
         == if e.alternatives.Some? then Some(Arr(Map(PartJson, e.alternatives.value))) else None
  {
  }

  lemma KeysOfPart(db: Database, p: Part, j: Json)
    requires IsScalar(p.value) && CarriesPart(j, p)
    ensures CondOf(db, j) == Cond(ColumnOf(ToLower(p.field)), ToLower(Coalesce(p.op, "eq")), CondOf(db, j).val)
    ensures CondOf(db, j).val in Texts(p.value)
  {
    hide ToLower;
    hide ColumnOf;
  }

  lemma {:induction false} ColumnsSpelled(field: string)
    ensures ColumnOf(ToLower(field)) == Some(Email) <==> SameButCase(field, "email")
    ensures ColumnOf(ToLower(field)) == Some(Name) <==>
              SameButCase(field, "name") || SameButCase(field, "firstname") || SameButCase(field, "lastname")
  {
    hide SameButCase;
    hide ToLower;
    Spellings(field);
  }

  lemma PartReflected(db: Database, p: Part, j: Json)
    requires IsScalar(p.value) && CarriesPart(j, p)
    ensures Reflects(CondOf(db, j), p)
  {
    hide ToLower;
    hide SameButCase;
    hide CondOf;
    hide ColumnOf;
    KeysOfPart(db, p, j);
    ColumnsSpelled(p.field);
    Spellings(Coalesce(p.op, "eq"));
    OthersSpelled();
  }

  lemma OthersSpelled()
    ensures !SameButCase("eq", "cn") && !SameButCase("eq", "sw") && !SameButCase("eq", "ew")
  {
    assert !SameLetter("eq"[0], 'c') && !SameLetter("eq"[0], 's') && !SameLetter("eq"[1], 'w');
  }

  predicate ReflectsAll(cs: seq<Cond>, ps: seq<Part>) {
    |cs| == |ps| && forall i | 0 <= i < |cs| :: Reflects(cs[i], ps[i])
  }

  /** The element fans out to its own condition and all its alternatives, in their order. */
  lemma ElementReflected(db: Database, e: Element)
    requires forall p | p in Parts(e) :: IsScalar(p.value)
    ensures var r := CondsOf(db, ElementJson(e)); r.Some? && ReflectsAll(r.value, Parts(e))
  {
    hide CondOf;
    hide Reflects;
    hide Get;
    hide CarriesPart;
    hide ElementJson;
    hide PartJson;
    hide IsScalar;
    var j, ps := ElementJson(e), Parts(e);
    assert ps[0] == e.part;
    PartCarried(e.part, e);
    PartReflected(db, e.part, j);
    var r := CondsOf(db, j);
    forall i | 1 <= i < |ps| ensures Reflects(r.value[i], ps[i]) {
      assert ps[i] in ps && ps[i] == e.alternatives.value[i - 1];
      PartCarried(ps[i], e);
      PartReflected(db, ps[i], PartJson(ps[i]));
      assert r.value[i] == CondOf(db, PartJson(ps[i]));
    }
  }

  lemma FilterReflected(db: Database, es: seq<Element>)
    requires forall e, p | e in es && p in Parts(e) :: IsScalar(p.value)
    ensures var r := ReadFilter(db, Arr(Map(ElementJson, es)));
            r.Some? && |r.value| == |es| && forall i | 0 <= i < |es| :: ReflectsAll(r.value[i], Parts(es[i]))
  {
    hide CondsOf;
    hide ReflectsAll;
    var items := Map(ElementJson, es);
    forall i | 0 <= i < |es|
      ensures CondsOf(db, items[i]).Some? && ReflectsAll(CondsOf(db, items[i]).value, Parts(es[i]))
    {
      assert es[i] in es;
      ElementReflected(db, es[i]);
    }
  }

  // ---------- From conditions to answers ----------

  predicate IsPattern(op: string) { op == "cn" || op == "sw" || op == "ew" }

  lemma HoldsIff(op: string, column: string, val: string)
    requires IsPattern(op) ==> Literal(val)
    ensures op == "cn" ==> (Holds(op, column, val) <==> exists i | 0 <= i <= |column| :: StandsAt(column, val, i))
    ensures op == "sw" ==> (Holds(op, column, val) <==> StandsAt(column, val, 0))
    ensures op == "ew" ==>
              (Holds(op, column, val) <==> |val| <= |column| && StandsAt(column, val, |column| - |val|))
    ensures !IsPattern(op) ==> (Holds(op, column, val) <==> column == val)
  {
    hide StandsAt;
    hide ILike;
    if IsPattern(op) {
      ContainsMeaning(column, val);
      StartsWithMeaning(column, val);
      EndsWithMeaning(column, val);
    }
  }

  lemma PassesIff(column: string, c: Cond, p: Part)
    requires Reflects(c, p) && (IsPattern(c.op) ==> Literal(c.val))
    ensures Holds(c.op, column, c.val) <==> Passes(column, p, c.val)
  {
    hide StandsAt;
    hide Holds;
    HoldsIff(c.op, column, c.val);
    OneOperation(p);
  }

  lemma OneOperation(p: Part)
    ensures !(Says(p, "cn") && Says(p, "sw")) && !(Says(p, "cn") && Says(p, "ew")) && !(Says(p, "sw") && Says(p, "ew"))
  {
    if p.op.Some? && |p.op.value| == 2 {
      var c := p.op.value[0];
      assert !(SameLetter(c, 'c') && SameLetter(c, 's'));
      assert !(SameLetter(c, 'c') && SameLetter(c, 'e'));
      assert !(SameLetter(c, 's') && SameLetter(c, 'e'));
    }
  }

  lemma ColumnKnown(col: Option<Column>)
    ensures col == None || col == Some(Email) || col == Some(Name)
  {
    if col.Some? {
      match col.value
      case Email =>
      case Name =>
    }
  }

  lemma MatchIff(u: Row, c: Cond, p: Part)
    requires Reflects(c, p) && IsScalar(p.value)
    requires TakesPattern(p) ==> forall text | text in Texts(p.value) :: Literal(text)
    ensures RecognizedMatch(u, c) <==> PassesPart(u, p)
    ensures IsPattern(c.op) ==> Literal(c.val)
    ensures c.col == None <==> !ForEmail(p) && !ForName(p)
  {
    ColumnKnown(c.col);
    hide Holds;
    hide Passes;
    hide ForEmail;
    hide ForName;
    hide Says;
    PassesIff(u.email, c, p);
    if u.name.Some? {
      PassesIff(u.name.value, c, p);
    }
    assert Texts(p.value) == {c.val};
  }

  lemma GroupIff(u: Row, cs: seq<Cond>, e: Element)
    requires ReflectsAll(cs, Parts(e)) && PlainValues(e)
    ensures PlainGroup(u, cs) <==> PassesElement(u, e)
    ensures forall i | 0 <= i < |cs| && IsPattern(cs[i].op) :: Literal(cs[i].val)
  {
    hide RecognizedMatch;
    hide PassesPart;
    hide Literal;
    var ps := Parts(e);
    forall i | 0 <= i < |cs|
      ensures RecognizedMatch(u, cs[i]) <==> PassesPart(u, ps[i])
      ensures IsPattern(cs[i].op) ==> Literal(cs[i].val)
      ensures cs[i].col == None <==> !ForEmail(ps[i]) && !ForName(ps[i])
      ensures cs[i].col == Some(Name) <==> ForName(ps[i])
    {
      assert ps[i] in ps;
      MatchIff(u, cs[i], ps[i]);
    }
    hide ForEmail;
    hide ForName;
    hide Reflects;
    hide Parts;
    assert forall p | p in ps :: exists i :: 0 <= i < |ps| && ps[i] == p;
  }

  lemma PlainIsQuiet(b: Row, filter: Filter)
    requires forall i, j | 0 <= i < |filter| && 0 <= j < |filter[i]| && IsPattern(filter[i][j].op) ::
               Literal(filter[i][j].val)
    ensures !Raises(b, filter)
  {
    forall i, j | 0 <= i < |filter| && 0 <= j < |filter[i]| && filter[i][j].op == "ew"
      ensures Backslashes(filter[i][j].val) == 0
    {
      var v := filter[i][j].val;
      if v != "" {
        assert v[|v| - 1] in v;
      }
    }
    EvenFiltersAreQuiet(b, filter);
  }

  lemma AllIff(u: Row, filter: Filter, es: seq<Element>)
    requires |filter| == |es| && forall i | 0 <= i < |es| :: ReflectsAll(filter[i], Parts(es[i])) && PlainValues(es[i])
    ensures PlainHolds(u, filter) <==> PassesAll(u, es)
    ensures !Raises(u, filter)
  {
    hide PlainGroup;
    hide PassesElement;
    hide Literal;
    hide ReflectsAll;
    hide PlainValues;
    hide Raises;
    forall i | 0 <= i < |es|
      ensures PlainGroup(u, filter[i]) <==> PassesElement(u, es[i])
      ensures forall j | 0 <= j < |filter[i]| && IsPattern(filter[i][j].op) :: Literal(filter[i][j].val)
    {
      GroupIff(u, filter[i], es[i]);
    }
    PlainIsQuiet(u, filter);
    if PassesAll(u, es) {
      assert forall i | 0 <= i < |es| :: es[i] in es;
    }
  }

  // ---------- The whole search ----------

  /** The members that pass, each once, newest first, and nobody else. */
  predicate Lists(all: seq<Row>, users: seq<Row>, memberships: set<(nat, nat)>, org: nat, es: seq<Element>) {
    && (forall i, j | 0 <= i < j < |all| :: all[i].createdAt >= all[j].createdAt)
    && (forall u | u in all :: u in users)
    && (forall u | u in users :: multiset(all)[u] == if (org, u.id) in memberships && PassesAll(u, es) then 1 else 0)
  }

  /** A payload with this filter array; without any it asks for no filter at all. */
  predicate Sends(payload: Json, es: seq<Element>) {
    if payload.Obj? && "filterFields" in payload.fields
    then payload.fields["filterFields"] == Arr(Map(ElementJson, es)) else es == []
  }

  lemma SendsFilter(db: Database, payload: Json, es: seq<Element>)
    requires Sends(payload, es) && ParamsOf(db, payload).Some?
    ensures ParamsOf(db, payload).value.filters == Arr(Map(ElementJson, es))
  {
    hide IntParam;
  }

  /** The rows of one page of the list, each with the length of all of it; an offset beyond int4 is an error. */
  predicate IsPage(found: Option<seq<Counted>>, all: seq<Row>, size: nat, num: nat) {
    var start := size * num;
    if start > MAX_INT4 then found == None
    else
      && found.Some? && |found.value| == Least(size, Greatest(0, |all| - start))
      && forall i | 0 <= i < |found.value| :: found.value[i] == (all[start + i], |all|)
  }

  lemma PageRows(all: seq<Row>, size: nat, num: nat)
    ensures IsPage(WithTotal(Page(all, size, num), |all|), all, size, num)
  {
  }

  lemma ListsTheMatches(
      all: seq<Row>, users: seq<Row>, memberships: set<(nat, nat)>, org: nat, filter: Filter, es: seq<Element>)
    requires ExactlyTheMatches(all, users, memberships, org, filter)
    requires forall u: Row :: PlainHolds(u, filter) <==> PassesAll(u, es)
    ensures Lists(all, users, memberships, org, es)
  {
    hide PlainHolds;
    hide PassesAll;
  }

  lemma ElementsUnderstood(db: Database, es: seq<Element>)
    requires forall e | e in es :: PlainValues(e)
    ensures ReadFilter(db, Arr(Map(ElementJson, es))).Some?
    ensures var filter := ReadFilter(db, Arr(Map(ElementJson, es))).value;
            forall u: Row :: !Raises(u, filter) && (PlainHolds(u, filter) <==> PassesAll(u, es))
  {
    hide PlainValues;
    hide PlainHolds;
    hide PassesAll;
    hide Raises;
    hide ReadFilter;
    hide ReflectsAll;
    hide ElementJson;
    ScalarValues(es);
    FilterReflected(db, es);
    var filter := ReadFilter(db, Arr(Map(ElementJson, es))).value;
    assert forall i | 0 <= i < |es| :: es[i] in es;
    forall u: Row ensures !Raises(u, filter) && (PlainHolds(u, filter) <==> PassesAll(u, es)) {
      AllIff(u, filter, es);
    }
  }

  lemma QuietForAll(db: Database, base: seq<Row>, filters: Json)
    requires ReadFilter(db, filters).Some? && forall u: Row :: !Raises(u, ReadFilter(db, filters).value)
    ensures Quiet(db, base, filters) && FilterIn(db, filters) == ReadFilter(db, filters).value
  {
    hide Raises;
    hide ReadFilter;
  }

  /**
   What a client gets for a filter array of such elements: the rows of the page asked for, of the members whose
   own address or name passes every element, each with the number of all of them.
   */
  lemma SearchAnswers(
      db: Database, users: seq<Row>, memberships: set<(nat, nat)>, org: nat, payload: Json, es: seq<Element>)
      returns (all: seq<Row>)
    requires DistinctIds(users) && Sends(payload, es) && forall e | e in es :: PlainValues(e)
    requires ParamsOf(db, payload).Some?
    ensures Lists(all, users, memberships, org, es)
    ensures var p := ParamsOf(db, payload).value;
            IsPage(SearchOrgUsers(db, users, memberships, org, payload), all, p.pageSize, p.pageNum)
  {
    hide *;
    SendsFilter(db, payload, es);
    ElementsUnderstood(db, es);
    var p := ParamsOf(db, payload).value;
    var filter := ReadFilter(db, p.filters).value;
    QuietForAll(db, Base(users, memberships, org), p.filters);
    AnswerableIf(db, users, memberships, org, payload);
    all := SearchIsPlain(db, users, memberships, org, payload);
    ListsTheMatches(all, users, memberships, org, filter, es);
    PageRows(all, p.pageSize, p.pageNum);
  }

  lemma AnswerableIf(db: Database, users: seq<Row>, memberships: set<(nat, nat)>, org: nat, payload: Json)
    requires ParamsOf(db, payload).Some?
    requires Quiet(db, Base(users, memberships, org), ParamsOf(db, payload).value.filters)
    ensures Answerable(db, users, memberships, org, payload)
  {
  }

  lemma ScalarValues(es: seq<Element>)
    requires forall e | e in es :: PlainValues(e)
    ensures forall e, p | e in es && p in Parts(e) :: IsScalar(p.value)
  {
  }

  // ---------- The numbers of a page ----------

  /** How a number of the payload is read: by its text, or as the default if there is none. */
  predicate NumberIs(db: Database, payload: Json, key: string, default: int, n: int) {
    if payload.Obj? && key in payload.fields && payload.fields[key] != Null
    then exists text | text in Texts(payload.fields[key]) :: db.toInt4(text) == Some(n)
    else n == default
  }

  /** Ten rows of page zero unless the payload says otherwise; never fewer than one row or more than a hundred. */
  lemma PageNumbers(db: Database, payload: Json, size: int, num: int)
    requires payload.Obj? ==>
               forall k | k in {"pageSize", "pageNum"} && k in payload.fields :: IsScalar(payload.fields[k])
    requires NumberIs(db, payload, "pageSize", 10, size) && NumberIs(db, payload, "pageNum", 0, num)
    ensures ParamsOf(db, payload).Some?
    ensures var p := ParamsOf(db, payload).value;
            && p.pageSize == (if size < 1 then 1 else if size > 100 then 100 else size)
            && p.pageNum == (if num < 0 then 0 else num)
  {
  }
}
