/**
 The text log lines of internal/logging/logging.go: quoting, the merge and order of the attributes, the
 line itself, and a parser that undoes it.
 */
module LogLine {
  import opened Options

  // ---------- Quoting ----------

  predicate NeedsQuoting(s: string) {
    s == "" || exists i | 0 <= i < |s| :: s[i] <= ' ' || s[i] == '"' || s[i] == '=' || s[i] == '\\'
  }

  /** The loop over the characters of a value. */
  method MustQuote(s: string) returns (yes: bool)
    ensures yes <==> NeedsQuoting(s)
  {
    if s == "" {
      return true;
    }
    for i := 0 to |s|
      invariant forall j | 0 <= j < i :: s[j] > ' ' && s[j] != '"' && s[j] != '=' && s[j] != '\\'
    {
      var c := s[i];
      if c <= ' ' || c == '"' || c == '=' || c == '\\' {
        return true;
      }
    }
    return false;
  }

  type PlainText = s: string | !NeedsQuoting(s) witness "0"

  predicate IsEscaped(c: char) { c == '"' || c == '\\' }

  function Escape(s: string): string {
    if s == "" then ""
    else Escape(s[..|s| - 1]) + (if IsEscaped(s[|s| - 1]) then "\\" else "") + [s[|s| - 1]]
  }

  function Quoted(s: string): string { "\"" + Escape(s) + "\"" }

  method Quote(s: string) returns (b: string)
    ensures b == Quoted(s)
  {
    b := "\"";
    for i := 0 to |s|
      invariant b == "\"" + Escape(s[..i])
    {
      assert s[..i + 1][..i] == s[..i];
      var c := s[i];
      if c == '"' || c == '\\' {
        b := b + "\\";
      }
      b := b + [c];
    }
    assert s[..|s|] == s;
    b := b + "\"";
  }

  // ---------- Pairs ----------

  /** A value as fmt prints it; a duration's print is never quoted and never needs to be. */
  datatype Value = Text(text: string) | Duration(printed: PlainText) {
    function Print(): string { if Text? then text else printed }
    predicate IsQuoted() { Text? && NeedsQuoting(text) }
    function Render(): string { if IsQuoted() then Quoted(text) else Print() }
  }

  type Pair = (string, Value)

  function KeyVal(p: Pair): string { " " + p.0 + "=" + p.1.Render() }

  /** A text is written as it is exactly if it has characters and none of them needs the quotes. */
  lemma RenderMeaning(v: Value)
    ensures v.Text? ==>
              var bare := v.text != "" && forall c | c in v.text :: c > ' ' && c != '"' && c != '=' && c != '\\';
              v.Render() == if bare then v.text else Quoted(v.text)
    ensures v.Duration? ==> v.Render() == v.printed
  {
    if v.Text? && NeedsQuoting(v.text) && v.text != "" {
      var i :| 0 <= i < |v.text| && (v.text[i] <= ' ' || v.text[i] == '"' || v.text[i] == '=' || v.text[i] == '\\');
      assert v.text[i] in v.text;
    }
  }

  function RenderPairs(ps: seq<Pair>): string {
    if ps == [] then "" else KeyVal(ps[0]) + RenderPairs(ps[1..])
  }

  lemma {:induction false} RenderAppend(ps: seq<Pair>, p: Pair)
    ensures RenderPairs(ps + [p]) == RenderPairs(ps) + KeyVal(p)
  {
    hide KeyVal;
    if ps == [] {
      assert ps + [p] == [p];
    } else {
      RenderAppend(ps[1..], p);
      assert (ps + [p])[1..] == ps[1..] + [p];
    }
  }

  function RenderMessage(msg: string): string {
    if msg == "" then "" else " msg=" + Quoted(msg)
  }

  /** What follows the level on the line. */
  function Tail(msg: string, ps: seq<Pair>): string { RenderMessage(msg) + RenderPairs(ps) }

  // ---------- The parser ----------

  /** A key, its value, and whether the value stood in quotes. */
  datatype Field = Field(key: string, text: string, quoted: bool)

  /** Reads up to the closing quote: the text, and what follows it. */
  function ParseQuoted(s: string): (r: Option<(string, string)>)
    ensures r.Some? ==> |r.value.1| < |s|
  {
    if s == "" then None
    else if s[0] == '"' then Some(("", s[1..]))
    else if s[0] == '\\' && |s| == 1 then None
    else
      var skip := if s[0] == '\\' then 1 else 0;
      var rest := ParseQuoted(s[skip + 1..]);
      if rest == None then None else Some(([s[skip]] + rest.value.0, rest.value.1))
  }

  /** How far `s` goes without the character `c`. */
  function RunWithout(s: string, c: char): (k: nat)
    ensures k <= |s|
  {
    if s == "" || s[0] == c then 0 else 1 + RunWithout(s[1..], c)
  }

  function ParseFields(s: string): Option<seq<Field>>
    decreases |s|
  {
    if s == "" then Some([])
    else if s[0] != ' ' then None
    else
      var k := RunWithout(s[1..], '=');
      if k + 1 == |s| then None
      else
        var key, after := s[1..k + 1], s[k + 2..];
        if after != "" && after[0] == '"' then
          var q := ParseQuoted(after[1..]);
          if q == None then None else Prepend(Field(key, q.value.0, true), ParseFields(q.value.1))
        else
          var n := RunWithout(after, ' ');
          Prepend(Field(key, after[..n], false), ParseFields(after[n..]))
  }

  function Prepend(f: Field, fs: Option<seq<Field>>): Option<seq<Field>> {
    if fs == None then None else Some([f] + fs.value)
  }

  /** A first field msg="..." with some text is the message. */
  predicate StartsWithMessage(fs: seq<Field>) {
    fs != [] && fs[0].key == "msg" && fs[0].quoted && fs[0].text != ""
  }

  function Plain(fs: seq<Field>): seq<(string, string)> {
    seq(|fs|, i requires 0 <= i < |fs| => (fs[i].key, fs[i].text))
  }

  function ParseTail(s: string): Option<(string, seq<(string, string)>)> {
    var fs := ParseFields(s);
    if fs == None then None
    else if StartsWithMessage(fs.value) then Some((fs.value[0].text, Plain(fs.value[1..])))
    else Some(("", Plain(fs.value)))
  }

  // ---------- Parsing undoes rendering ----------

  function FieldOf(p: Pair): Field { Field(p.0, p.1.Print(), p.1.IsQuoted()) }

  function FieldsOf(ps: seq<Pair>): seq<Field> {
    seq(|ps|, i requires 0 <= i < |ps| => FieldOf(ps[i]))
  }

  predicate KeysOk(ps: seq<Pair>) { forall i | 0 <= i < |ps| :: '=' !in ps[i].0 }

  lemma {:induction false} EscapeFirst(s: string)
    requires s != ""
    ensures Escape(s) == (if IsEscaped(s[0]) then "\\" else "") + [s[0]] + Escape(s[1..])
  {
    if |s| == 1 {
      assert s[..0] == "" && s[1..] == "";
    } else {
      var n := |s| - 1;
      EscapeFirst(s[..n]);
      assert s[..n][1..] == s[1..][..n - 1];
    }
  }

  lemma {:induction false} ParseEscaped(s: string, rest: string)
    ensures ParseQuoted(Escape(s) + "\"" + rest) == Some((s, rest))
  {
    if s == "" {
      assert (Escape(s) + "\"" + rest)[1..] == rest;
    } else {
      EscapeFirst(s);
      ParseEscaped(s[1..], rest);
      var all := Escape(s) + "\"" + rest;
      var skip := if IsEscaped(s[0]) then 1 else 0;
      assert all[skip] == s[0] && all[skip + 1..] == Escape(s[1..]) + "\"" + rest;
      assert [s[0]] + s[1..] == s;
    }
  }

  lemma {:induction false} RunStops(a: string, c: char, b: string)
    requires c !in a && (b == "" || b[0] == c)
    ensures RunWithout(a + b, c) == |a|
  {
    if a == "" {
      assert a + b == b;
    } else {
      RunStops(a[1..], c, b);
      assert a[0] in a && (a + b)[1..] == a[1..] + b;
    }
  }

  lemma KeySplit(key: string, after: string, s: string)
    requires '=' !in key && s == " " + key + "=" + after
    ensures |s| == |key| + 2 + |after| && s[0] == ' '
    ensures RunWithout(s[1..], '=') == |key| && s[1..|key| + 1] == key && s[|key| + 2..] == after
  {
    assert s[1..] == key + ("=" + after);
    RunStops(key, '=', "=" + after);
  }

  lemma {:induction false} ParseQuotedField(key: string, text: string, rest: string)
    requires '=' !in key
    ensures ParseFields(" " + key + "=" + Quoted(text) + rest) == Prepend(Field(key, text, true), ParseFields(rest))
  {
    hide RunWithout;
    hide Escape;
    hide ParseQuoted;
    var after := Quoted(text) + rest;
    var s := " " + key + "=" + Quoted(text) + rest;
    assert s == " " + key + "=" + after;
    KeySplit(key, after, s);
    ParseEscaped(text, rest);
    assert after[0] == '"' && after[1..] == Escape(text) + "\"" + rest;
  }

  lemma {:induction false} ParseBareField(key: string, v: string, rest: string)
    requires '=' !in key && !NeedsQuoting(v) && (rest == "" || rest[0] == ' ')
    ensures ParseFields(" " + key + "=" + v + rest) == Prepend(Field(key, v, false), ParseFields(rest))
  {
    hide RunWithout;
    hide ParseQuoted;
    var after := v + rest;
    var s := " " + key + "=" + v + rest;
    assert s == " " + key + "=" + after;
    KeySplit(key, after, s);
    assert forall i | 0 <= i < |v| :: v[i] != ' ' && v[i] != '"';
    RunStops(v, ' ', rest);
    assert after[0] == v[0];
    assert after[..|v|] == v && after[|v|..] == rest;
  }

  lemma {:induction false} ParseOnePair(p: Pair, rest: string)
    requires '=' !in p.0 && (rest == "" || rest[0] == ' ')
    ensures ParseFields(KeyVal(p) + rest) == Prepend(FieldOf(p), ParseFields(rest))
  {
    hide ParseFields;
    hide NeedsQuoting;
    if p.1.IsQuoted() {
      ParseQuotedField(p.0, p.1.text, rest);
    } else {
      ParseBareField(p.0, p.1.Print(), rest);
    }
  }

  lemma ParseNothing()
    ensures ParseFields("") == Some([])
  {
  }

  lemma {:induction false} RenderStart(ps: seq<Pair>)
    ensures RenderPairs(ps) == "" || RenderPairs(ps)[0] == ' '
  {
  }

  lemma {:induction false} ParseRendered(ps: seq<Pair>)
    requires KeysOk(ps)
    ensures ParseFields(RenderPairs(ps)) == Some(FieldsOf(ps))
  {
    hide ParseFields;
    hide KeyVal;
    hide FieldOf;
    if ps == [] {
      ParseNothing();
    } else {
      ParseRendered(ps[1..]);
      RenderStart(ps[1..]);
      ParseOnePair(ps[0], RenderPairs(ps[1..]));
      assert FieldsOf(ps) == [FieldOf(ps[0])] + FieldsOf(ps[1..]);
    }
  }

  /** The fields of a line, with the message as a first field of its own. */
  function LineFields(msg: string, ps: seq<Pair>): seq<Field> {
    (if msg == "" then [] else [Field("msg", msg, true)]) + FieldsOf(ps)
  }

  lemma ParseLineFields(msg: string, ps: seq<Pair>)
    requires KeysOk(ps)
    ensures ParseFields(Tail(msg, ps)) == Some(LineFields(msg, ps))
  {
    hide ParseFields;
    hide RenderPairs;
    hide FieldsOf;
    hide Quoted;
    ParseRendered(ps);
    if msg == "" {
      assert Tail(msg, ps) == RenderPairs(ps) && LineFields(msg, ps) == FieldsOf(ps);
    } else {
      ParseQuotedField("msg", msg, RenderPairs(ps));
      assert " " + "msg" + "=" == " msg=";
    }
  }

  /** No message, and a first attribute that is printed the way a message is. */
  predicate LooksLikeMessage(msg: string, ps: seq<Pair>) {
    msg == "" && ps != [] && ps[0].0 == "msg" && ps[0].1.IsQuoted() && ps[0].1.text != ""
  }

  /** Parsing recovers the message and the pairs, except where an attribute poses as the message. */
  lemma TailRecoveredIff(msg: string, ps: seq<Pair>)
    requires KeysOk(ps)
    ensures ParseTail(Tail(msg, ps)) == Some((msg, Plain(FieldsOf(ps)))) <==> !LooksLikeMessage(msg, ps)
  {
    ParseLineFields(msg, ps);
    var fs := LineFields(msg, ps);
    if msg != "" {
      assert fs[1..] == FieldsOf(ps);
    } else {
      assert fs == FieldsOf(ps);
    }
  }

  /** Such an attribute exists, so the exception is real: two records, one line. */
  lemma MessageAmbiguous()
    ensures Tail("", [("msg", Text("a b"))]) == Tail("a b", [])
  {
    var ps := [("msg", Text("a b"))];
    assert "a b"[1] <= ' ';
    assert ps[0].1.Render() == Quoted("a b");
    assert RenderPairs(ps) == KeyVal(ps[0]) + RenderPairs(ps[1..]);
    assert ps[1..] == [];
    assert KeyVal(ps[0]) == " msg=" + Quoted("a b");
  }

  // ---------- Order of keys ----------

  /** Strings in code-point order, which is the byte order of their encodings. */
  predicate Le(a: string, b: string) {
    a == "" || (b != "" && (a[0] < b[0] || (a[0] == b[0] && Le(a[1..], b[1..]))))
  }

  lemma {:induction false} LeTotal(a: string, b: string)
    ensures Le(a, b) || Le(b, a)
    ensures Le(a, b) && Le(b, a) ==> a == b
    ensures Le(a, a)
  {
    if a != "" {
      LeTotal(a[1..], if b == "" then "" else b[1..]);
      if b != "" && a[0] == b[0] && a[1..] == b[1..] {
        assert a == [a[0]] + a[1..] == b;
      }
    }
  }

  lemma {:induction false} LeTransitive(a: string, b: string, c: string)
    requires Le(a, b) && Le(b, c)
    ensures Le(a, c)
  {
    if a != "" && a[0] == b[0] == c[0] {
      LeTransitive(a[1..], b[1..], c[1..]);
    }
  }

  /** Strings compare by the first character in which they differ, a prefix being the smaller. */
  lemma {:induction false} LeIff(a: string, b: string)
    ensures Le(a, b) <==>
            a <= b || exists i | 0 <= i < |a| && i < |b| :: a[..i] == b[..i] && a[i] < b[i]
  {
    if a != "" && b != "" {
      LeIff(a[1..], b[1..]);
      if a[0] == b[0] {
        assert a == [a[0]] + a[1..] && b == [b[0]] + b[1..];
        if i :| 0 <= i < |a[1..]| && i < |b[1..]| && a[1..][..i] == b[1..][..i] && a[1..][i] < b[1..][i] {
          assert a[..i + 1] == [a[0]] + a[1..][..i] && b[..i + 1] == [b[0]] + b[1..][..i];
        }
        if i :| 0 <= i < |a| && i < |b| && a[..i] == b[..i] && a[i] < b[i] {
          assert i > 0 && a[1..][..i - 1] == a[..i][1..] && b[1..][..i - 1] == b[..i][1..];
        }
      } else {
        assert a[..0] == b[..0];
        forall i | 0 < i < |a| && i < |b| ensures a[..i] != b[..i] {
          assert a[..i][0] == a[0] && b[..i][0] == b[0];
        }
      }
    }
  }

  predicate Sorted(ps: seq<Pair>) {
    forall i, j | 0 <= i < j < |ps| :: Le(ps[i].0, ps[j].0)
  }

  /** The pairs with key `k`, in their order. */
  function WithKey(ps: seq<Pair>, k: string): seq<Pair> {
    if ps == [] then []
    else WithKey(ps[..|ps| - 1], k) + if ps[|ps| - 1].0 == k then [ps[|ps| - 1]] else []
  }

  /** `x` goes behind every pair whose key is not larger. */
  function Insert(x: Pair, ps: seq<Pair>): seq<Pair> {
    var n := |ps| - 1;
    if ps == [] then [x]
    else if Le(ps[n].0, x.0) then ps + [x]
    else Insert(x, ps[..n]) + [ps[n]]
  }

  /** A stable sort by key. */
  function StableSort(ps: seq<Pair>): seq<Pair> {
    if ps == [] then [] else Insert(ps[|ps| - 1], StableSort(ps[..|ps| - 1]))
  }

  lemma {:induction false} InsertWithKey(x: Pair, ps: seq<Pair>, k: string)
    ensures WithKey(Insert(x, ps), k) == WithKey(ps, k) + if x.0 == k then [x] else []
  {
    var n := |ps| - 1;
    if ps == [] {
      assert Insert(x, ps)[..0] == [];
    } else if Le(ps[n].0, x.0) {
      assert (ps + [x])[..|ps|] == ps;
    } else {
      LeTotal(x.0, x.0);
      InsertWithKey(x, ps[..n], k);
      var r := Insert(x, ps[..n]);
      assert (r + [ps[n]])[..|r|] == r;
    }
  }

  lemma {:induction false} InsertElements(x: Pair, ps: seq<Pair>)
    ensures forall p :: p in Insert(x, ps) <==> p == x || p in ps
  {
    if ps != [] && !Le(ps[|ps| - 1].0, x.0) {
      InsertElements(x, ps[..|ps| - 1]);
      assert ps == ps[..|ps| - 1] + [ps[|ps| - 1]];
    }
  }

  lemma {:induction false} InsertSorted(x: Pair, ps: seq<Pair>)
    requires Sorted(ps)
    ensures Sorted(Insert(x, ps))
  {
    var n := |ps| - 1;
    if ps == [] {
    } else if Le(ps[n].0, x.0) {
      forall i | 0 <= i < n ensures Le(ps[i].0, x.0) {
        LeTransitive(ps[i].0, ps[n].0, x.0);
      }
    } else {
      InsertSorted(x, ps[..n]);
      InsertElements(x, ps[..n]);
      LeTotal(ps[n].0, x.0);
      var r := Insert(x, ps[..n]);
      forall i | 0 <= i < |r| ensures Le(r[i].0, ps[n].0) {
        assert r[i] in r;
      }
    }
  }

  lemma {:induction false} StableSortMeaning(ps: seq<Pair>)
    ensures Sorted(StableSort(ps))
    ensures forall k :: WithKey(StableSort(ps), k) == WithKey(ps, k)
  {
    if ps != [] {
      var n := |ps| - 1;
      StableSortMeaning(ps[..n]);
      InsertSorted(ps[n], StableSort(ps[..n]));
      forall k ensures WithKey(StableSort(ps), k) == WithKey(ps, k) {
        InsertWithKey(ps[n], StableSort(ps[..n]), k);
      }
    }
  }

  lemma {:induction false} WithKeyMember(ps: seq<Pair>, i: nat)
    requires i < |ps|
    ensures ps[i] in WithKey(ps, ps[i].0)
  {
    if i < |ps| - 1 {
      WithKeyMember(ps[..|ps| - 1], i);
    }
  }

  lemma {:induction false} WithKeySource(ps: seq<Pair>, k: string)
    ensures forall p | p in WithKey(ps, k) :: p in ps && p.0 == k
  {
    if ps != [] {
      WithKeySource(ps[..|ps| - 1], k);
    }
  }

  /** The largest key of `ps` is not larger than the largest key of `qs`. */
  lemma {:induction false} LastKeyLe(ps: seq<Pair>, qs: seq<Pair>)
    requires ps != [] && Sorted(qs)
    requires forall k :: WithKey(ps, k) == WithKey(qs, k)
    ensures qs != [] && Le(ps[|ps| - 1].0, qs[|qs| - 1].0)
  {
    var k := ps[|ps| - 1].0;
    WithKeyMember(ps, |ps| - 1);
    WithKeySource(qs, k);
    assert ps[|ps| - 1] in WithKey(qs, k);
    var i :| 0 <= i < |qs| && qs[i] == ps[|ps| - 1];
    LeTotal(k, k);
  }

  /** A sorted list is determined by the order within each key. */
  lemma {:induction false} SortedUnique(ps: seq<Pair>, qs: seq<Pair>)
    requires Sorted(ps) && Sorted(qs)
    requires forall k :: WithKey(ps, k) == WithKey(qs, k)
    ensures ps == qs
  {
    if ps == [] {
      if qs != [] {
        LastKeyLe(qs, ps);
      }
    } else {
      LastKeyLe(ps, qs);
      LastKeyLe(qs, ps);
      var p, q := ps[|ps| - 1], qs[|qs| - 1];
      LeTotal(p.0, q.0);
      var ps', qs' := ps[..|ps| - 1], qs[..|qs| - 1];
      assert WithKey(ps, p.0) == WithKey(ps', p.0) + [p];
      assert WithKey(qs, p.0) == WithKey(qs', p.0) + [q];
      assert (WithKey(ps', p.0) + [p])[|WithKey(ps', p.0)|] == p;
      assert |WithKey(ps', p.0)| == |WithKey(qs', p.0)|;
      assert p == q;
      forall k ensures WithKey(ps', k) == WithKey(qs', k) {
        if k == p.0 {
          assert WithKey(ps', k) == (WithKey(ps', k) + [p])[..|WithKey(ps', k)|];
          assert WithKey(qs', k) == (WithKey(qs', k) + [p])[..|WithKey(qs', k)|];
        } else {
          assert WithKey(ps, k) == WithKey(ps', k);
          assert WithKey(qs, k) == WithKey(qs', k);
        }
      }
      SortedUnique(ps', qs');
      assert ps == ps' + [p] && qs == qs' + [q];
    }
  }

  // ---------- Collecting the attributes ----------

  /** A scalar attribute, or a group of them. */
  datatype AttrValue = Scalar(value: Value) | Group(members: seq<Pair>)

  type Attr = (string, AttrValue)

  datatype SessionInfo = SessionInfo(userId: string, activeOrg: string, provider: string)

  /** What the request context holds for the logger. */
  datatype Context = Context(
    requestId: Option<string>, logUser: Option<string>, logOrg: Option<string>, logProvider: Option<string>,
    session: Option<SessionInfo>, user: Option<string>, org: Option<string>)

  type Table = map<string, Value>

  function Put(m: Table, k: string, v: Option<string>): Table {
    if v.Some? then m[k := Text(v.value)] else m
  }

  /** The enrichment from the context; later sources overwrite earlier ones. */
  function Enrich(c: Context): Table {
    var m := Put(Put(Put(Put(map[], "request_id", c.requestId), "user_id", c.logUser), "org_id", c.logOrg),
                 "provider", c.logProvider);
    var m := if c.session.Some? then
        var s := c.session.value;
        Put(m["user_id" := Text(s.userId)]["org_id" := Text(s.activeOrg)],
            "provider", if s.provider != "" then Some(s.provider) else None)
      else Put(m, "user_id", c.user);
    Put(m, "org_id", c.org)
  }

  function Or<T>(a: Option<T>, b: Option<T>): Option<T> { if a.Some? then a else b }

  function Found(m: Table, k: string): Option<string> {
    if k in m && m[k].Text? then Some(m[k].text) else None
  }

  predicate AllText(m: Table) { forall k | k in m :: m[k].Text? }

  lemma PutFound(m: Table, k: string, v: Option<string>, q: string)
    requires AllText(m)
    ensures AllText(Put(m, k, v))
    ensures Found(Put(m, k, v), q) == if q == k then Or(v, Found(m, q)) else Found(m, q)
  {
  }

  lemma SetFound(m: Table, k: string, v: string, q: string)
    requires AllText(m)
    ensures AllText(m[k := Text(v)])
    ensures Found(m[k := Text(v)], q) == if q == k then Some(v) else Found(m, q)
  {
  }

  /** What one key of the enrichment comes to, source by source. */
  lemma EnrichFound(c: Context, q: string)
    ensures AllText(Enrich(c))
    ensures var logged := if q == "request_id" then c.requestId else if q == "user_id" then c.logUser
                          else if q == "org_id" then c.logOrg else if q == "provider" then c.logProvider else None;
            var later := if c.session == None then Or(if q == "user_id" then c.user else None, logged)
                         else if q == "user_id" then Some(c.session.value.userId)
                         else if q == "org_id" then Some(c.session.value.activeOrg)
                         else if q == "provider" && c.session.value.provider != "" then Some(c.session.value.provider)
                         else logged;
            Found(Enrich(c), q) == Or(if q == "org_id" then c.org else None, later)
  {
    KeysDiffer();
    hide Put;
    hide Found;
    var m0: Table := map[];
    var m1 := Put(m0, "request_id", c.requestId);
    var m2 := Put(m1, "user_id", c.logUser);
    var m3 := Put(m2, "org_id", c.logOrg);
    var m4 := Put(m3, "provider", c.logProvider);
    NothingFound(q);
    PutFound(m0, "request_id", c.requestId, q);
    PutFound(m1, "user_id", c.logUser, q);
    PutFound(m2, "org_id", c.logOrg, q);
    PutFound(m3, "provider", c.logProvider, q);
    if c.session.Some? {
      var x := c.session.value;
      SetFound(m4, "user_id", x.userId, q);
      var m5 := m4["user_id" := Text(x.userId)];
      SetFound(m5, "org_id", x.activeOrg, q);
      var m6 := m5["org_id" := Text(x.activeOrg)];
      var provider := if x.provider != "" then Some(x.provider) else None;
      PutFound(m6, "provider", provider, q);
      PutFound(Put(m6, "provider", provider), "org_id", c.org, q);
    } else {
      PutFound(m4, "user_id", c.user, q);
      PutFound(Put(m4, "user_id", c.user), "org_id", c.org, q);
    }
  }

  lemma NothingFound(q: string)
    ensures Found(map[], q) == None && AllText(map[])
  {
  }

  lemma KeysDiffer()
    ensures "request_id" != "user_id" && "request_id" != "org_id" && "request_id" != "provider"
    ensures "user_id" != "org_id" && "user_id" != "provider" && "org_id" != "provider"
  {
    assert "request_id"[0] == 'r' && "user_id"[0] == 'u' && "org_id"[0] == 'o' && "provider"[0] == 'p';
  }

  /**
   Where each key of the enrichment comes from: the organisation of the context before that of the session
   before that of the log; the user of the session before any other; the provider of the session if it has one.
   */
  lemma EnrichMeaning(c: Context)
    ensures var m := Enrich(c);
            && Found(m, "request_id") == c.requestId
            && (c.session.Some? ==>
                  && Found(m, "user_id") == Some(c.session.value.userId)
                  && Found(m, "org_id") == Or(c.org, Some(c.session.value.activeOrg))
                  && Found(m, "provider")
                     == if c.session.value.provider == "" then c.logProvider else Some(c.session.value.provider))
            && (c.session == None ==>
                  && Found(m, "user_id") == Or(c.user, c.logUser)
                  && Found(m, "org_id") == Or(c.org, c.logOrg)
                  && Found(m, "provider") == c.logProvider)
  {
    KeysDiffer();
    EnrichFound(c, "request_id");
    EnrichFound(c, "user_id");
    EnrichFound(c, "org_id");
    EnrichFound(c, "provider");
    hide Enrich;
    hide Found;
  }

  predicate IsPlain(a: Attr) { a.0 != "" && a.1.Scalar? }

  /** The plain attributes written over the enrichment, in order. */
  function Merge(m: Table, attrs: seq<Attr>): Table {
    if attrs == [] then m
    else
      var rest, a := Merge(m, attrs[..|attrs| - 1]), attrs[|attrs| - 1];
      if IsPlain(a) then rest[a.0 := a.1.value] else rest
  }

  function FlattenGroup(prefix: string, members: seq<Pair>): seq<Pair> {
    if members == [] then []
    else
      var g := members[|members| - 1];
      FlattenGroup(prefix, members[..|members| - 1]) + if g.0 == "" then [] else [(prefix + "." + g.0, g.1)]
  }

  function FlattenGroups(attrs: seq<Attr>): seq<Pair> {
    if attrs == [] then []
    else
      var a := attrs[|attrs| - 1];
      FlattenGroups(attrs[..|attrs| - 1]) + if a.0 != "" && a.1.Group? then FlattenGroup(a.0, a.1.members) else []
  }

  /** A plain key carries its last written value, or what the context gave. */
  lemma {:induction false} LastWriteWins(m: Table, attrs: seq<Attr>, k: string)
    ensures k in Merge(m, attrs) <==> k in m || exists i | 0 <= i < |attrs| :: IsPlain(attrs[i]) && attrs[i].0 == k
    ensures forall i | 0 <= i < |attrs| && IsPlain(attrs[i]) && attrs[i].0 == k &&
                       (forall j | i < j < |attrs| :: !(IsPlain(attrs[j]) && attrs[j].0 == k)) ::
              k in Merge(m, attrs) && Merge(m, attrs)[k] == attrs[i].1.value
    ensures k in m && (forall j | 0 <= j < |attrs| :: !(IsPlain(attrs[j]) && attrs[j].0 == k)) ==>
              k in Merge(m, attrs) && Merge(m, attrs)[k] == m[k]
  {
    if attrs != [] {
      var n := |attrs| - 1;
      LastWriteWins(m, attrs[..n], k);
      assert forall i | 0 <= i < n :: attrs[..n][i] == attrs[i];
    }
  }

  // ---------- The order of the pairs ----------

  const PRIORITY: seq<string> := ["method", "url", "status", "duration"]

  /** The priority keys that are present, in their fixed order. */
  function PriorityPairs(m: Table, keys: seq<string>): seq<Pair> {
    if keys == [] then []
    else
      var k := keys[|keys| - 1];
      PriorityPairs(m, keys[..|keys| - 1]) + if k in m then [(k, m[k])] else []
  }

  /** `mid` holds every other plain key exactly once, with its value, in key order. */
  ghost predicate OthersOnce(m: Table, mid: seq<Pair>) {
    Sorted(mid) && forall k :: WithKey(mid, k) == if k in m && k !in PRIORITY then [(k, m[k])] else []
  }

  /** `end` holds the group pairs in key order, pairs with one key in the order they came. */
  ghost predicate GroupsStable(groups: seq<Pair>, end: seq<Pair>) {
    Sorted(end) && forall k :: WithKey(end, k) == WithKey(groups, k)
  }

  ghost predicate ArrangedAs(m: Table, groups: seq<Pair>, ps: seq<Pair>, mid: seq<Pair>, end: seq<Pair>) {
    ps == PriorityPairs(m, PRIORITY) + mid + end && OthersOnce(m, mid) && GroupsStable(groups, end)
  }

  /** Priority keys first, the other plain keys sorted, then the group pairs stably sorted. */
  ghost predicate Arranged(m: Table, groups: seq<Pair>, ps: seq<Pair>) {
    exists mid, end :: ArrangedAs(m, groups, ps, mid, end)
  }

  /** The arrangement is unique, so it fixes the line. */
  lemma ArrangedUnique(m: Table, groups: seq<Pair>, ps: seq<Pair>, qs: seq<Pair>)
    requires Arranged(m, groups, ps) && Arranged(m, groups, qs)
    ensures ps == qs
  {
    var mid: seq<Pair>, end: seq<Pair> :| ArrangedAs(m, groups, ps, mid, end);
    var mid', end' :| ArrangedAs(m, groups, qs, mid', end');
    SortedUnique(mid, mid');
    SortedUnique(end, end');
  }

  // ---------- The handler ----------

  function UpperLevel(l: int): string {
    if l <= -4 then "DEBUG" else if l <= 0 then "INFO" else if l <= 4 then "WARN" else "ERROR"
  }

  /** The four names, by the thresholds of the levels: -4, 0 and 4. */
  lemma LevelNames(l: int)
    ensures (l <= -4 <==> UpperLevel(l) == "DEBUG") && (-4 < l <= 0 <==> UpperLevel(l) == "INFO")
    ensures (0 < l <= 4 <==> UpperLevel(l) == "WARN") && (4 < l <==> UpperLevel(l) == "ERROR")
  {
    assert "DEBUG"[0] == 'D' && "INFO"[0] == 'I' && "WARN"[0] == 'W' && "ERROR"[0] == 'E';
  }

  function Line(stamp: string, level: int, msg: string, ps: seq<Pair>): string {
    stamp + " level=" + UpperLevel(level) + Tail(msg, ps) + "\n"
  }

  class TextHandler {
    var out: string
    const attrs: seq<Attr>

    constructor (attrs: seq<Attr>)
      ensures this.attrs == attrs && out == ""
    {
      this.attrs, out := attrs, "";
    }

    /** `stamp` is the formatted time; `record` holds the attributes of the record itself. */
    method Handle(stamp: string, level: int, msg: string, ctx: Context, record: seq<Attr>)
      modifies this`out
      ensures exists ps ::
                && Arranged(Merge(Enrich(ctx), attrs + record), FlattenGroups(attrs + record), ps)
                && out == old(out) + Line(stamp, level, msg, ps)
    {
      hide *;
      var sb := stamp + " level=" + UpperLevel(level);
      sb := AppendMessage(sb, msg);
      var normal, groups := Collect(ctx, attrs + record);
      var others;
      sb, others := AppendPriority(sb, normal);
      var mid := SortedPairs(others);
      sb := AppendAll(sb, mid);
      var end := StableSort(groups);
      sb := AppendAll(sb, end);
      sb := sb + "\n";
      ArrangedBySorting(normal, groups, others, mid);
      LineAssembled(stamp, level, msg, PriorityPairs(normal, PRIORITY), mid, end);
      out := out + sb;
    }
  }

  method AppendMessage(sb: string, msg: string) returns (r: string)
    ensures r == sb + RenderMessage(msg)
  {
    r := sb;
    if msg != "" {
      var q := Quote(msg);
      r := r + " msg=" + q;
    }
  }

  lemma {:induction false} ArrangedBySorting(m: Table, groups: seq<Pair>, others: Table, mid: seq<Pair>)
    requires others == map k | k in m && k !in PRIORITY :: m[k]
    requires Sorted(mid) && forall k :: WithKey(mid, k) == if k in others then [(k, others[k])] else []
    ensures Arranged(m, groups, PriorityPairs(m, PRIORITY) + mid + StableSort(groups))
  {
    hide PriorityPairs;
    hide StableSort;
    hide Sorted;
    hide WithKey;
    StableSortMeaning(groups);
    var end := StableSort(groups);
    assert ArrangedAs(m, groups, PriorityPairs(m, PRIORITY) + mid + end, mid, end);
  }

  lemma {:induction false} LineAssembled(
      stamp: string, level: int, msg: string, p: seq<Pair>, mid: seq<Pair>, end: seq<Pair>)
    ensures stamp + " level=" + UpperLevel(level) + RenderMessage(msg)
            + RenderPairs(p) + RenderPairs(mid) + RenderPairs(end) + "\n"
         == Line(stamp, level, msg, p + mid + end)
  {
    hide RenderPairs;
    hide RenderMessage;
    hide UpperLevel;
    RenderConcat(p, mid);
    RenderConcat(p + mid, end);
  }

  lemma {:induction false} PriorityAppend(m: Table, keys: seq<string>, k: string)
    ensures PriorityPairs(m, keys + [k]) == PriorityPairs(m, keys) + if k in m then [(k, m[k])] else []
  {
    assert (keys + [k])[..|keys|] == keys;
  }

  /** Renders the priority keys that are present and removes them. */
  method AppendPriority(sb: string, m: Table) returns (r: string, others: Table)
    ensures r == sb + RenderPairs(PriorityPairs(m, PRIORITY))
    ensures others == map k | k in m && k !in PRIORITY :: m[k]
  {
    hide KeyVal;
    hide RenderPairs;
    r, others := sb, m;
    PriorityDistinct();
    ghost var prio := PRIORITY;
    ghost var ps: seq<Pair> := [];
    RenderNothing();
    for i := 0 to |PRIORITY|
      invariant ps == PriorityPairs(m, prio[..i])
      invariant r == sb + RenderPairs(ps)
      invariant others == map k | k in m && k !in prio[..i] :: m[k]
    {
      var k := PRIORITY[i];
      assert prio[..i + 1] == prio[..i] + [k];
      assert k !in prio[..i];
      PriorityAppend(m, prio[..i], k);
      if k in others {
        RenderAppend(ps, (k, m[k]));
        r := r + KeyVal((k, others[k]));
        others := others - {k};
        ps := ps + [(k, m[k])];
      }
    }
    assert prio[..|prio|] == prio;
  }

  lemma RenderNothing()
    ensures RenderPairs([]) == ""
  {
  }

  /** Merges the plain attributes over the enrichment and flattens the groups. */
  method Collect(ctx: Context, attrs: seq<Attr>) returns (normal: Table, groups: seq<Pair>)
    ensures normal == Merge(Enrich(ctx), attrs) && groups == FlattenGroups(attrs)
  {
    normal, groups := Enrich(ctx), [];
    for i := 0 to |attrs|
      invariant normal == Merge(Enrich(ctx), attrs[..i]) && groups == FlattenGroups(attrs[..i])
    {
      assert attrs[..i + 1][..i] == attrs[..i];
      var a := attrs[i];
      if a.0 == "" {
        continue;
      }
      match a.1
      case Scalar(v) =>
        normal := normal[a.0 := v];
      case Group(members) =>
        ghost var before := groups;
        for j := 0 to |members|
          invariant groups == before + FlattenGroup(a.0, members[..j])
        {
          assert members[..j + 1][..j] == members[..j];
          if members[j].0 != "" {
            groups := groups + [(a.0 + "." + members[j].0, members[j].1)];
          }
        }
        assert members[..|members|] == members;
    }
    assert attrs[..|attrs|] == attrs;
  }

  /** The entries of a map, drawn in any order and then sorted by key. */
  method SortedPairs(m: Table) returns (ps: seq<Pair>)
    ensures Sorted(ps)
    ensures forall k :: WithKey(ps, k) == if k in m then [(k, m[k])] else []
  {
    hide StableSort;
    hide Sorted;
    var keys: seq<Pair> := [];
    var todo := m.Keys;
    while todo != {}
      invariant todo <= m.Keys
      invariant forall k :: WithKey(keys, k) == if k in m && k !in todo then [(k, m[k])] else []
      decreases todo
    {
      var k :| k in todo;
      assert (keys + [(k, m[k])])[..|keys|] == keys;
      keys := keys + [(k, m[k])];
      todo := todo - {k};
    }
    ps := StableSort(keys);
    StableSortMeaning(keys);
  }

  method AppendAll(sb: string, ps: seq<Pair>) returns (r: string)
    ensures r == sb + RenderPairs(ps)
  {
    r := sb;
    for i := 0 to |ps|
      invariant r == sb + RenderPairs(ps[..i])
    {
      RenderAppend(ps[..i], ps[i]);
      assert ps[..i + 1] == ps[..i] + [ps[i]];
      r := r + KeyVal(ps[i]);
    }
    assert ps[..|ps|] == ps;
  }

  lemma PriorityDistinct()
    ensures forall i, j | 0 <= i < j < |PRIORITY| :: PRIORITY[i] != PRIORITY[j]
  {
    assert PRIORITY[0][0] == 'm' && PRIORITY[1][0] == 'u' && PRIORITY[2][0] == 's' && PRIORITY[3][0] == 'd';
  }

  lemma {:induction false} RenderConcat(ps: seq<Pair>, qs: seq<Pair>)
    ensures RenderPairs(ps + qs) == RenderPairs(ps) + RenderPairs(qs)
  {
    hide KeyVal;
    if ps == [] {
      assert ps + qs == qs;
    } else {
      RenderConcat(ps[1..], qs);
      assert (ps + qs)[1..] == ps[1..] + qs && (ps + qs)[0] == ps[0];
      var a, b, c := KeyVal(ps[0]), RenderPairs(ps[1..]), RenderPairs(qs);
      assert RenderPairs(ps + qs) == a + (b + c);
      assert a + (b + c) == a + b + c;
    }
  }

  // ---------- A whole line, read back ----------

  predicate AttrKeysOk(attrs: seq<Attr>) {
    forall i | 0 <= i < |attrs| ::
      '=' !in attrs[i].0 && (attrs[i].1.Group? ==> KeysOk(attrs[i].1.members))
  }

  lemma {:induction false} PriorityPairKeys(m: Table, keys: seq<string>)
    ensures forall p | p in PriorityPairs(m, keys) :: p.0 in m
  {
    if keys != [] {
      PriorityPairKeys(m, keys[..|keys| - 1]);
    }
  }

  lemma {:induction false} FlattenGroupKeys(prefix: string, members: seq<Pair>)
    requires '=' !in prefix && KeysOk(members)
    ensures KeysOk(FlattenGroup(prefix, members))
  {
    if members != [] {
      FlattenGroupKeys(prefix, members[..|members| - 1]);
    }
  }

  lemma {:induction false} FlattenKeys(attrs: seq<Attr>)
    requires AttrKeysOk(attrs)
    ensures KeysOk(FlattenGroups(attrs))
  {
    if attrs != [] {
      var a := attrs[|attrs| - 1];
      FlattenKeys(attrs[..|attrs| - 1]);
      if a.1.Group? {
        FlattenGroupKeys(a.0, a.1.members);
      }
    }
  }

  lemma EnrichedKeys(ctx: Context)
    ensures forall k | k in Enrich(ctx) :: k in {"request_id", "user_id", "org_id", "provider"} && '=' !in k
  {
  }

  lemma {:induction false} MergedKeys(ctx: Context, attrs: seq<Attr>)
    requires AttrKeysOk(attrs)
    ensures forall k | k in Merge(Enrich(ctx), attrs) :: '=' !in k
  {
    hide Enrich;
    hide Merge;
    EnrichedKeys(ctx);
    forall k | k in Merge(Enrich(ctx), attrs) ensures '=' !in k {
      LastWriteWins(Enrich(ctx), attrs, k);
    }
  }

  lemma {:induction false} ArrangedKeysOk(ctx: Context, attrs: seq<Attr>, ps: seq<Pair>)
    requires AttrKeysOk(attrs)
    requires Arranged(Merge(Enrich(ctx), attrs), FlattenGroups(attrs), ps)
    ensures KeysOk(ps)
  {
    hide Enrich;
    hide Merge;
    hide FlattenGroups;
    hide PriorityPairs;
    hide WithKey;
    hide Sorted;
    hide AttrKeysOk;
    var m, groups := Merge(Enrich(ctx), attrs), FlattenGroups(attrs);
    var mid: seq<Pair>, end: seq<Pair> :| ArrangedAs(m, groups, ps, mid, end);
    EnrichedKeys(ctx);
    FlattenKeys(attrs);
    PriorityPairKeys(m, PRIORITY);
    MergedKeys(ctx, attrs);
    forall i | 0 <= i < |mid| ensures '=' !in mid[i].0 {
      WithKeyMember(mid, i);
    }
    forall i | 0 <= i < |end| ensures '=' !in end[i].0 {
      WithKeyMember(end, i);
      WithKeySource(groups, end[i].0);
    }
    forall i | 0 <= i < |ps| ensures '=' !in ps[i].0 {
      var p := PriorityPairs(m, PRIORITY);
      if i < |p| {
        assert ps[i] == p[i];
      } else if i < |p| + |mid| {
        assert ps[i] == mid[i - |p|];
      } else {
        assert ps[i] == end[i - |p| - |mid|];
      }
    }
  }

  /** The part of a line between the level and the line feed. */
  function TailOf(stamp: string, level: int, line: string): string
    requires |stamp| + |" level=" + UpperLevel(level)| < |line|
  {
    line[|stamp| + |" level=" + UpperLevel(level)|..|line| - 1]
  }

  /** Whatever a handler writes can be read back: the message, and the pairs in the order they stand. */
  lemma {:induction false} HandledLineRecovered(
      stamp: string, level: int, msg: string, ctx: Context, attrs: seq<Attr>, ps: seq<Pair>)
    requires AttrKeysOk(attrs)
    requires Arranged(Merge(Enrich(ctx), attrs), FlattenGroups(attrs), ps)
    ensures var line := Line(stamp, level, msg, ps);
            |stamp| + |" level=" + UpperLevel(level)| < |line| &&
            (ParseTail(TailOf(stamp, level, line)) == Some((msg, Plain(FieldsOf(ps)))) <==> !LooksLikeMessage(msg, ps))
  {
    ArrangedKeysOk(ctx, attrs, ps);
    TailRecoveredIff(msg, ps);
    assert TailOf(stamp, level, Line(stamp, level, msg, ps)) == Tail(msg, ps);
  }
}
