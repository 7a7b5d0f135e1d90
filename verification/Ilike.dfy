/**
 PostgreSQL's ILIKE (section 9.7.1 of its manual): `%` matches any run of characters, `_` any one, a
 backslash makes the next character literal, and case is ignored.  A backslash with nothing after it is an
 error, but only where the matcher gets that far.
 */
module Ilike {
  import opened Text

  // ---------- The matcher ----------

  datatype Matched = Yes | No | Raised

  /** Matches from the left; at a `%` it goes on to look for the rest of the pattern. */
  function Match(t: string, p: string): Matched
    decreases |t|, |p|, 0
  {
    if p == "" then if t == "" then Yes else No
    else if t == "" then if p[0] == '%' then Match(t, p[1..]) else No
    else if p[0] == '%' then Find(t, p[1..])
    else if p[0] == '_' then Match(t[1..], p[1..])
    else if p == "\\" then Raised
    else
      var skip := if p[0] == '\\' then 1 else 0;
      if LowerChar(t[0]) == LowerChar(p[skip]) then Match(t[1..], p[skip + 1..]) else No
  }

  /** Looks for the leftmost place at which the pattern matches; wildcards before it are skipped first. */
  function Find(t: string, p: string): Matched
    decreases |t|, |p|, 1
  {
    if p == "" then Yes
    else if p[0] == '%' then Find(t, p[1..])
    else if p[0] == '_' then if t == "" then No else Find(t[1..], p[1..])
    else if p == "\\" then Raised
    else if t == "" then No
    else
      var m := Match(t, p);
      if m != No then m else Find(t[1..], p)
  }

  // ---------- The plain meaning of a pattern ----------

  /** A backslash at the very end stands for nothing. */
  predicate ILike(t: string, p: string)
    decreases |t| + |p|
  {
    if p == "" then t == ""
    else if p[0] == '%' then ILike(t, p[1..]) || (t != "" && ILike(t[1..], p))
    else if t == "" then false
    else if p[0] == '_' then ILike(t[1..], p[1..])
    else if p[0] == '\\' then |p| > 1 && LowerChar(t[0]) == LowerChar(p[1]) && ILike(t[1..], p[2..])
    else LowerChar(t[0]) == LowerChar(p[0]) && ILike(t[1..], p[1..])
  }

  /** The last character is a backslash that makes nothing literal. */
  predicate LoneEscape(p: string) {
    p != "" && if p[0] == '\\' then |p| == 1 || LoneEscape(p[2..]) else LoneEscape(p[1..])
  }

  /** How many backslashes `p` ends in. */
  function Backslashes(p: string): nat {
    if p != "" && p[|p| - 1] == '\\' then 1 + Backslashes(p[..|p| - 1]) else 0
  }

  lemma {:induction false} BackslashesSkip(p: string, k: nat)
    requires k <= |p|
    ensures Backslashes(p[k..]) == if Backslashes(p) <= |p| - k then Backslashes(p) else |p| - k
    decreases |p|
  {
    if k == |p| {
      assert p[k..] == "";
    } else {
      assert p[k..][|p| - k - 1] == p[|p| - 1];
      BackslashesSkip(p[..|p| - 1], k);
      assert p[k..][..|p| - k - 1] == p[..|p| - 1][k..];
    }
  }

  lemma {:induction false} BackslashesBounded(p: string)
    ensures Backslashes(p) <= |p|
    ensures forall i | |p| - Backslashes(p) <= i < |p| :: p[i] == '\\'
    ensures Backslashes(p) < |p| ==> p[|p| - Backslashes(p) - 1] != '\\'
  {
    if p != "" && p[|p| - 1] == '\\' {
      BackslashesBounded(p[..|p| - 1]);
    }
  }

  /** A pattern ends in such a backslash exactly if it ends in an odd number of them. */
  lemma {:induction false} LoneEscapeIff(p: string)
    ensures LoneEscape(p) <==> Backslashes(p) % 2 == 1
    decreases |p|
  {
    BackslashesBounded(p);
    if p == "" {
    } else if p[0] == '\\' && |p| == 1 {
      assert Backslashes(p[..0]) == 0;
    } else {
      var k := if p[0] == '\\' then 2 else 1;
      LoneEscapeIff(p[k..]);
      BackslashesSkip(p, k);
    }
  }

  lemma {:induction false} LoneNeverMatches(t: string, p: string)
    requires LoneEscape(p)
    ensures !ILike(t, p)
    decreases |t| + |p|
  {
    if p[0] == '%' {
      LoneNeverMatches(t, p[1..]);
      if t != "" {
        LoneNeverMatches(t[1..], p);
      }
    } else if t != "" && |p| > 1 {
      LoneNeverMatches(t[1..], p[if p[0] == '\\' then 2 else 1..]);
    }
  }

  /** The matcher finds a match exactly where there is one, and fails on patterns that end in a lone backslash only. */
  lemma {:induction false} MatchMeaning(t: string, p: string)
    ensures Match(t, p) == Yes <==> ILike(t, p)
    ensures Match(t, p) == Raised ==> LoneEscape(p)
    decreases |t|, |p|, 0
  {
    if p != "" {
      if t == "" {
        MatchMeaning(t, p[1..]);
      } else if p[0] == '%' {
        FindMeaning(t, p[1..]);
        AnyThen(t, p[1..]);
        assert "%" + p[1..] == p;
      } else if p != "\\" {
        MatchMeaning(t[1..], p[if p[0] == '\\' then 2 else 1..]);
      }
    }
  }

  lemma {:induction false} FindMeaning(t: string, p: string)
    ensures Find(t, p) == Yes <==> ILike(t, "%" + p)
    ensures Find(t, p) == Raised ==> LoneEscape(p)
    decreases |t|, |p|, 1
  {
    var q := "%" + p;
    assert q[0] == '%' && q[1..] == p;
    if p == "" {
      assert q == "%";
      AnyMatches(t);
    } else if p[0] == '%' {
      FindMeaning(t, p[1..]);
      assert "%" + p[1..] == p;
      AnyTwice(t, p);
    } else if p[0] == '_' {
      if t != "" {
        FindMeaning(t[1..], p[1..]);
        AnyThenOne(t, p[1..]);
        assert "_" + p[1..] == p;
      }
    } else if p == "\\" {
      LoneNeverMatches(t, q);
    } else if t != "" {
      MatchMeaning(t, p);
      FindMeaning(t[1..], p);
      if Match(t, p) == Raised {
        LoneNeverMatches(t, q);
      }
    }
  }

  /** Two wildcards for any run are as good as one. */
  lemma {:induction false} AnyTwice(t: string, p: string)
    requires p != "" && p[0] == '%'
    ensures ILike(t, "%" + p) <==> ILike(t, p)
    decreases |t|
  {
    var q := "%" + p;
    assert q[0] == '%' && q[1..] == p;
    if t != "" {
      AnyTwice(t[1..], p);
    }
  }

  /** A wildcard for one character may be taken first. */
  lemma {:induction false} AnyThenOne(t: string, p: string)
    requires t != ""
    ensures ILike(t, "%" + ("_" + p)) <==> ILike(t[1..], "%" + p)
  {
    hide ILike;
    AnyThen(t, "_" + p);
    AnyThen(t[1..], p);
    forall i | 0 <= i <= |t| ensures ILike(t[i..], "_" + p) <==> i < |t| && ILike(t[1..][i..], p) {
      OneThen(t[i..], p);
      assert i < |t| ==> t[i..][1..] == t[1..][i..];
    }
  }

  lemma {:induction false} OneThen(t: string, p: string)
    ensures ILike(t, "_" + p) <==> t != "" && ILike(t[1..], p)
  {
    var q := "_" + p;
    assert q[0] == '_' && q[1..] == p;
  }

  /** No character of `v` has a meaning of its own in a pattern. */
  predicate Literal(v: string) { '%' !in v && '_' !in v && '\\' !in v }

  /** `v` stands in `t` at position `i`, but for the case of letters. */
  predicate StandsAt(t: string, v: string, i: nat) {
    i + |v| <= |t| && SameButCase(t[i..i + |v|], v)
  }

  lemma StandsInRest(t: string, v: string, i: nat)
    requires i <= |t|
    ensures StandsAt(t[i..], v, 0) <==> StandsAt(t, v, i)
  {
    if i + |v| <= |t| {
      assert t[i..][0..|v|] == t[i..i + |v|];
    }
  }

  lemma {:induction false} AnyThen(t: string, p: string)
    ensures ILike(t, "%" + p) <==> exists i | 0 <= i <= |t| :: ILike(t[i..], p)
    decreases |t|
  {
    var q := "%" + p;
    assert q[0] == '%' && q[1..] == p && t[0..] == t;
    if t != "" {
      AnyThen(t[1..], p);
      assert forall i | 1 <= i <= |t| :: t[i..] == t[1..][i - 1..];
      assert forall i | 0 <= i <= |t| - 1 :: t[1..][i..] == t[i + 1..];
    }
  }

  lemma {:induction false} AnyMatches(t: string)
    ensures ILike(t, "%")
  {
    AnyThen(t, "");
    assert "%" + "" == "%" && ILike(t[|t|..], "");
  }

  lemma {:induction false} LiteralThen(t: string, v: string, p: string)
    requires Literal(v)
    ensures ILike(t, v + p) <==> StandsAt(t, v, 0) && ILike(t[|v|..], p)
  {
    if v == "" {
      assert v + p == p && t[0..] == t;
    } else {
      var q := v + p;
      assert q[0] == v[0] && v[0] in v && q[1..] == v[1..] + p;
      if t != "" {
        LiteralThen(t[1..], v[1..], p);
        if |v| <= |t| {
          assert t[1..][|v| - 1..] == t[|v|..];
          assert t[0..|v|] == [t[0]] + t[1..][0..|v| - 1];
          assert v == [v[0]] + v[1..];
        }
      }
    }
  }

  lemma {:induction false} StartsWithMeaning(t: string, v: string)
    requires Literal(v)
    ensures ILike(t, v + "%") <==> StandsAt(t, v, 0)
  {
    LiteralThen(t, v, "%");
    if |v| <= |t| {
      AnyMatches(t[|v|..]);
    }
  }

  lemma {:induction false} ContainsMeaning(t: string, v: string)
    requires Literal(v)
    ensures ILike(t, "%" + v + "%") <==> exists i :: 0 <= i <= |t| && StandsAt(t, v, i)
  {
    AnyThen(t, v + "%");
    assert "%" + v + "%" == "%" + (v + "%");
    forall i | 0 <= i <= |t| ensures ILike(t[i..], v + "%") <==> StandsAt(t, v, i) {
      StartsWithMeaning(t[i..], v);
      StandsInRest(t, v, i);
    }
  }

  lemma {:induction false} ExactMeaning(t: string, v: string)
    requires Literal(v)
    ensures ILike(t, v) <==> |t| == |v| && StandsAt(t, v, 0)
  {
    LiteralThen(t, v, "");
    assert v + "" == v;
    assert |t| >= |v| ==> (ILike(t[|v|..], "") <==> |t| == |v|);
  }

  lemma {:induction false} EndsWithMeaning(t: string, v: string)
    requires Literal(v)
    ensures ILike(t, "%" + v) <==> |v| <= |t| && StandsAt(t, v, |t| - |v|)
  {
    hide ILike;
    hide StandsAt;
    AnyThen(t, v);
    forall i | 0 <= i <= |t| ensures ILike(t[i..], v) <==> i + |v| == |t| && StandsAt(t, v, i) {
      ExactMeaning(t[i..], v);
      StandsInRest(t, v, i);
    }
    if |v| <= |t| {
      var i := |t| - |v|;
      assert ILike(t[i..], v) <==> StandsAt(t, v, i);
    }
  }

  lemma {:induction false} TrailingAny(t: string, p: string)
    requires ILike(t, p)
    ensures ILike(t, p + "%")
    decreases |t| + |p|
  {
    var q := p + "%";
    if p == "" {
      AnyMatches(t);
      assert q == "%";
    } else if p[0] == '%' {
      assert q[0] == '%' && q[1..] == p[1..] + "%";
      if ILike(t, p[1..]) {
        TrailingAny(t, p[1..]);
      } else {
        TrailingAny(t[1..], p);
      }
    } else if p[0] == '\\' {
      assert q[0] == p[0] && q[1] == p[1] && q[2..] == p[2..] + "%";
      TrailingAny(t[1..], p[2..]);
    } else {
      assert q[0] == p[0] && q[1..] == p[1..] + "%";
      TrailingAny(t[1..], p[1..]);
    }
  }

  /** Whatever the value holds, starting or ending with it implies containing it. */
  lemma {:induction false} StartOrEndIsContained(t: string, v: string)
    ensures ILike(t, v + "%") || ILike(t, "%" + v) ==> ILike(t, "%" + v + "%")
  {
    var q := "%" + v + "%";
    assert q[1..] == v + "%";
    if ILike(t, "%" + v) {
      TrailingAny(t, "%" + v);
    }
  }

  lemma {:induction false} MatchesItself(v: string, p: string)
    requires '\\' !in v && ILike("", p)
    ensures ILike(v, v + p)
  {
    var q := v + p;
    if v == "" {
      assert q == p;
    } else {
      MatchesItself(v[1..], p);
      assert v[0] in v && q[0] == v[0] && q[1..] == v[1..] + p;
      if v[0] == '%' {
        assert ILike(v[1..], q);
      }
    }
  }

  /** Without a backslash, a text that equals the value also starts with, ends with and contains it. */
  lemma {:induction false} EqualIsStartAndEnd(v: string)
    requires '\\' !in v
    ensures ILike(v, v + "%") && ILike(v, "%" + v) && ILike(v, "%" + v + "%")
  {
    AnyMatches("");
    MatchesItself(v, "%");
    MatchesItself(v, "");
    assert v + "" == v && ("%" + v)[1..] == v;
    StartOrEndIsContained(v, v);
  }

  // ---------- Case ----------

  /** Exchanging capitals and small letters, in the text or in the pattern, changes no answer. */
  lemma {:induction false} CaseIsIgnored(t: string, t': string, p: string, p': string)
    requires SameButCase(t, t') && SameButCase(p, p')
    ensures ILike(t, p) <==> ILike(t', p')
    decreases |t| + |p|
  {
    if p != "" {
      SpecialStays(p[0], p'[0]);
      if p[0] == '%' {
        CaseIsIgnored(t, t', p[1..], p'[1..]);
        if t != "" {
          CaseIsIgnored(t[1..], t'[1..], p, p');
        }
      } else if t != "" {
        var k := if p[0] == '\\' then 1 else 0;
        CaseIsIgnored(t[1..], t'[1..], p[if k < |p| then k + 1 else |p|..], p'[if k < |p| then k + 1 else |p|..]);
        if k < |p| {
          LowerCharIff(t[0], t'[0]);
          LowerCharIff(p[k], p'[k]);
        }
      }
    }
  }

  /** The characters with a meaning of their own have no case. */
  lemma SpecialStays(a: char, b: char)
    requires SameLetter(a, b)
    ensures a in "%_\\" || b in "%_\\" ==> a == b
  {
  }

  // ---------- Values with backslashes ----------

  /** A pattern that ends in a wildcard is never an error, so only `ew` can fail. */
  lemma {:induction false} WildcardLast(v: string)
    ensures !LoneEscape(v + "%")
  {
    var q := v + "%";
    if v != "" && v[0] == '\\' && |v| > 1 {
      WildcardLast(v[2..]);
      assert q[2..] == v[2..] + "%";
    } else if v != "" {
      WildcardLast(v[1..]);
      assert q[1..] == v[1..] + "%" && (|v| == 1 ==> q[2..] == "");
    }
  }

  lemma {:induction false} OnlyEndsWithRaises(t: string, v: string)
    ensures Match(t, v + "%") != Raised && Match(t, "%" + v + "%") != Raised
    ensures Match(t, "%" + v) == Raised ==> Backslashes(v) % 2 == 1
  {
    WildcardLast(v);
    WildcardLast("%" + v);
    MatchMeaning(t, v + "%");
    MatchMeaning(t, "%" + v + "%");
    MatchMeaning(t, "%" + v);
    LoneEscapeIff("%" + v);
    BackslashesSkip("%" + v, 1);
    BackslashesBounded("%" + v);
    assert ("%" + v)[1..] == v;
  }

  lemma {:induction false} MatchRaisesIff(t: string, u: string)
    requires Literal(u)
    ensures Match(t, u + "\\") == Raised <==> StandsAt(t, u, 0) && |u| < |t|
    ensures Match(t, u + "\\") != Yes
  {
    var q := u + "\\";
    if u == "" {
      assert q == "\\";
    } else if t != "" {
      MatchRaisesIff(t[1..], u[1..]);
      assert q[0] == u[0] && u[0] in u && q[1..] == u[1..] + "\\";
      if |u| <= |t| {
        assert t[0..|u|] == [t[0]] + t[1..][0..|u| - 1];
        assert u == [u[0]] + u[1..];
      }
    }
  }

  lemma {:induction false} FindRaisesIff(t: string, u: string)
    requires Literal(u) && (t != "" || u != "")
    ensures Find(t, u + "\\") == Raised <==> exists i :: 0 <= i < |t| && i + |u| < |t| && StandsAt(t, u, i)
    decreases |t|
  {
    var q := u + "\\";
    assert u != "" ==> q[0] == u[0] && u[0] in u && q != "\\";
    if u == "" {
      assert q == "\\" && StandsAt(t, u, 0);
    } else if t != "" {
      MatchRaisesIff(t, u);
      FindRaisesIff(t[1..], u);
      forall i | 1 <= i <= |t| ensures StandsAt(t[1..], u, i - 1) <==> StandsAt(t, u, i) {
        StandsInRest(t, u, i);
        StandsInRest(t[1..], u, i - 1);
        assert t[1..][i - 1..] == t[i..];
      }
      if Find(t[1..], q) == Raised {
        var j :| 0 <= j < |t| - 1 && j + |u| < |t| - 1 && StandsAt(t[1..], u, j);
        assert StandsAt(t, u, j + 1);
      }
      if i :| 0 < i < |t| && i + |u| < |t| && StandsAt(t, u, i) {
        assert StandsAt(t[1..], u, i - 1);
      }
    }
  }

  /** With a plain text and one backslash for its value, `ew` fails exactly where more follows on the text. */
  lemma {:induction false} EndsWithRaisesIff(t: string, u: string)
    requires Literal(u)
    ensures Match(t, "%" + (u + "\\")) == Raised <==> exists i :: 0 <= i < |t| && i + |u| < |t| && StandsAt(t, u, i)
  {
    var q := "%" + (u + "\\");
    assert q[0] == '%' && q[1..] == u + "\\";
    if t != "" {
      FindRaisesIff(t, u);
    } else {
      MatchRaisesIff(t, u);
    }
  }

  // ---------- Equal, but not the start or the end ----------

  predicate NoWildcard(v: string) { '%' !in v && '_' !in v }

  predicate Free(s: string) { '\\' !in s }

  predicate Even(n: nat) { n % 2 == 0 }

  lemma FreeCons(c: char, s: string)
    ensures Free([c] + s) <==> c != '\\' && Free(s)
    ensures Free("")
  {
    assert c in [c] + s;
  }

  lemma EvenTwo(n: nat)
    ensures Even(n + 2) <==> Even(n)
  {
  }

  /** Backslashes at the end only, and an even number of them. */
  predicate EvenAtEnd(v: string) {
    BackslashesBounded(v);
    Free(v[..|v| - Backslashes(v)]) && Even(Backslashes(v))
  }

  function Run(m: nat): string { seq(m, _ => '\\') }

  /** One step of matching with no wildcard in front. */
  lemma {:induction false} StepOn(t: string, p: string)
    requires p != "" && p[0] != '%' && p[0] != '_'
    ensures p[0] != '\\' ==>
              (ILike(t, p) <==> t != "" && LowerChar(t[0]) == LowerChar(p[0]) && ILike(t[1..], p[1..]))
    ensures p[0] == '\\' ==>
              (ILike(t, p) <==> t != "" && |p| > 1 && LowerChar(t[0]) == LowerChar(p[1]) && ILike(t[1..], p[2..]))
  {
  }

  lemma FrontCons(v: string, n: nat)
    requires 0 < n <= |v|
    ensures v[..n] == [v[0]] + v[1..][..n - 1]
  {
  }

  lemma {:induction false} EvenPlain(v: string)
    requires v != "" && v[0] != '\\'
    ensures Backslashes(v) < |v| && (EvenAtEnd(v) <==> EvenAtEnd(v[1..]))
  {
    BackslashesBounded(v);
    BackslashesBounded(v[1..]);
    BackslashesSkip(v, 1);
    hide Backslashes;
    hide Free;
    hide Even;
    var n := |v| - Backslashes(v);
    FrontCons(v, n);
    FreeCons(v[0], v[1..][..n - 1]);
  }

  lemma {:induction false} EvenEscape(v: string)
    requires |v| >= 2 && v[0] == '\\'
    ensures EvenAtEnd(v) <==> v[1] == '\\' && EvenAtEnd(v[2..]) && Backslashes(v[2..]) == |v| - 2
    ensures EvenAtEnd(v) ==> Backslashes(v) == |v|
  {
    BackslashesBounded(v);
    BackslashesSkip(v, 2);
    hide Backslashes;
    hide Free;
    hide Even;
    var n, r := |v| - Backslashes(v), v[2..];
    EvenTwo(|r|);
    FreeCons('\\', "");
    if n > 0 {
      assert v[..n] == [v[0]] + v[1..n];
      FreeCons(v[0], v[1..n]);
      assert n != 1 && (v[1] == '\\' ==> n != 2);
    } else {
      assert v[..n] == "" && r[..0] == "" && v[1] == '\\';
    }
  }

  /** A text that lags `m` backslashes behind the pattern it is matched with. */
  lemma {:induction false} StartsLagging(m: nat, v: string)
    requires NoWildcard(v)
    ensures ILike(Run(m) + v, v + "%") <==> EvenAtEnd(v) && (m > 0 ==> Backslashes(v) == |v|)
    decreases |v|
  {
    hide ILike;
    hide EvenAtEnd;
    hide Backslashes;
    var t, q := Run(m) + v, v + "%";
    if v == "" {
      AnyMatches(t);
      EmptyIsEven();
      assert q == "%";
    } else {
      assert v[0] in v;
      StepOn(t, q);
      if v[0] != '\\' {
        EvenPlain(v);
        assert q[1..] == v[1..] + "%";
        if m == 0 {
          StartsLagging(0, v[1..]);
          assert t[1..] == Run(0) + v[1..];
        }
      } else if |v| == 1 {
        OneIsOdd(v);
      } else {
        EvenEscape(v);
        assert q[2..] == v[2..] + "%";
        if v[1] == '\\' {
          assert t[1..] == Run(m + 1) + v[2..];
          StartsLagging(m + 1, v[2..]);
        }
      }
    }
  }

  lemma EmptyIsEven()
    ensures EvenAtEnd("") && Backslashes("") == 0
  {
  }

  lemma OneIsOdd(v: string)
    requires |v| == 1 && v[0] == '\\'
    ensures !EvenAtEnd(v)
  {
    assert Backslashes(v[..0]) == 0;
  }

  /** A value without wildcards starts with itself exactly if its only backslashes are an even number at the end. */
  lemma {:induction false} StartsWithItselfIff(v: string)
    requires NoWildcard(v)
    ensures Match(v, v + "%") == Yes <==> EvenAtEnd(v)
  {
    MatchMeaning(v, v + "%");
    StartsLagging(0, v);
    assert Run(0) + v == v;
  }

  /** How many backslashes `v` starts with. */
  function Leading(v: string): (n: nat)
    ensures n <= |v|
    ensures n < |v| ==> v[n] != '\\'
    ensures forall i | 0 <= i < n :: v[i] == '\\'
  {
    if v != "" && v[0] == '\\' then 1 + Leading(v[1..]) else 0
  }

  /** Backslashes at the start only, and not an odd number of them and nothing else. */
  predicate AtStart(v: string) {
    Free(v[Leading(v)..]) && (Leading(v) == |v| ==> Even(|v|))
  }

  lemma {:induction false} MatchesShorten(t: string, p: string)
    requires NoWildcard(p) && ILike(t, p)
    ensures |t| <= |p|
    decreases |t| + |p|
  {
    if p != "" && t != "" {
      assert p[0] in p;
      MatchesShorten(t[1..], p[if p[0] == '\\' then 2 else 1..]);
    }
  }

  lemma {:induction false} NoLeading(r: string)
    ensures AtStart(r) && Leading(r) == 0 <==> Free(r)
  {
    assert r[0..] == r;
    if Leading(r) > 0 {
      assert r[0] in r;
    }
  }

  lemma {:induction false} AtStartPlain(p: string)
    requires p != "" && p[0] != '\\'
    ensures Leading(p) == 0 && (AtStart(p) <==> AtStart(p[1..]) && Leading(p[1..]) == 0)
  {
    NoLeading(p[1..]);
    assert Leading(p) == 0;
    hide Leading;
    hide Free;
    FreeCons(p[0], p[1..]);
    assert p[0..] == [p[0]] + p[1..];
  }

  lemma BackSlices(p: string, k: nat, m: nat)
    requires k + m <= |p|
    ensures p[k..][m..] == p[k + m..]
    ensures k < |p| ==> p[k..] == [p[k]] + p[k + 1..]
  {
  }

  lemma {:induction false} AtStartEscape(p: string)
    requires |p| >= 2 && p[0] == '\\'
    ensures p[1] == '\\' ==> Leading(p) == 2 + Leading(p[2..]) && (AtStart(p) <==> AtStart(p[2..]))
    ensures p[1] != '\\' ==> Leading(p) == 1 && (AtStart(p) <==> AtStart(p[2..]) && Leading(p[2..]) == 0)
  {
    LeadingSkip(p);
    NoLeading(p[2..]);
    hide Leading;
    hide Free;
    hide Even;
    var r := p[2..];
    if p[1] == '\\' {
      BackSlices(p, 2, Leading(r));
      EvenTwo(|r|);
    } else {
      BackSlices(p, 1, 0);
      FreeCons(p[1], r);
    }
  }

  lemma {:induction false} LeadingSkip(p: string)
    requires |p| >= 2 && p[0] == '\\'
    ensures Leading(p) == if p[1] == '\\' then 2 + Leading(p[2..]) else 1
  {
    assert p[1..][1..] == p[2..];
  }

  /** Only the end left by dropping one character for every backslash that makes another literal can match. */
  lemma {:induction false} EndsLagging(p: string, k: nat)
    requires NoWildcard(p) && k <= |p|
    ensures ILike(p[k..], p) <==> AtStart(p) && k == (Leading(p) + 1) / 2
    decreases |p|
  {
    hide ILike;
    hide AtStart;
    var t := p[k..];
    if p == "" {
      EmptyEnds();
    } else {
      assert p[0] in p;
      StepOn(t, p);
      if p[0] != '\\' {
        AtStartPlain(p);
        if t != "" {
          assert t[0] == p[k] && t[1..] == p[1..][k..];
          EndsLagging(p[1..], k);
          assert 0 < k <= Leading(p[1..]) ==> p[k] == p[1..][k - 1] == '\\';
        } else {
          NoneLeft(p);
        }
      } else if |p| == 1 {
        NoneLeft(p);
      } else {
        AtStartEscape(p);
        if k == 0 {
          if ILike(t, p) {
            MatchesShorten(t[1..], p[2..]);
          }
        } else if t != "" {
          assert t[0] == p[k] && t[1..] == p[2..][k - 1..];
          EndsLagging(p[2..], k - 1);
          assert 2 <= k <= Leading(p[2..]) + 1 ==> p[k] == p[2..][k - 2] == '\\';
        } else {
          NoneLeft(p);
        }
      }
    }
  }

  lemma EmptyEnds()
    ensures ILike(""[0..], "") && AtStart("") && Leading("") == 0
  {
  }

  lemma {:induction false} NoneLeft(p: string)
    requires p != ""
    ensures AtStart(p) ==> (Leading(p) + 1) / 2 < |p|
  {
  }

  /**
   A value without wildcards ends in itself exactly if its backslashes all come first, and are not an odd
   number of them with nothing after.
   */
  lemma {:induction false} EndsWithItselfIff(v: string)
    requires NoWildcard(v)
    ensures Match(v, "%" + v) == Yes <==> AtStart(v)
  {
    hide ILike;
    hide AtStart;
    MatchMeaning(v, "%" + v);
    AnyThen(v, v);
    forall k | 0 <= k <= |v| ensures ILike(v[k..], v) <==> AtStart(v) && k == (Leading(v) + 1) / 2 {
      EndsLagging(v, k);
    }
    if AtStart(v) {
      var k := (Leading(v) + 1) / 2;
      assert k <= |v| && ILike(v[k..], v);
    }
  }

  /** So equal need not be the start, nor the end: a backslash before another character, or after one. */
  lemma BackslashBreaksEqual()
    ensures Match("\\a", "\\a" + "%") != Yes && Match("a\\\\", "%" + "a\\\\") != Yes
  {
    var v, w := "\\a", "a\\\\";
    StartsWithItselfIff(v);
    EndsWithItselfIff(w);
    assert Backslashes(v) == 0 && v[..2][0] == '\\';
    assert Leading(w) == 0 && w[0..][1] == '\\';
  }
}
