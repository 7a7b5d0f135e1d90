/** The string operations of the Go library that the handlers rely on. */
module Text {

  /** White space as Go's unicode.IsSpace has it. */
  predicate IsSpace(c: char) {
    var u := c as int;
    || 0x9 <= u <= 0xD || u == 0x20 || u == 0x85 || u == 0xA0 || u == 0x1680
    || 0x2000 <= u <= 0x200A || u == 0x2028 || u == 0x2029 || u == 0x202F || u == 0x205F || u == 0x3000
  }

  function LowerChar(c: char): char {
    if 'A' <= c <= 'Z' then c - 'A' + 'a' else c
  }

  function ToLower(s: string): (r: string)
    ensures |r| == |s| && forall i | 0 <= i < |s| :: r[i] == LowerChar(s[i])
  {
    if s == "" then "" else [LowerChar(s[0])] + ToLower(s[1..])
  }

  function TrimLeft(s: string): string {
    if s != "" && IsSpace(s[0]) then TrimLeft(s[1..]) else s
  }

  function TrimRight(s: string): string {
    if s != "" && IsSpace(s[|s| - 1]) then TrimRight(s[..|s| - 1]) else s
  }

  function TrimSpace(s: string): string { TrimRight(TrimLeft(s)) }

  predicate IsBlank(s: string) { TrimSpace(s) == "" }

  /** How the handlers normalise e-mail addresses, usernames and slugs. */
  function Norm(s: string): string { ToLower(TrimSpace(s)) }

  predicate Trimmed(s: string) {
    s != "" ==> !IsSpace(s[0]) && !IsSpace(s[|s| - 1])
  }

  lemma {:induction false} TrimRightTrims(s: string)
    requires s != "" ==> !IsSpace(s[0])
    ensures Trimmed(TrimRight(s))
  {
    if s != "" && IsSpace(s[|s| - 1]) {
      TrimRightTrims(s[..|s| - 1]);
    }
  }

  lemma {:induction false} TrimLeftTrims(s: string)
    ensures TrimLeft(s) != "" ==> !IsSpace(TrimLeft(s)[0])
  {
    if s != "" && IsSpace(s[0]) {
      TrimLeftTrims(s[1..]);
    }
  }

  lemma TrimmedStays(s: string)
    requires Trimmed(s)
    ensures TrimSpace(s) == s
  {
  }

  lemma {:induction false} LowerStays(s: string)
    ensures ToLower(ToLower(s)) == ToLower(s)
    ensures Trimmed(s) ==> Trimmed(ToLower(s))
  {
    assert forall c {:trigger LowerChar(c)} ::
      LowerChar(LowerChar(c)) == LowerChar(c) && IsSpace(LowerChar(c)) == IsSpace(c);
  }

  lemma NormIdempotent(s: string)
    ensures Trimmed(Norm(s)) && ToLower(Norm(s)) == Norm(s) && Norm(Norm(s)) == Norm(s)
  {
    hide TrimLeft;
    hide TrimRight;
    hide TrimSpace;
    hide ToLower;
    TrimLeftTrims(s);
    TrimRightTrims(TrimLeft(s));
    TrimIsBoth(s);
    LowerStays(TrimSpace(s));
    TrimmedStays(Norm(s));
  }

  lemma {:induction false} TrimIsBoth(s: string)
    ensures TrimSpace(s) == TrimRight(TrimLeft(s))
  {
  }

  // ---------- What normalising does, character by character ----------

  /** The white space of Unicode, one by one. */
  const SPACES: string :=
    "\t\n\U{B}\U{C}\r \U{85}\U{A0}\U{1680}\U{2000}\U{2001}\U{2002}\U{2003}\U{2004}\U{2005}\U{2006}\U{2007}" +
    "\U{2008}\U{2009}\U{200A}\U{2028}\U{2029}\U{202F}\U{205F}\U{3000}"

  /** One is the small letter of the other, or they are the same. */
  predicate SameLetter(a: char, b: char) {
    || a == b
    || ('A' <= a <= 'Z' && b as int == a as int + 32)
    || ('A' <= b <= 'Z' && a as int == b as int + 32)
  }

  /** The texts differ in the case of ASCII letters only. */
  predicate SameButCase(s: string, t: string) {
    |s| == |t| && forall i | 0 <= i < |s| :: SameLetter(s[i], t[i])
  }

  lemma LowerCharIff(a: char, b: char)
    ensures LowerChar(a) == LowerChar(b) <==> SameLetter(a, b)
    ensures SameLetter(a, LowerChar(a)) && !('A' <= LowerChar(a) <= 'Z')
    ensures IsSpace(LowerChar(a)) <==> IsSpace(a)
  {
  }

  /** Two texts have the same lower case exactly if they differ in the case of letters only. */
  lemma {:induction false} SameLowerIff(s: string, t: string)
    ensures ToLower(s) == ToLower(t) <==> SameButCase(s, t)
    ensures SameButCase(s, ToLower(s)) && forall i | 0 <= i < |s| :: !('A' <= ToLower(s)[i] <= 'Z')
  {
    forall i | 0 <= i < |s| ensures SameLetter(s[i], ToLower(s)[i]) && !('A' <= ToLower(s)[i] <= 'Z') {
      LowerCharIff(s[i], s[i]);
    }
    if |s| == |t| {
      forall i | 0 <= i < |s| ensures ToLower(s)[i] == ToLower(t)[i] <==> SameLetter(s[i], t[i]) {
        LowerCharIff(s[i], t[i]);
      }
    }
  }

  lemma {:induction false} TrimLeftTakes(s: string) returns (k: nat)
    ensures k <= |s| && TrimLeft(s) == s[k..] && (k < |s| ==> !IsSpace(s[k]))
    ensures forall i | 0 <= i < k :: IsSpace(s[i])
  {
    if s != "" && IsSpace(s[0]) {
      k := TrimLeftTakes(s[1..]);
      assert s[1..][k..] == s[k + 1..];
      k := k + 1;
    } else {
      k := 0;
      assert s[0..] == s;
    }
  }

  lemma {:induction false} TrimRightTakes(s: string) returns (k: nat)
    ensures k <= |s| && TrimRight(s) == s[..k] && (k > 0 ==> !IsSpace(s[k - 1]))
    ensures forall i | k <= i < |s| :: IsSpace(s[i])
  {
    if s != "" && IsSpace(s[|s| - 1]) {
      k := TrimRightTakes(s[..|s| - 1]);
      assert s[..|s| - 1][..k] == s[..k];
    } else {
      k := |s|;
      assert s[..k] == s;
    }
  }

  /** Trimming takes white space from both ends, all of it and nothing else. */
  lemma TrimTakes(s: string) returns (i: nat, j: nat)
    ensures i <= j <= |s| && TrimSpace(s) == s[i..j]
    ensures forall k | 0 <= k < i || j <= k < |s| :: IsSpace(s[k])
    ensures i < j ==> !IsSpace(s[i]) && !IsSpace(s[j - 1])
  {
    i := TrimLeftTakes(s);
    var k := TrimRightTakes(s[i..]);
    j := i + k;
    assert s[i..][..k] == s[i..j];
  }

  lemma SameSpaces(s: string, t: string)
    requires SameButCase(s, t)
    ensures |s| == |t| && forall i | 0 <= i < |s| :: IsSpace(s[i]) == IsSpace(t[i])
  {
  }

  lemma {:induction false} TrimLeftCase(s: string, t: string)
    requires SameButCase(s, t)
    ensures SameButCase(TrimLeft(s), TrimLeft(t))
  {
    SameSpaces(s, t);
    if s != "" && IsSpace(s[0]) {
      TrimLeftCase(s[1..], t[1..]);
    }
  }

  lemma {:induction false} TrimRightCase(s: string, t: string)
    requires SameButCase(s, t)
    ensures SameButCase(TrimRight(s), TrimRight(t))
  {
    SameSpaces(s, t);
    if s != "" && IsSpace(s[|s| - 1]) {
      TrimRightCase(s[..|s| - 1], t[..|t| - 1]);
    }
  }

  /**
   A normalised text holds no capital of ASCII and no white space at its ends, it is the text itself but for
   case between the ends that are white space, and texts that differ in case only have the same.
   */
  lemma NormMeaning(s: string) returns (i: nat, j: nat)
    ensures forall k | 0 <= k < |Norm(s)| :: !('A' <= Norm(s)[k] <= 'Z')
    ensures i <= j <= |s| && SameButCase(Norm(s), s[i..j])
    ensures forall k | 0 <= k < i || j <= k < |s| :: s[k] in SPACES
    ensures i < j ==> s[i] !in SPACES && s[j - 1] !in SPACES
    ensures forall t | SameButCase(s, t) :: Norm(t) == Norm(s)
  {
    i, j := TrimTakes(s);
    SameLowerIff(TrimSpace(s), TrimSpace(s));
    forall c: char ensures IsSpace(c) <==> c in SPACES {
      SpacesListed(c);
    }
    forall t | SameButCase(s, t) ensures Norm(t) == Norm(s) {
      CaseMakesNoDifference(s, t);
    }
  }

  lemma SpacesListed(c: char)
    ensures IsSpace(c) <==> c in SPACES
  {
  }

  lemma CaseMakesNoDifference(s: string, t: string)
    requires SameButCase(s, t)
    ensures Norm(s) == Norm(t)
  {
    TrimIsBoth(s);
    TrimIsBoth(t);
    TrimLeftCase(s, t);
    TrimRightCase(TrimLeft(s), TrimLeft(t));
    SameLowerIff(TrimSpace(s), TrimSpace(t));
  }

  /** The pieces of `s` between the occurrences of `c`, as strings.Split gives them. */
  function Split(s: string, c: char): (r: seq<string>)
    ensures |r| >= 1
  {
    if s == "" then [""]
    else
      var rest := Split(s[1..], c);
      if s[0] == c then [""] + rest else [[s[0]] + rest[0]] + rest[1..]
  }

  lemma {:induction false} SplitAtFirst(a: string, c: char, b: string)
    requires c !in a
    ensures Split(a + [c] + b, c) == [a] + Split(b, c)
    ensures Split(a, c) == [a]
  {
    if a == "" {
      assert a + [c] + b == [c] + b;
    } else {
      SplitAtFirst(a[1..], c, b);
      assert a[0] in a && a == [a[0]] + a[1..];
      assert (a + [c] + b)[1..] == a[1..] + [c] + b;
    }
  }

  function Join(parts: seq<string>, c: char): string
    requires parts != []
  {
    if |parts| == 1 then parts[0] else parts[0] + [c] + Join(parts[1..], c)
  }

  /** The pieces have no separator in them, and put together again they are the whole. */
  lemma {:induction false} JoinSplit(s: string, c: char)
    ensures Join(Split(s, c), c) == s
    ensures forall i | 0 <= i < |Split(s, c)| :: c !in Split(s, c)[i]
  {
    if s != "" {
      var rest, parts := Split(s[1..], c), Split(s, c);
      JoinSplit(s[1..], c);
      if s[0] == c {
        assert parts[1..] == rest;
      } else {
        assert parts[1..] == rest[1..];
        if |rest| > 1 {
          assert parts[0] + [c] + Join(rest[1..], c) == [s[0]] + (rest[0] + [c] + Join(rest[1..], c));
        }
      }
    }
  }
}
