/** The regular expression for organisation slugs, with the meaning of its operators written out. */
module Slug {

  /** A character class (inclusive ranges), concatenation, and bounded repetition {lo,hi}. */
  datatype Regex =
    | Class(ranges: seq<(char, char)>)
    | Cat(first: Regex, second: Regex)
    | Repeat(body: Regex, lo: nat, hi: nat)

  predicate InClass(c: char, ranges: seq<(char, char)>) {
    exists i | 0 <= i < |ranges| :: ranges[i].0 <= c <= ranges[i].1
  }

  /** `r` matches the whole of `s`. */
  predicate Matches(r: Regex, s: string)
    decreases r, 0
  {
    match r
    case Class(ranges) => |s| == 1 && InClass(s[0], ranges)
    case Cat(a, b) => exists i | 0 <= i <= |s| :: Matches(a, s[..i]) && Matches(b, s[i..])
    case Repeat(body, lo, hi) => exists n | lo <= n <= hi :: Power(body, n, s)
  }

  predicate Power(r: Regex, n: nat, s: string)
    decreases r, n + 1
  {
    if n == 0 then s == ""
    else exists i | 0 <= i <= |s| :: Matches(r, s[..i]) && Power(r, n - 1, s[i..])
  }

  const ALNUM: seq<(char, char)> := [('a', 'z'), ('0', '9')]
  const ALNUM_HYPHEN: seq<(char, char)> := [('a', 'z'), ('0', '9'), ('-', '-')]

  /** A letter or digit, then up to thirty that may be hyphens too and at least one, then a letter or digit. */
  const SLUG_RE: Regex := Cat(Class(ALNUM), Cat(Repeat(Class(ALNUM_HYPHEN), 1, 30), Class(ALNUM)))

  predicate IsValidSlug(s: string) { Matches(SLUG_RE, s) }

  lemma {:induction false} PowerOfClass(ranges: seq<(char, char)>, n: nat, s: string)
    ensures Power(Class(ranges), n, s) <==> |s| == n && forall i | 0 <= i < n :: InClass(s[i], ranges)
  {
    hide InClass;
    if n > 0 {
      forall i | 0 <= i <= |s|
        ensures Power(Class(ranges), n - 1, s[i..])
           <==> |s| - i == n - 1 && forall j | i <= j < |s| :: InClass(s[j], ranges)
      {
        PowerOfClass(ranges, n - 1, s[i..]);
        assert forall j | i <= j < |s| :: s[j] == s[i..][j - i];
      }
      if |s| == n && forall i | 0 <= i < n :: InClass(s[i], ranges) {
        assert Matches(Class(ranges), s[..1]) && Power(Class(ranges), n - 1, s[1..]);
      }
    }
  }

  lemma ClassMeaning(c: char)
    ensures InClass(c, ALNUM) <==> 'a' <= c <= 'z' || '0' <= c <= '9'
    ensures InClass(c, ALNUM_HYPHEN) <==> 'a' <= c <= 'z' || '0' <= c <= '9' || c == '-'
  {
    assert ALNUM[0] == ('a', 'z') && ALNUM[1] == ('0', '9');
    assert ALNUM_HYPHEN[0] == ('a', 'z') && ALNUM_HYPHEN[1] == ('0', '9') && ALNUM_HYPHEN[2] == ('-', '-');
  }

  predicate IsLowerAlnum(c: char) { 'a' <= c <= 'z' || '0' <= c <= '9' }

  /** The plain rule: 3 to 32 lower-case letters, digits and hyphens, no hyphen at either end. */
  predicate PlainSlug(s: string) {
    && 3 <= |s| <= 32
    && (forall i | 0 <= i < |s| :: IsLowerAlnum(s[i]) || s[i] == '-')
    && s[0] != '-' && s[|s| - 1] != '-'
  }

  lemma {:induction false} MiddleMeaning(s: string)
    ensures Matches(Repeat(Class(ALNUM_HYPHEN), 1, 30), s)
       <==> 1 <= |s| <= 30 && forall i | 0 <= i < |s| :: IsLowerAlnum(s[i]) || s[i] == '-'
  {
    hide InClass;
    forall n: nat
      ensures Power(Class(ALNUM_HYPHEN), n, s) <==> |s| == n && forall i | 0 <= i < n :: InClass(s[i], ALNUM_HYPHEN)
    {
      PowerOfClass(ALNUM_HYPHEN, n, s);
    }
    forall i | 0 <= i < |s| ensures InClass(s[i], ALNUM_HYPHEN) <==> IsLowerAlnum(s[i]) || s[i] == '-' {
      ClassMeaning(s[i]);
    }
    assert Power(Class(ALNUM_HYPHEN), |s|, s) ==> 1 <= |s| <= 30 ==> Matches(Repeat(Class(ALNUM_HYPHEN), 1, 30), s);
  }

  lemma {:induction false} OneMeaning(s: string)
    ensures Matches(Class(ALNUM), s) <==> |s| == 1 && IsLowerAlnum(s[0])
  {
    if |s| == 1 {
      ClassMeaning(s[0]);
    }
  }

  lemma {:induction false} TailMeaning(s: string)
    ensures Matches(Cat(Repeat(Class(ALNUM_HYPHEN), 1, 30), Class(ALNUM)), s)
       <==> 2 <= |s| <= 31 && (forall i | 0 <= i < |s| - 1 :: IsLowerAlnum(s[i]) || s[i] == '-')
            && IsLowerAlnum(s[|s| - 1])
  {
    hide Power;
    hide InClass;
    var mid := Repeat(Class(ALNUM_HYPHEN), 1, 30);
    forall i | 0 <= i <= |s|
      ensures Matches(mid, s[..i]) <==> 1 <= i <= 30 && forall j | 0 <= j < i :: IsLowerAlnum(s[j]) || s[j] == '-'
      ensures Matches(Class(ALNUM), s[i..]) <==> i == |s| - 1 && IsLowerAlnum(s[i])
    {
      MiddleMeaning(s[..i]);
      OneMeaning(s[i..]);
    }
    if s != "" {
      var i := |s| - 1;
      assert Matches(mid, s[..i]) && Matches(Class(ALNUM), s[i..]) ==> Matches(Cat(mid, Class(ALNUM)), s);
    }
  }

  /** The expression accepts exactly the slugs its comment and error message describe. */
  lemma SlugMeaning(s: string)
    ensures IsValidSlug(s) <==> PlainSlug(s)
  {
    hide Power;
    hide InClass;
    var tail := Cat(Repeat(Class(ALNUM_HYPHEN), 1, 30), Class(ALNUM));
    forall i | 0 <= i <= |s|
      ensures Matches(Class(ALNUM), s[..i]) <==> i == 1 && IsLowerAlnum(s[0])
      ensures Matches(tail, s[i..])
         <==> 2 <= |s| - i <= 31 && (forall j | i <= j < |s| - 1 :: IsLowerAlnum(s[j]) || s[j] == '-')
              && IsLowerAlnum(s[|s| - 1])
    {
      OneMeaning(s[..i]);
      TailMeaning(s[i..]);
      assert forall j | i <= j < |s| :: s[j] == s[i..][j - i];
    }
    if s != "" {
      assert Matches(Class(ALNUM), s[..1]) && Matches(tail, s[1..]) ==> Matches(SLUG_RE, s);
    }
  }
}
