/** Unpadded standard base64: section 4 of RFC 4648, padding omitted as in its section 3.2. */
module Base64 {
  import opened Options

  type Byte = b: int | 0 <= b < 256
  type Sextet = v: int | 0 <= v < 64

  function CharOf(v: Sextet): char {
    if v < 26 then 'A' + v as char
    else if v < 52 then 'a' + (v - 26) as char
    else if v < 62 then '0' + (v - 52) as char
    else if v == 62 then '+' else '/'
  }

  function ValueOf(c: char): Option<Sextet> {
    if 'A' <= c <= 'Z' then Some((c - 'A') as int)
    else if 'a' <= c <= 'z' then Some((c - 'a') as int + 26)
    else if '0' <= c <= '9' then Some((c - '0') as int + 52)
    else if c == '+' then Some(62)
    else if c == '/' then Some(63)
    else None
  }

  function Encode(b: seq<Byte>): string {
    if b == [] then ""
    else if |b| == 1 then [CharOf(b[0] / 4), CharOf(b[0] % 4 * 16)]
    else if |b| == 2 then [CharOf(b[0] / 4), CharOf(b[0] % 4 * 16 + b[1] / 16), CharOf(b[1] % 16 * 4)]
    else [CharOf(b[0] / 4), CharOf(b[0] % 4 * 16 + b[1] / 16), CharOf(b[1] % 16 * 4 + b[2] / 64), CharOf(b[2] % 64)]
         + Encode(b[3..])
  }

  /** The decoder skips carriage returns and line feeds wherever they stand. */
  function Clean(s: string): string {
    if s == "" then ""
    else (if s[0] == '\r' || s[0] == '\n' then "" else [s[0]]) + Clean(s[1..])
  }

  function Decode(s: string): Option<seq<Byte>> {
    DecodeClean(Clean(s))
  }

  /** Bits left over at the end are ignored; a single left-over character is an error. */
  function DecodeClean(s: string): Option<seq<Byte>> {
    if s == "" then Some([])
    else if |s| == 1 then None
    else
      var v0, v1 := ValueOf(s[0]), ValueOf(s[1]);
      if v0 == None || v1 == None then None
      else
        var b0: Byte := v0.value * 4 + v1.value / 16;
        if |s| == 2 then Some([b0])
        else
          var v2 := ValueOf(s[2]);
          if v2 == None then None
          else
            var b1: Byte := v1.value % 16 * 16 + v2.value / 4;
            if |s| == 3 then Some([b0, b1])
            else
              var v3, rest := ValueOf(s[3]), DecodeClean(s[4..]);
              if v3 == None || rest == None then None
              else
                var b2: Byte := v2.value % 4 * 64 + v3.value;
                Some([b0, b1, b2] + rest.value)
  }

  lemma ValueOfCharOf(v: Sextet)
    ensures ValueOf(CharOf(v)) == Some(v)
  {
  }

  lemma {:induction false} EncodeAlphabet(b: seq<Byte>)
    ensures forall c | c in Encode(b) :: ValueOf(c) != None
    ensures Clean(Encode(b)) == Encode(b)
  {
    if |b| >= 3 {
      EncodeAlphabet(b[3..]);
    }
    CleanKeepsAlphabet(Encode(b));
  }

  lemma {:induction false} CleanKeepsAlphabet(s: string)
    requires forall c | c in s :: ValueOf(c) != None
    ensures Clean(s) == s
  {
    if s != "" {
      CleanKeepsAlphabet(s[1..]);
      assert s[0] in s;
    }
  }

  predicate IsBreak(c: char) { c == '\r' || c == '\n' }

  lemma CleanFirst(s: string)
    requires s != ""
    ensures Clean(s) == (if IsBreak(s[0]) then "" else [s[0]]) + Clean(s[1..])
  {
  }

  lemma Regroup(a: string, b: string, c: string)
    ensures (a + b) + c == a + (b + c)
  {
  }

  lemma ConsAppend(a: string, b: string)
    requires a != ""
    ensures a + b != "" && (a + b)[0] == a[0] && (a + b)[1..] == a[1..] + b
  {
  }

  lemma CleanSplits(a: string, b: string)
    requires a != "" && Clean(a[1..] + b) == Clean(a[1..]) + Clean(b)
    ensures Clean(a + b) == Clean(a) + Clean(b)
  {
    ConsAppend(a, b);
    CleanFirst(a);
    CleanFirst(a + b);
    hide Clean;
    hide IsBreak;
    Regroup(if IsBreak(a[0]) then "" else [a[0]], Clean(a[1..]), Clean(b));
  }

  /** Cleaning takes out the two line-break characters and nothing else: it goes piece by piece. */
  lemma {:induction false} CleanConcat(a: string, b: string)
    ensures Clean(a + b) == Clean(a) + Clean(b)
  {
    if a == "" {
      assert a + b == b;
    } else {
      CleanConcat(a[1..], b);
      CleanSplits(a, b);
    }
  }

  lemma {:induction false} CleanPlain(s: string)
    ensures (forall c | c in s :: !IsBreak(c)) ==> Clean(s) == s
    ensures (forall c | c in s :: IsBreak(c)) ==> Clean(s) == ""
    ensures forall c | c in Clean(s) :: !IsBreak(c)
  {
    if s != "" {
      CleanPlain(s[1..]);
      assert s[0] in s && s == [s[0]] + s[1..];
      assert forall c | c in s[1..] :: c in s;
    }
  }

  /** How many bits of the last character of an encoding of `n` bytes carry nothing, as a power of two. */
  function Slack(n: nat): nat {
    if n % 3 == 1 then 16 else if n % 3 == 2 then 4 else 1
  }

  /** `s` is the encoding of `b`, up to bits of the last character that carry nothing. */
  predicate Spells(s: string, b: seq<Byte>) {
    var e := Encode(b);
    && |s| == |e|
    && (s != "" ==>
          && s[..|s| - 1] == e[..|s| - 1]
          && ValueOf(s[|s| - 1]).Some?
          && ValueOf(e[|s| - 1]).Some?
          && ValueOf(s[|s| - 1]).value / Slack(|b|) == ValueOf(e[|s| - 1]).value / Slack(|b|))
  }

  lemma CharOfValueOf(c: char)
    ensures ValueOf(c).Some? ==> CharOf(ValueOf(c).value) == c
  {
  }

  /** Quotient and remainder determine a number, and it them. */
  lemma Parts(a: nat, b: nat, x: nat)
    ensures b < 4 ==> (a * 4 + b == x <==> a == x / 4 && b == x % 4)
    ensures b < 16 ==> (a * 16 + b == x <==> a == x / 16 && b == x % 16)
    ensures b < 64 ==> (a * 64 + b == x <==> a == x / 64 && b == x % 64)
  {
  }

  /** Three bytes and the four sextets they make determine each other. */
  lemma Sextets(v0: Sextet, v1: Sextet, v2: Sextet, v3: Sextet, x: Byte, y: Byte, z: Byte)
    ensures v0 * 4 + v1 / 16 == x && v1 % 16 * 16 + v2 / 4 == y && v2 % 4 * 64 + v3 == z
       <==> v0 == x / 4 && v1 == x % 4 * 16 + y / 16 && v2 == y % 16 * 4 + z / 64 && v3 == z % 64
  {
    Parts(v0, v1 / 16, x);
    Parts(v1 % 16, v2 / 4, y);
    Parts(v2 % 4, v3, z);
    Parts(x % 4, y / 16, v1);
    Parts(y % 16, z / 64, v2);
  }

  /** A character is that of a sextet exactly if it has its value. */
  lemma ValueIff(c: char, v: Sextet)
    ensures c == CharOf(v) <==> ValueOf(c) == Some(v)
  {
    CharOfValueOf(c);
    ValueOfCharOf(v);
  }

  /** The three bytes of four characters. */
  function Triple(c0: char, c1: char, c2: char, c3: char): Option<seq<Byte>> {
    var v0, v1, v2, v3 := ValueOf(c0), ValueOf(c1), ValueOf(c2), ValueOf(c3);
    if v0 == None || v1 == None || v2 == None || v3 == None then None
    else
      var b0: Byte, b1: Byte, b2: Byte :=
        v0.value * 4 + v1.value / 16, v1.value % 16 * 16 + v2.value / 4, v2.value % 4 * 64 + v3.value;
      Some([b0, b1, b2])
  }

  lemma TripleIff(c0: char, c1: char, c2: char, c3: char, x: Byte, y: Byte, z: Byte)
    ensures Triple(c0, c1, c2, c3) == Some([x, y, z])
       <==> && c0 == CharOf(x / 4) && c1 == CharOf(x % 4 * 16 + y / 16)
            && c2 == CharOf(y % 16 * 4 + z / 64) && c3 == CharOf(z % 64)
  {
    hide ValueOf;
    hide CharOf;
    var v0, v1, v2, v3 := ValueOf(c0), ValueOf(c1), ValueOf(c2), ValueOf(c3);
    ValueIff(c0, x / 4);
    ValueIff(c1, x % 4 * 16 + y / 16);
    ValueIff(c2, y % 16 * 4 + z / 64);
    ValueIff(c3, z % 64);
    if v0.Some? && v1.Some? && v2.Some? && v3.Some? {
      Sextets(v0.value, v1.value, v2.value, v3.value, x, y, z);
    }
  }

  lemma DecodeUnfold(s: string)
    requires |s| >= 4
    ensures var t, rest := Triple(s[0], s[1], s[2], s[3]), DecodeClean(s[4..]);
            DecodeClean(s) == if t == None || rest == None then None else Some(t.value + rest.value)
    ensures Triple(s[0], s[1], s[2], s[3]).Some? ==> |Triple(s[0], s[1], s[2], s[3]).value| == 3
  {
    hide ValueOf;
  }

  lemma SplitThree(t: seq<Byte>, rest: seq<Byte>, b: seq<Byte>)
    requires |t| == 3
    ensures t + rest == b <==> |b| >= 3 && t == b[..3] && rest == b[3..]
  {
    assert (t + rest)[..3] == t && (t + rest)[3..] == rest;
    assert |b| >= 3 ==> b == b[..3] + b[3..];
  }

  lemma TripleEncodes(s: string, b: seq<Byte>)
    requires |s| >= 4 && |b| >= 3
    ensures Triple(s[0], s[1], s[2], s[3]) == Some(b[..3]) <==> s[..4] == Encode(b[..3])
  {
    EncodeTriple(b);
    TripleIff(s[0], s[1], s[2], s[3], b[0], b[1], b[2]);
    hide Encode;
    hide Triple;
    hide CharOf;
    assert b[..3] == [b[0], b[1], b[2]];
    assert s[..4] == [s[0], s[1], s[2], s[3]];
  }

  lemma DecodeFour(s: string, b: seq<Byte>)
    requires |s| >= 4
    ensures DecodeClean(s) == Some(b)
       <==> |b| >= 3 && s[..4] == Encode(b[..3]) && DecodeClean(s[4..]) == Some(b[3..])
  {
    DecodeUnfold(s);
    hide *;
    var t, rest := Triple(s[0], s[1], s[2], s[3]), DecodeClean(s[4..]);
    if |b| >= 3 {
      TripleEncodes(s, b);
    }
    if t.Some? && rest.Some? {
      SplitThree(t.value, rest.value, b);
    }
  }

  lemma EncodeTriple(b: seq<Byte>)
    requires |b| >= 3
    ensures Encode(b[..3]) == [CharOf(b[0] / 4), CharOf(b[0] % 4 * 16 + b[1] / 16),
                               CharOf(b[1] % 16 * 4 + b[2] / 64), CharOf(b[2] % 64)]
  {
    assert Encode(b[..3][3..]) == "";
  }

  lemma SpellsFour(s: string, b: seq<Byte>)
    requires |s| >= 4
    ensures Spells(s, b) <==> |b| >= 3 && s[..4] == Encode(b[..3]) && Spells(s[4..], b[3..])
  {
    hide ValueOf;
    hide CharOf;
    if |b| >= 3 {
      EncodeThree(b);
      hide Encode;
      var e := Encode(b);
      assert e[..4] == Encode(b[..3]) && e[4..] == Encode(b[3..]);
      if |s| == |e| == 4 {
        LastEqual(s, b);
        assert s[..4] == s && e[..4] == e;
      } else if |s| == |e| {
        FrontEqual(s, e);
        assert s[4..][|s| - 5] == s[|s| - 1] && e[4..][|s| - 5] == e[|s| - 1];
      }
    } else {
      assert |Encode(b)| < 4;
    }
  }

  lemma FrontEqual(s: string, e: string)
    requires |s| == |e| >= 5
    ensures s[..|s| - 1] == e[..|s| - 1] <==> s[..4] == e[..4] && s[4..][..|s| - 5] == e[4..][..|s| - 5]
  {
    assert s[..|s| - 1] == s[..4] + s[4..][..|s| - 5];
    assert e[..|s| - 1] == e[..4] + e[4..][..|s| - 5];
    assert s[..4] == s[..|s| - 1][..4] && e[..4] == e[..|s| - 1][..4];
    assert s[4..][..|s| - 5] == s[..|s| - 1][4..] && e[4..][..|s| - 5] == e[..|s| - 1][4..];
  }

  lemma EncodeThree(b: seq<Byte>)
    requires |b| >= 3
    ensures |Encode(b[..3])| == 4 && Encode(b) == Encode(b[..3]) + Encode(b[3..])
    ensures b[3..] == [] <==> Encode(b[3..]) == ""
  {
    hide CharOf;
    EncodeTriple(b);
  }

  /** Four characters spell three bytes only if they are their encoding. */
  lemma LastEqual(s: string, b: seq<Byte>)
    requires |s| == 4 && |b| >= 3 && |Encode(b)| == 4
    ensures Spells(s, b) <==> s == Encode(b)
  {
    var e := Encode(b);
    EncodeThree(b);
    EncodeAlphabet(b);
    assert e[3] in e && |b| == 3;
    hide Encode;
    hide ValueOf;
    CharOfValueOf(s[3]);
    CharOfValueOf(e[3]);
    hide CharOf;
    assert Slack(3) == 1;
    assert s == s[..3] + [s[3]] && e == e[..3] + [e[3]];
  }

  lemma TwoSextets(v0: Sextet, v1: Sextet, x: Byte)
    ensures v0 * 4 + v1 / 16 == x <==> v0 == x / 4 && v1 / 16 == x % 4 * 16 / 16
  {
  }

  lemma ThreeSextets(v0: Sextet, v1: Sextet, v2: Sextet, x: Byte, y: Byte)
    ensures v0 * 4 + v1 / 16 == x && v1 % 16 * 16 + v2 / 4 == y
       <==> v0 == x / 4 && v1 == x % 4 * 16 + y / 16 && v2 / 4 == y % 16 * 4 / 4
  {
  }

  lemma DecodeTwo(s: string, b: seq<Byte>)
    requires |s| == 2 && |b| == 1
    ensures DecodeClean(s) == Some(b) <==> Spells(s, b)
  {
    hide ValueOf;
    hide CharOf;
    ValueIff(s[0], b[0] / 4);
    ValueOfCharOf(b[0] % 4 * 16);
    assert s[..1] == [s[0]] && Encode(b)[..1] == [CharOf(b[0] / 4)];
    assert b == [b[0]];
    if ValueOf(s[0]).Some? && ValueOf(s[1]).Some? {
      TwoSextets(ValueOf(s[0]).value, ValueOf(s[1]).value, b[0]);
    }
  }

  lemma DecodeThree(s: string, b: seq<Byte>)
    requires |s| == 3 && |b| == 2
    ensures DecodeClean(s) == Some(b) <==> Spells(s, b)
  {
    hide ValueOf;
    hide CharOf;
    ValueIff(s[0], b[0] / 4);
    ValueIff(s[1], b[0] % 4 * 16 + b[1] / 16);
    ValueOfCharOf(b[1] % 16 * 4);
    assert s[..2] == [s[0], s[1]] && Encode(b)[..2] == [CharOf(b[0] / 4), CharOf(b[0] % 4 * 16 + b[1] / 16)];
    assert b == [b[0], b[1]];
    if ValueOf(s[0]).Some? && ValueOf(s[1]).Some? && ValueOf(s[2]).Some? {
      ThreeSextets(ValueOf(s[0]).value, ValueOf(s[1]).value, ValueOf(s[2]).value, b[0], b[1]);
    }
  }

  lemma DecodeShort(s: string, b: seq<Byte>)
    requires |s| < 4
    ensures DecodeClean(s) == Some(b) <==> Spells(s, b)
  {
    if |s| == 2 && |b| == 1 {
      DecodeTwo(s, b);
    } else if |s| == 3 && |b| == 2 {
      DecodeThree(s, b);
    } else {
      hide ValueOf;
      hide CharOf;
    }
  }

  /** Exactly what the decoder accepts, once line breaks are dropped. */
  lemma {:induction false} DecodeCleanIff(s: string, b: seq<Byte>)
    ensures DecodeClean(s) == Some(b) <==> Spells(s, b)
  {
    hide DecodeClean;
    hide Spells;
    if |s| < 4 {
      DecodeShort(s, b);
    } else {
      DecodeFour(s, b);
      SpellsFour(s, b);
      if |b| >= 3 {
        DecodeCleanIff(s[4..], b[3..]);
      }
    }
  }

  lemma DecodeCleanEncode(b: seq<Byte>)
    ensures DecodeClean(Encode(b)) == Some(b)
  {
    EncodeAlphabet(b);
    var e := Encode(b);
    assert e != "" ==> e[|e| - 1] in e;
    DecodeCleanIff(e, b);
  }

  lemma DecodeEncode(b: seq<Byte>)
    ensures Decode(Encode(b)) == Some(b)
  {
    EncodeAlphabet(b);
    DecodeCleanEncode(b);
  }
}
