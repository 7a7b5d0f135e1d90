/** Exactly which strings the parser of PHC strings accepts, and as what. */
module PhcExact {
  import opened Options
  import opened Text
  import opened Base64
  import opened Phc

  predicate AllDigits(s: string) { forall i | 0 <= i < |s| :: IsDigit(s[i]) }

  /** Digits, perhaps with a sign before them, for a number of 64 bits. */
  predicate Signed(u: string, n: int) {
    u != "" &&
    var digits := if u[0] == '+' || u[0] == '-' then u[1..] else u;
    && digits != "" && AllDigits(digits)
    && n == (if u[0] == '-' then 0 - NatOf(digits) else NatOf(digits))
    && -0x8000_0000_0000_0000 <= n < 0x8000_0000_0000_0000
  }

  /** White space without a line feed, and a number: what %d takes for `n`. */
  predicate Numeral(text: string, n: int) {
    exists k | 0 <= k <= |text| ::
      (forall i | 0 <= i < k :: IsSpace(text[i]) && text[i] != '\n') && Signed(text[k..], n)
  }

  /** Nothing that could belong to the number before it. */
  predicate Ends(rest: string) { rest != "" ==> !IsDigit(rest[0]) }

  // ---------- One number ----------

  lemma {:induction false} SkipIff(s: string, k: nat)
    requires k <= |s| && (forall i | 0 <= i < k :: IsSpace(s[i]) && s[i] != '\n')
    requires k < |s| ==> !IsSpace(s[k])
    ensures SkipSpace(s) == Some(s[k..])
    decreases k
  {
    if k > 0 {
      SkipIff(s[1..], k - 1);
      assert s[1..][k - 1..] == s[k..];
    }
  }

  lemma {:induction false} SkipTakes(s: string) returns (k: nat)
    requires SkipSpace(s).Some?
    ensures k <= |s| && SkipSpace(s).value == s[k..] && (k < |s| ==> !IsSpace(s[k]))
    ensures forall i | 0 <= i < k :: IsSpace(s[i]) && s[i] != '\n'
  {
    if s == "" || !IsSpace(s[0]) {
      k := 0;
      assert s[0..] == s;
    } else {
      k := SkipTakes(s[1..]);
      assert s[1..][k..] == s[k + 1..];
      k := k + 1;
    }
  }

  lemma SignedScans(u: string, n: int, rest: string)
    requires Signed(u, n) && Ends(rest)
    ensures ScanSigned(u + rest) == Some((n, rest)) && !IsSpace(u[0])
  {
    hide NatOf;
    hide DigitRun;
    var t, digits := u + rest, if IsSign(u[0]) then u[1..] else u;
    var body := if IsSign(t[0]) then t[1..] else t;
    assert body == digits + rest;
    DigitRunStops(digits, rest);
    assert body[..|digits|] == digits && body[|digits|..] == rest;
    assert IsSign(u[0]) || IsDigit(u[0]);
  }

  lemma NumeralScans(text: string, n: int, rest: string)
    requires Numeral(text, n) && Ends(rest)
    ensures ScanInt(text + rest) == Some((n, rest))
  {
    hide Signed;
    hide ScanSigned;
    var k :| 0 <= k <= |text| && (forall i | 0 <= i < k :: IsSpace(text[i]) && text[i] != '\n') && Signed(text[k..], n);
    SignedScans(text[k..], n, rest);
    SignedSome(text[k..], n);
    SkipIff(text + rest, k);
    assert (text + rest)[k..] == text[k..] + rest;
  }

  lemma SignedSome(u: string, n: int)
    ensures Signed(u, n) ==> u != ""
  {
  }

  lemma {:induction false} DigitsTaken(body: string)
    ensures AllDigits(body[..DigitRun(body)]) && Ends(body[DigitRun(body)..])
  {
    RunIsLongest(body);
  }

  lemma ScanTakesSigned(t: string) returns (u: string)
    requires ScanSigned(t).Some?
    ensures t == u + ScanSigned(t).value.1 && Signed(u, ScanSigned(t).value.0) && Ends(ScanSigned(t).value.1)
  {
    hide NatOf;
    hide DigitRun;
    var body := if IsSign(t[0]) then t[1..] else t;
    var k := DigitRun(body);
    DigitsTaken(body);
    hide Ends;
    if IsSign(t[0]) {
      u := [t[0]] + body[..k];
      assert u[1..] == body[..k];
    } else {
      u := body[..k];
    }
    assert body == body[..k] + body[k..];
  }

  lemma ScanTakesNumeral(s: string) returns (text: string)
    requires ScanInt(s).Some?
    ensures s == text + ScanInt(s).value.1 && Numeral(text, ScanInt(s).value.0) && Ends(ScanInt(s).value.1)
  {
    hide Signed;
    hide ScanSigned;
    var k := SkipTakes(s);
    var u := ScanTakesSigned(s[k..]);
    text := s[..k] + u;
    assert text[k..] == u;
  }

  lemma {:induction false} RunIsLongest(s: string)
    ensures DigitRun(s) < |s| ==> !IsDigit(s[DigitRun(s)])
  {
    if s != "" && IsDigit(s[0]) {
      RunIsLongest(s[1..]);
    }
  }

  /** One number of the scanner, exactly. */
  lemma ScanIntIff(s: string, n: int, rest: string)
    ensures ScanInt(s) == Some((n, rest)) <==> exists text :: s == text + rest && Numeral(text, n) && Ends(rest)
  {
    hide ScanInt;
    hide Numeral;
    if ScanInt(s) == Some((n, rest)) {
      var text := ScanTakesNumeral(s);
      assert s == text + rest;
    }
    if text :| s == text + rest && Numeral(text, n) && Ends(rest) {
      NumeralScans(text, n, rest);
    }
  }

  // ---------- The three numbers ----------

  /** The parameter field for three numbers; whatever follows the last of them is ignored. */
  ghost predicate SpellsParams(s: string, m: int, t: int, p: int) {
    exists a, b, c, tail :: s == "m=" + a + (",t=" + b + (",p=" + c + tail))
                            && Numeral(a, m) && Numeral(b, t) && Numeral(c, p) && Ends(tail)
  }

  lemma ScanFieldIff(lit: string, s: string, n: int, rest: string)
    ensures ScanField(lit, s) == Some((n, rest))
       <==> exists text :: s == lit + text + rest && Numeral(text, n) && Ends(rest)
  {
    hide ScanInt;
    hide Numeral;
    if lit <= s {
      ScanIntIff(s[|lit|..], n, rest);
      assert s == lit + s[|lit|..];
      if text :| s[|lit|..] == text + rest && Numeral(text, n) && Ends(rest) {
        assert s == lit + text + rest;
      }
    }
    if text :| s == lit + text + rest && Numeral(text, n) && Ends(rest) {
      assert s[..|lit|] == lit && s[|lit|..] == text + rest;
    }
  }

  lemma ScanParamsIff(s: string, m: int, t: int, p: int)
    ensures ScanParams(s) == Some((m, t, p)) <==> SpellsParams(s, m, t, p)
  {
    hide ScanField;
    hide Numeral;
    if ScanParams(s) == Some((m, t, p)) {
      ParamsTaken(s, m, t, p);
    }
    if SpellsParams(s, m, t, p) {
      var a, b, c, tail :| s == "m=" + a + (",t=" + b + (",p=" + c + tail))
                           && Numeral(a, m) && Numeral(b, t) && Numeral(c, p) && Ends(tail);
      var s2 := ",p=" + c + tail;
      var s1 := ",t=" + b + s2;
      assert s == "m=" + a + s1;
      ScanFieldIff("m=", s, m, s1);
      ScanFieldIff(",t=", s1, t, s2);
      ScanFieldIff(",p=", s2, p, tail);
    }
  }

  lemma ParamsTaken(s: string, m: int, t: int, p: int)
    requires ScanParams(s) == Some((m, t, p))
    ensures SpellsParams(s, m, t, p)
  {
    hide ScanField;
    hide Numeral;
    var s1 := ScanField("m=", s).value.1;
    var s2 := ScanField(",t=", s1).value.1;
    var tail := ScanField(",p=", s2).value.1;
    ScanFieldIff("m=", s, m, s1);
    ScanFieldIff(",t=", s1, t, s2);
    ScanFieldIff(",p=", s2, p, tail);
    var a :| s == "m=" + a + s1 && Numeral(a, m) && Ends(s1);
    var b :| s1 == ",t=" + b + s2 && Numeral(b, t) && Ends(s2);
    var c :| s2 == ",p=" + c + tail && Numeral(c, p) && Ends(tail);
  }

  // ---------- The whole string ----------

  /** The parts of an accepted string: no dollar in any of them, numbers cut to their width. */
  ghost predicate Carries(
      f: Fields, lead: string, version: string, params: string, salt: string, key: string, m: int, t: int, p: int)
  {
    && '$' !in lead && '$' !in version && '$' !in params && '$' !in salt && '$' !in key
    && SpellsParams(params, m, t, p)
    && f.memory == m % 0x1_0000_0000 && f.time == t % 0x1_0000_0000 && f.threads == p % 0x100
    && Spells(Clean(salt), f.salt) && Spells(Clean(key), f.key)
  }

  ghost predicate Accepted(phc: string, f: Fields) {
    exists lead, version, params, salt, key, m, t, p ::
      phc == Assemble(lead, version, params, salt, key) && Carries(f, lead, version, params, salt, key, m, t, p)
  }

  lemma {:induction false} ParsePartsIff(f: Fields, params: string, salt: string, key: string)
    ensures ParseParts(params, salt, key) == Some(f)
       <==> exists m, t, p ::
              && SpellsParams(params, m, t, p)
              && f.memory == m % 0x1_0000_0000 && f.time == t % 0x1_0000_0000 && f.threads == p % 0x100
              && Spells(Clean(salt), f.salt) && Spells(Clean(key), f.key)
  {
    hide ScanParams;
    hide SpellsParams;
    hide Spells;
    hide DecodeClean;
    DecodeCleanIff(Clean(salt), f.salt);
    DecodeCleanIff(Clean(key), f.key);
    if ScanParams(params).Some? {
      var (m, t, p) := ScanParams(params).value;
      ScanParamsIff(params, m, t, p);
    }
    if m, t, p :| SpellsParams(params, m, t, p) && f.memory == m % 0x1_0000_0000 && f.time == t % 0x1_0000_0000
                  && f.threads == p % 0x100 && Spells(Clean(salt), f.salt) && Spells(Clean(key), f.key) {
      ScanParamsIff(params, m, t, p);
    }
  }

  lemma {:induction false} JoinSix(parts: seq<string>)
    requires |parts| == 6 && parts[1] == "argon2id" && "v=" <= parts[2]
    ensures Join(parts, '$') == Assemble(parts[0], parts[2][2..], parts[3], parts[4], parts[5])
  {
    var a, b, c, d, e := parts[1..], parts[1..][1..], parts[1..][1..][1..], parts[1..][1..][1..][1..], parts[5..];
    assert d[1..] == e && Join(e, '$') == parts[5];
    assert Join(d, '$') == parts[4] + "$" + parts[5];
    assert Join(c, '$') == parts[3] + "$" + (parts[4] + "$" + parts[5]);
    assert parts[2] == "v=" + parts[2][2..];
    assert Join(b, '$') == parts[2] + "$" + (parts[3] + "$" + (parts[4] + "$" + parts[5]));
    assert Join(a, '$') == "argon2id" + "$" + Join(b, '$');
  }

  /** The parser, exactly. */
  lemma ParseIff(phc: string, f: Fields)
    ensures PhcParse(phc) == Some(f) <==> Accepted(phc, f)
  {
    hide SpellsParams;
    hide ParseParts;
    hide Split;
    hide Join;
    hide Assemble;
    hide Spells;
    var parts := Split(phc, '$');
    if PhcParse(phc) == Some(f) {
      JoinSplit(phc, '$');
      JoinSix(parts);
      var version := parts[2][2..];
      assert '$' !in version by { assert parts[2] == "v=" + version; }
      ParsePartsIff(f, parts[3], parts[4], parts[5]);
      var m, t, p :| SpellsParams(parts[3], m, t, p) && f.memory == m % 0x1_0000_0000 && f.time == t % 0x1_0000_0000
                     && f.threads == p % 0x100;
      assert Carries(f, parts[0], version, parts[3], parts[4], parts[5], m, t, p);
    }
    if Accepted(phc, f) {
      var lead, version, params, salt, key, m, t, p :|
        phc == Assemble(lead, version, params, salt, key) && Carries(f, lead, version, params, salt, key, m, t, p);
      SplitAssembled(lead, version, params, salt, key);
      PhcParseSplit(phc, lead, version, params, salt, key);
      ParsePartsIff(f, params, salt, key);
    }
  }
}
