/**
 The PHC strings of internal/auth/local.go: printing and parsing the parameters, salt and key of an
 Argon2id hash, and the password check built on them.  Argon2id itself is a parameter.
 */
module Phc {
  import opened Options
  import opened Text
  import opened Base64

  type Uint8 = n: int | 0 <= n < 0x100
  type Uint32 = n: int | 0 <= n < 0x1_0000_0000

  datatype ArgonParams = ArgonParams(memory: Uint32, time: Uint32, threads: Uint8, saltLen: Uint32, keyLen: Uint32)

  /** What a PHC string carries. */
  datatype Fields = Fields(memory: Uint32, time: Uint32, threads: Uint8, salt: seq<Byte>, key: seq<Byte>)

  // ---------- Decimal numbers ----------

  predicate IsDigit(c: char) { '0' <= c <= '9' }

  function PrintNat(n: nat): string {
    (if n < 10 then "" else PrintNat(n / 10)) + ['0' + (n % 10) as char]
  }

  /** How many digits `s` starts with. */
  function DigitRun(s: string): (k: nat)
    ensures k <= |s|
    ensures forall i | 0 <= i < k :: IsDigit(s[i])
  {
    if s != "" && IsDigit(s[0]) then 1 + DigitRun(s[1..]) else 0
  }

  function NatOf(s: string): nat
    requires forall i | 0 <= i < |s| :: IsDigit(s[i])
  {
    if s == "" then 0 else
      assert IsDigit(s[|s| - 1]);
      10 * NatOf(s[..|s| - 1]) + (s[|s| - 1] as int - '0' as int)
  }

  /** Leading white space; a line feed there is an error of the scanner. */
  function SkipSpace(s: string): Option<string> {
    if s == "" then Some(s)
    else if s[0] == '\n' then None
    else if IsSpace(s[0]) then SkipSpace(s[1..])
    else Some(s)
  }

  /** One %d of Sscanf into a 64-bit int: the number and the text after it. */
  function ScanInt(s: string): Option<(int, string)> {
    var t := SkipSpace(s);
    if t == None then None else ScanSigned(t.value)
  }

  predicate IsSign(c: char) { c == '+' || c == '-' }

  /** A sign, if there is one, and the digits after it. */
  function ScanSigned(t: string): Option<(int, string)> {
    if t == "" then None
    else
      var body := if IsSign(t[0]) then t[1..] else t;
      var k := DigitRun(body);
      if k == 0 then None
      else
        var magnitude: int := NatOf(body[..k]);
        var n := if t[0] == '-' then -magnitude else magnitude;
        if -0x8000_0000_0000_0000 <= n < 0x8000_0000_0000_0000 then Some((n, body[k..])) else None
  }

  function ScanLiteral(lit: string, s: string): Option<string> {
    if lit <= s then Some(s[|lit|..]) else None
  }

  function ScanField(lit: string, s: string): Option<(int, string)> {
    var t := ScanLiteral(lit, s);
    if t == None then None else ScanInt(t.value)
  }

  /** Sscanf with "m=%d,t=%d,p=%d": text after the third number is ignored. */
  function ScanParams(s: string): Option<(int, int, int)> {
    var m := ScanField("m=", s);
    if m == None then None
    else
      var t := ScanField(",t=", m.value.1);
      if t == None then None
      else
        var p := ScanField(",p=", t.value.1);
        if p == None then None else Some((m.value.0, t.value.0, p.value.0))
  }

  // ---------- The two functions ----------

  function PrintParams(m: nat, t: nat, p: nat): string {
    "m=" + PrintNat(m) + (",t=" + PrintNat(t) + (",p=" + PrintNat(p)))
  }

  function PhcEncode(p: ArgonParams, salt: seq<Byte>, key: seq<Byte>): string {
    "$argon2id$v=19$" + (PrintParams(p.memory, p.time, p.threads) + "$" + (Encode(salt) + "$" + Encode(key)))
  }

  function PhcParse(phc: string): Option<Fields> {
    var parts := Split(phc, '$');
    if |parts| != 6 || parts[1] != "argon2id" || !("v=" <= parts[2]) then None
    else ParseParts(parts[3], parts[4], parts[5])
  }

  function ParseParts(params: string, salt64: string, key64: string): Option<Fields> {
    var nums, salt, key := ScanParams(params), Decode(salt64), Decode(key64);
    if nums == None || salt == None || key == None then None
    else
      var (m, t, p) := nums.value;
      Some(Fields(m % 0x1_0000_0000, t % 0x1_0000_0000, p % 0x100, salt.value, key.value))
  }

  // ---------- Scanning what was printed ----------

  lemma {:induction false} PrintedDigits(n: nat)
    ensures PrintNat(n) != ""
    ensures forall i | 0 <= i < |PrintNat(n)| :: IsDigit(PrintNat(n)[i])
    ensures NatOf(PrintNat(n)) == n
  {
    if n >= 10 {
      PrintedDigits(n / 10);
      var s := PrintNat(n);
      assert s[..|s| - 1] == PrintNat(n / 10);
    }
  }

  lemma {:induction false} DigitRunStops(s: string, rest: string)
    requires forall i | 0 <= i < |s| :: IsDigit(s[i])
    requires rest != "" ==> !IsDigit(rest[0])
    ensures DigitRun(s + rest) == |s|
  {
    if s == "" {
      assert s + rest == rest;
    } else {
      DigitRunStops(s[1..], rest);
      assert (s + rest)[1..] == s[1..] + rest;
    }
  }

  lemma {:induction false} ScanPrinted(n: nat, rest: string)
    requires n < 0x8000_0000_0000_0000
    requires rest != "" ==> !IsDigit(rest[0])
    ensures ScanInt(PrintNat(n) + rest) == Some((n, rest))
  {
    hide PrintNat;
    hide NatOf;
    hide DigitRun;
    var d, all := PrintNat(n), PrintNat(n) + rest;
    PrintedDigits(n);
    DigitRunStops(d, rest);
    assert all[0] == d[0] && IsDigit(d[0]);
    assert SkipSpace(all) == Some(all);
    assert all[..|d|] == d && all[|d|..] == rest;
  }

  lemma {:induction false} ScanFieldPrinted(lit: string, n: nat, rest: string)
    requires n < 0x8000_0000_0000_0000
    requires rest != "" ==> !IsDigit(rest[0])
    ensures ScanField(lit, lit + PrintNat(n) + rest) == Some((n, rest))
  {
    var s := lit + PrintNat(n) + rest;
    assert s[..|lit|] == lit && s[|lit|..] == PrintNat(n) + rest;
    ScanPrinted(n, rest);
  }

  lemma ScanPrintedParams(m: nat, t: nat, p: nat, tail: string)
    requires m < 0x8000_0000_0000_0000 && t < 0x8000_0000_0000_0000 && p < 0x8000_0000_0000_0000
    requires tail != "" ==> !IsDigit(tail[0])
    ensures ScanParams(PrintParams(m, t, p) + tail) == Some((m, t, p))
  {
    hide ScanField;
    hide PrintNat;
    var afterT := ",p=" + PrintNat(p) + tail;
    var afterM := ",t=" + PrintNat(t) + afterT;
    ScanFieldPrinted(",p=", p, tail);
    ScanFieldPrinted(",t=", t, afterT);
    ScanFieldPrinted("m=", m, afterM);
    assert ",p=" + PrintNat(p) + tail == afterT;
    assert ",t=" + PrintNat(t) + (",p=" + PrintNat(p)) + tail == afterM;
    assert PrintParams(m, t, p) + tail == "m=" + PrintNat(m) + afterM;
  }

  lemma {:induction false} NumbersHaveNoDollar(n: nat)
    ensures '$' !in PrintNat(n)
  {
    PrintedDigits(n);
  }

  // ---------- Round trips ----------

  /** A string of the accepted shape, with everything the parser does not look at left open. */
  function Assemble(lead: string, version: string, params: string, salt: string, key: string): string {
    lead + "$" + ("argon2id" + "$" + ("v=" + version + "$" + (params + "$" + (salt + "$" + key))))
  }

  lemma SplitAssembled(lead: string, version: string, params: string, salt: string, key: string)
    requires '$' !in lead && '$' !in version && '$' !in params && '$' !in salt && '$' !in key
    ensures Split(Assemble(lead, version, params, salt, key), '$')
         == [lead, "argon2id", "v=" + version, params, salt, key]
  {
    hide Split;
    var s4 := salt + "$" + key;
    var s3 := params + "$" + s4;
    var s2 := "v=" + version + "$" + s3;
    var s1 := "argon2id" + "$" + s2;
    SplitAtFirst(key, '$', "");
    SplitAtFirst(salt, '$', key);
    SplitAtFirst(params, '$', s4);
    SplitAtFirst("v=" + version, '$', s3);
    SplitAtFirst("argon2id", '$', s2);
    SplitAtFirst(lead, '$', s1);
  }

  /**
   Around printed fields the parser tolerates any text before the first `$`, any version, any text after the
   numbers that does not continue the last one, and line breaks inside the base64.
   */
  lemma {:induction false} ParseAssembled(
      f: Fields, lead: string, version: string, tail: string, salt: string, key: string)
    requires '$' !in lead && '$' !in version && '$' !in tail && '$' !in salt && '$' !in key
    requires tail != "" ==> !IsDigit(tail[0])
    requires Clean(salt) == Encode(f.salt) && Clean(key) == Encode(f.key)
    ensures PhcParse(Assemble(lead, version, PrintParams(f.memory, f.time, f.threads) + tail, salt, key)) == Some(f)
  {
    hide *;
    ParamsHaveNoDollar(f.memory, f.time, f.threads);
    var params := PrintParams(f.memory, f.time, f.threads) + tail;
    SplitAssembled(lead, version, params, salt, key);
    ParsePrintedParts(f, tail, salt, key);
    PhcParseSplit(Assemble(lead, version, params, salt, key), lead, version, params, salt, key);
  }

  lemma {:induction false} PhcParseSplit(
      phc: string, lead: string, version: string, params: string, salt: string, key: string)
    requires Split(phc, '$') == [lead, "argon2id", "v=" + version, params, salt, key]
    ensures PhcParse(phc) == ParseParts(params, salt, key)
  {
    hide Split;
    hide ParseParts;
    assert "v=" <= "v=" + version;
  }

  lemma ParamsHaveNoDollar(m: nat, t: nat, p: nat)
    ensures '$' !in PrintParams(m, t, p)
  {
    hide PrintNat;
    NumbersHaveNoDollar(m);
    NumbersHaveNoDollar(t);
    NumbersHaveNoDollar(p);
  }

  lemma {:induction false} ParsePrintedParts(f: Fields, tail: string, salt: string, key: string)
    requires tail != "" ==> !IsDigit(tail[0])
    requires Clean(salt) == Encode(f.salt) && Clean(key) == Encode(f.key)
    ensures ParseParts(PrintParams(f.memory, f.time, f.threads) + tail, salt, key) == Some(f)
  {
    hide ScanParams;
    hide PrintParams;
    hide Decode;
    ScanPrintedParams(f.memory, f.time, f.threads, tail);
    DecodeSpread(f.salt, salt);
    DecodeSpread(f.key, key);
  }

  /** Base64 text with line breaks strewn in decodes like the text without them. */
  lemma {:induction false} DecodeSpread(b: seq<Byte>, text: string)
    requires Clean(text) == Encode(b)
    ensures Decode(text) == Some(b)
  {
    DecodeCleanEncode(b);
  }

  function FieldsOf(p: ArgonParams, salt: seq<Byte>, key: seq<Byte>): Fields {
    Fields(p.memory, p.time, p.threads, salt, key)
  }

  /** Parsing what was printed gives every field back. */
  lemma ParseEncode(p: ArgonParams, salt: seq<Byte>, key: seq<Byte>)
    ensures PhcParse(PhcEncode(p, salt, key)) == Some(FieldsOf(p, salt, key))
  {
    hide PhcParse;
    hide PrintParams;
    hide Encode;
    hide Clean;
    EncodeAlphabet(salt);
    EncodeAlphabet(key);
    var params := PrintParams(p.memory, p.time, p.threads);
    ParseAssembled(FieldsOf(p, salt, key), "", "19", "", Encode(salt), Encode(key));
    assert params + "" == params;
    assert PhcEncode(p, salt, key) == Assemble("", "19", params, Encode(salt), Encode(key));
  }

  lemma EncodeInjective(p: ArgonParams, salt: seq<Byte>, key: seq<Byte>,
                        p': ArgonParams, salt': seq<Byte>, key': seq<Byte>)
    requires PhcEncode(p, salt, key) == PhcEncode(p', salt', key')
    ensures FieldsOf(p, salt, key) == FieldsOf(p', salt', key')
  {
    ParseEncode(p, salt, key);
    ParseEncode(p', salt', key');
  }

  /** Printing what any accepted string carries and parsing it again changes nothing. */
  lemma ReencodeStable(phc: string, saltLen: Uint32, keyLen: Uint32)
    ensures var f := PhcParse(phc);
            f.Some? ==> PhcParse(PhcEncode(ArgonParams(f.value.memory, f.value.time, f.value.threads, saltLen, keyLen),
                                           f.value.salt, f.value.key)) == f
  {
    var f := PhcParse(phc);
    if f.Some? {
      var p := ArgonParams(f.value.memory, f.value.time, f.value.threads, saltLen, keyLen);
      ParseEncode(p, f.value.salt, f.value.key);
    }
  }

  /** The parser is no two-sided inverse: every encoding has other strings with the same fields. */
  lemma ParseNotInjective(p: ArgonParams, salt: seq<Byte>, key: seq<Byte>)
    ensures exists phc :: phc != PhcEncode(p, salt, key) && PhcParse(phc) == PhcParse(PhcEncode(p, salt, key))
  {
    ParseEncode(p, salt, key);
    EncodeAlphabet(salt);
    EncodeAlphabet(key);
    var params := PrintParams(p.memory, p.time, p.threads);
    var phc := Assemble("x", "19", params, Encode(salt), Encode(key));
    assert params + "" == params;
    ParseAssembled(FieldsOf(p, salt, key), "x", "19", "", Encode(salt), Encode(key));
    assert phc[0] == 'x' && PhcEncode(p, salt, key)[0] == '$';
  }

  // ---------- Passwords ----------

  /**
   The key derivation: password, salt, time, memory, threads and key length to a key.  `None` is the
   panic with which the library refuses some parameters.
   */
  type Kdf = (string, seq<Byte>, Uint32, Uint32, Uint8, Uint32) -> Option<seq<Byte>>

  /** A derived key has the length that was asked for. */
  ghost predicate RightLength(kdf: Kdf) {
    forall pw, salt, t, m, p, len | kdf(pw, salt, t, m, p, len).Some? ::
      |kdf(pw, salt, t, m, p, len).value| == len
  }

  datatype Outcome<+T> = Value(value: T) | Error | Panic

  /** `salt` holds the random bytes that were drawn. */
  function HashPassword(kdf: Kdf, pw: string, p: ArgonParams, salt: seq<Byte>): Outcome<string>
    requires |salt| == p.saltLen
  {
    if IsBlank(pw) then Error
    else
      var key := kdf(pw, salt, p.time, p.memory, p.threads, p.keyLen);
      if key == None then Panic else Value(PhcEncode(p, salt, key.value))
  }

  function VerifyPassword(kdf: Kdf, pw: string, phc: string): Outcome<bool> {
    var f := PhcParse(phc);
    if f == None then Value(false)
    else
      var want := f.value.key;
      var got := kdf(pw, f.value.salt, f.value.time, f.value.memory, f.value.threads, |want| % 0x1_0000_0000);
      if got == None then Panic else Value(got.value == want)
  }

  /** Hashing fails on blank passwords only, apart from a refusal by the key derivation. */
  lemma HashFailsIff(kdf: Kdf, pw: string, p: ArgonParams, salt: seq<Byte>)
    requires |salt| == p.saltLen
    ensures HashPassword(kdf, pw, p, salt) == Error <==> forall c | c in pw :: IsSpace(c)
  {
    BlankIff(pw);
  }

  /** Otherwise it panics exactly if the key derivation does, and what it returns carries what it was made of. */
  lemma HashedCarries(kdf: Kdf, pw: string, p: ArgonParams, salt: seq<Byte>)
    requires |salt| == p.saltLen && exists c | c in pw :: !IsSpace(c)
    ensures var key := kdf(pw, salt, p.time, p.memory, p.threads, p.keyLen);
            var h := HashPassword(kdf, pw, p, salt);
            if key == None then h == Panic
            else h.Value? && PhcParse(h.value) == Some(Fields(p.memory, p.time, p.threads, salt, key.value))
  {
    hide PhcParse;
    hide PhcEncode;
    BlankIff(pw);
    var key := kdf(pw, salt, p.time, p.memory, p.threads, p.keyLen);
    if key.Some? {
      ParseEncode(p, salt, key.value);
    }
  }

  /** A check of any string at all: false if it cannot be parsed, and else what the derived key says. */
  lemma VerifyMeaning(kdf: Kdf, pw: string, phc: string)
    ensures PhcParse(phc) == None ==> VerifyPassword(kdf, pw, phc) == Value(false)
    ensures PhcParse(phc).Some? ==>
              var f := PhcParse(phc).value;
              var got := kdf(pw, f.salt, f.time, f.memory, f.threads, |f.key| % 0x1_0000_0000);
              VerifyPassword(kdf, pw, phc) == match got case None => Panic case Some(key) => Value(key == f.key)
  {
    hide PhcParse;
  }

  lemma {:induction false} BlankIff(s: string)
    ensures IsBlank(s) <==> forall c | c in s :: IsSpace(c)
  {
    if s != "" && IsSpace(s[0]) {
      BlankIff(s[1..]);
      assert s == [s[0]] + s[1..];
    } else if s != "" {
      assert s[0] in s;
      FirstStays(s);
    }
  }

  lemma {:induction false} FirstStays(s: string)
    requires s != "" && !IsSpace(s[0])
    ensures TrimRight(s) != ""
  {
    if IsSpace(s[|s| - 1]) {
      FirstStays(s[..|s| - 1]);
    }
  }

  /**
   A stored hash accepts exactly the passwords with the same derived key: the parsed parameters and the
   length of the parsed key are the ones it was made with.
   */
  lemma VerifyHashedIff(kdf: Kdf, pw: string, pw': string, p: ArgonParams, salt: seq<Byte>)
    requires RightLength(kdf) && |salt| == p.saltLen
    requires HashPassword(kdf, pw, p, salt).Value?
    ensures var same := kdf(pw', salt, p.time, p.memory, p.threads, p.keyLen)
                        == kdf(pw, salt, p.time, p.memory, p.threads, p.keyLen);
            VerifyPassword(kdf, pw', HashPassword(kdf, pw, p, salt).value) == Value(true) <==> same
  {
    hide PhcParse;
    hide PhcEncode;
    var key := kdf(pw, salt, p.time, p.memory, p.threads, p.keyLen).value;
    ParseEncode(p, salt, key);
  }

  /** In particular the password itself is accepted, and checking it does not panic. */
  lemma VerifyHashed(kdf: Kdf, pw: string, p: ArgonParams, salt: seq<Byte>)
    requires RightLength(kdf) && |salt| == p.saltLen
    requires HashPassword(kdf, pw, p, salt).Value?
    ensures VerifyPassword(kdf, pw, HashPassword(kdf, pw, p, salt).value) == Value(true)
  {
    VerifyHashedIff(kdf, pw, pw, p, salt);
  }
}
