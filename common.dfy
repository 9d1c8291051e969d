/** Shared vocabulary of the backend and the client pages: identifiers, the
    uniform error envelope, configuration read from the environment, the
    password hash, and the few JavaScript string operations the code relies on. */
module Common {

  /** Document ids. Ids are handed out in increasing order, so id order is the
      store's insertion (natural) order. */
  type Id = nat

  datatype Option<T> = None | Some(value: T)

  /** The `{success: false, statusCode, message}` envelope of the error middleware. */
  datatype HttpError = HttpError(status: nat, message: string)

  datatype Result<T> = Ok(value: T) | Err(error: HttpError)

  /** Outcome of a guard or of a handler whose success carries no data. */
  datatype Outcome = Pass | Fail(error: HttpError)

  /** The process environment the core reads: `REQUIRES_LISTING_APPROVAL`,
      `ADMIN_PASSCODE` and `ADMIN_EMAIL`; `None` is an unset variable. */
  datatype Env = Env(requiresListingApproval: Option<string>,
                     adminPasscode: Option<string>,
                     adminEmail: Option<string>)

  /** JavaScript `v || fallback` on a possibly undefined string: both `undefined`
      and the empty string are falsy. */
  function OrDefault(v: Option<string>, fallback: string): (r: string)
    ensures v.Some? && v.value != "" ==> r == v.value
    ensures (v.None? || v.value == "") ==> r == fallback
  {
    if v.Some? && v.value != "" then v.value else fallback
  }

  /** `process.env.REQUIRES_LISTING_APPROVAL === 'true'` */
  predicate RequiresApproval(env: Env) {
    env.requiresListingApproval == Some("true")
  }

  /** The configured shared admin passcode, `'admin123'` when unset or empty. */
  function AdminPasscode(env: Env): string {
    OrDefault(env.adminPasscode, "admin123")
  }

  /** The configured administrator email, `"x@x"` when unset or empty. */
  function AdminEmail(env: Env): string {
    OrDefault(env.adminEmail, "x@x")
  }

  // ---------------------------------------------------------------------------
  // Password hashing, abstracted: a digest that only Verify can relate to a
  // plaintext. Salting and the cost factor are not modelled.

  datatype Digest = Digest(secret: string)

  function Hash(password: string): Digest {
    Digest(password)
  }

  predicate Verify(password: string, d: Digest) {
    d == Hash(password)
  }

  lemma VerifyHash(p: string, q: string)
    ensures Verify(p, Hash(q)) <==> p == q
  {
  }

  // ---------------------------------------------------------------------------
  // Strings

  /** `toLowerCase` on one character, for the capitals of the Latin-1, Greek
      and Cyrillic blocks; every other character is kept. */
  function LowerChar(c: char): (r: char)
    ensures 'A' <= c <= 'Z' ==> r as int == c as int + 0x20
    ensures !IsCapital(c) ==> r == c
    ensures IsCapital(c) ==> r != c && !IsCapital(r)
  {
    var k := c as int;
    if IsCapital(c) then
      if 0x400 <= k <= 0x40F then (k + 0x50) as char else (k + 0x20) as char
    else c
  }

  /** The capitals `LowerChar` maps: A-Z, À-Þ except ×, Α-Ω except the unassigned
      U+03A2, Ѐ-Я. */
  predicate IsCapital(c: char) {
    var k := c as int;
    || 0x41 <= k <= 0x5A
    || (0xC0 <= k <= 0xDE && k != 0xD7)
    || (0x391 <= k <= 0x3A9 && k != 0x3A2)
    || 0x400 <= k <= 0x42F
  }

  function Lower(s: string): (r: string)
    ensures |r| == |s|
    ensures forall i :: 0 <= i < |s| ==> r[i] == LowerChar(s[i])
  {
    if s == [] then [] else [LowerChar(s[0])] + Lower(s[1..])
  }

  /** Accented Latin-1 capitals are lowered too. */
  lemma LowerAccentedExample()
    ensures Lower("ÉCOLE") == "école"
  {
    assert "ÉCOLE"[1..] == "COLE" && "COLE"[1..] == "OLE" && "OLE"[1..] == "LE" && "LE"[1..] == "E";
    assert "E"[1..] == [];
  }

  /** `haystack.includes(needle)`: needle occurs at some offset. */
  predicate Contains(haystack: string, needle: string) {
    exists k :: 0 <= k <= |haystack| && OccursAt(haystack, needle, k)
  }

  predicate OccursAt(haystack: string, needle: string, k: int) {
    0 <= k <= |haystack| - |needle| && haystack[k..k + |needle|] == needle
  }

  /** Case-insensitive literal substring test. */
  predicate ContainsIgnoreCase(haystack: string, needle: string) {
    Contains(Lower(haystack), Lower(needle))
  }

  lemma EmptyIsContained(haystack: string)
    ensures Contains(haystack, "")
  {
    assert OccursAt(haystack, "", 0);
  }

  /** Decimal rendering of an integer, as template literals print it. */
  function DigitsOf(n: nat): (r: string)
    ensures |r| >= 1
    ensures forall i :: 0 <= i < |r| ==> '0' <= r[i] <= '9'
    decreases n
  {
    var d := ['0' + (n % 10) as char];
    if n < 10 then d else DigitsOf(n / 10) + d
  }

  function IntToString(n: int): (r: string)
    ensures |r| >= 1
  {
    if n < 0 then "-" + DigitsOf(-n) else DigitsOf(n)
  }

  // ---------------------------------------------------------------------------
  // `parseInt(s)` with no radix: leading white space, an optional sign, then
  // `0x` or `0X` and the longest run of hexadecimal digits, or else the longest
  // run of decimal digits; `None` is NaN (no digits, or undefined).

  predicate IsDigit(c: char) { '0' <= c <= '9' }

  /** A digit of base 10 or, when `radix` is 16, of base 16. */
  predicate IsDigitIn(c: char, radix: nat) {
    IsDigit(c) || (radix == 16 && ('a' <= c <= 'f' || 'A' <= c <= 'F'))
  }

  function DigitValue(c: char): (d: nat)
    requires IsDigitIn(c, 16)
    ensures d < 16 && (IsDigit(c) <==> d < 10)
  {
    if IsDigit(c) then c as int - '0' as int
    else if 'a' <= c <= 'f' then c as int - 'a' as int + 10
    else c as int - 'A' as int + 10
  }

  /** The white space and line terminators `parseInt` skips. */
  predicate IsSpace(c: char) {
    var k := c as int;
    || 0x09 <= k <= 0x0D || k == 0x20 || k == 0xA0 || k == 0x1680
    || 0x2000 <= k <= 0x200A || k == 0x2028 || k == 0x2029 || k == 0x202F
    || k == 0x205F || k == 0x3000 || k == 0xFEFF
  }

  function TrimStart(s: string): (r: string)
    ensures |r| <= |s| && r == s[|s| - |r|..]
    ensures r == [] || !IsSpace(r[0])
  {
    if s != [] && IsSpace(s[0]) then TrimStart(s[1..]) else s
  }

  /** The longest prefix of `s` made of digits of the radix. */
  function LeadingDigits(s: string, radix: nat): (r: string)
    ensures |r| <= |s| && r == s[..|r|]
    ensures forall i :: 0 <= i < |r| ==> IsDigitIn(r[i], radix)
    ensures |r| < |s| ==> !IsDigitIn(s[|r|], radix)
  {
    if s != [] && IsDigitIn(s[0], radix) then [s[0]] + LeadingDigits(s[1..], radix) else []
  }

  /** Value of a run of digits, read most significant first. */
  function DigitsValue(ds: string, radix: nat): nat
    requires forall i :: 0 <= i < |ds| ==> IsDigitIn(ds[i], radix)
  {
    if ds == [] then 0
    else
      var last := ds[|ds| - 1];
      assert IsDigitIn(last, radix);
      var high := DigitsValue(ds[..|ds| - 1], radix);
      (if radix == 16 then high * 16 else high * 10) + DigitValue(last)
  }

  /** Whether the unsigned part starts with the hexadecimal prefix. */
  predicate HexPrefixed(u: string) {
    |u| >= 2 && u[0] == '0' && (u[1] == 'x' || u[1] == 'X')
  }

  /** The number after the sign: in base 16 after `0x` or `0X`, else in base
      10; `None` when no digit follows. */
  function ParseUnsigned(u: string): (r: Option<nat>)
    ensures (u == [] || !IsDigit(u[0])) ==> r.None?
  {
    var radix := if HexPrefixed(u) then 16 else 10;
    var run := LeadingDigits(if radix == 16 then u[2..] else u, radix);
    if run == [] then None else Some(DigitsValue(run, radix))
  }

  function ParseInt(v: Option<string>): (r: Option<int>)
    ensures v.None? ==> r.None?
    ensures v.Some? ==> var t := TrimStart(v.value);
                        t == [] || (!IsDigit(t[0]) && t[0] != '-' && t[0] != '+') ==> r.None?
    ensures r.Some? && r.value < 0 ==> TrimStart(v.value)[0] == '-'
  {
    if v.None? then None else ParseSigned(TrimStart(v.value))
  }

  /** The number at the start of text that has no leading white space: an
      optional sign, then the unsigned number. */
  function ParseSigned(t: string): (r: Option<int>)
    ensures (t == [] || (!IsDigit(t[0]) && t[0] != '-' && t[0] != '+')) ==> r.None?
    ensures r.Some? && r.value < 0 ==> t[0] == '-'
  {
    if t != [] && t[0] == '-' then
      var m := ParseUnsigned(t[1..]);
      if m.None? then None else Some(-(m.value as int))
    else if t != [] && t[0] == '+' then
      var m := ParseUnsigned(t[1..]);
      if m.None? then None else Some(m.value as int)
    else
      var m := ParseUnsigned(t);
      if m.None? then None else Some(m.value as int)
  }

  /** Text that starts with neither white space nor a sign is read as it is. */
  lemma ParseUnsignedText(s: string)
    requires s != [] && !IsSpace(s[0]) && s[0] != '-' && s[0] != '+'
    ensures ParseInt(Some(s)) == (if ParseUnsigned(s).Some? then Some(ParseUnsigned(s).value as int) else None)
  {
    assert TrimStart(s) == s;
  }

  /** Text that starts with a minus sign is read as the negated rest. */
  lemma ParseMinusText(u: string)
    ensures ParseInt(Some("-" + u)) == (if ParseUnsigned(u).Some? then Some(-(ParseUnsigned(u).value as int)) else None)
  {
    var s := "-" + u;
    assert s[0] == '-' && !IsSpace(s[0]) && s[1..] == u;
    assert TrimStart(s) == s;
  }

  /** A run of decimal digits is read in base 10 as its value. */
  lemma ParseUnsignedDigits(ds: string)
    requires ds != [] && forall i :: 0 <= i < |ds| ==> IsDigit(ds[i])
    ensures ParseUnsigned(ds) == Some(DigitsValue(ds, 10))
  {
    assert !HexPrefixed(ds) by { if |ds| >= 2 { assert IsDigit(ds[1]); } }
    LeadingDigitsOfDigitRun(ds);
  }

  /** White space before the number is skipped, whatever kind it is. */
  lemma ParseIgnoresLeadingSpace(c: char, s: string)
    requires IsSpace(c)
    ensures ParseInt(Some([c] + s)) == ParseInt(Some(s))
  {
    assert ([c] + s)[1..] == s;
    assert TrimStart([c] + s) == TrimStart(s);
  }

  /** A vertical tab before the number is skipped like a blank. */
  lemma ParseVerticalTabExample()
    ensures ParseInt(Some([0x0B as char] + "5")) == Some(5)
  {
    ParseFiveExample();
    ParseIgnoresLeadingSpace(0x0B as char, "5");
  }

  lemma ParseFiveExample()
    ensures ParseInt(Some("5")) == Some(5)
  {
    var s := "5";
    ParseUnsignedText(s);
    assert !HexPrefixed(s);
    assert LeadingDigits(s, 10) == s by { assert s[1..] == []; }
    assert DigitsValue(s, 10) == 5 by { assert s[..0] == []; }
  }

  /** `parseInt('0x1F')` reads hexadecimal digits after the prefix. */
  lemma ParseHexExample()
    ensures ParseInt(Some("0x1F")) == Some(31)
  {
    ParseUnsignedText("0x1F");
    var u := "0x1F";
    assert HexPrefixed(u) && u[2..] == "1F";
    HexDigitsOneF();
  }

  lemma HexDigitsOneF()
    ensures LeadingDigits("1F", 16) == "1F" && DigitsValue("1F", 16) == 31
  {
    assert LeadingDigits("F", 16) == "F" by { assert "F"[1..] == []; }
    assert "1F"[1..] == "F";
    assert DigitsValue("1", 16) == 1 by { assert "1"[..0] == []; }
    assert "1F"[..1] == "1";
  }

  /** The sign comes before the prefix, and the prefix may be upper case. */
  lemma ParseNegativeHexExample()
    ensures ParseInt(Some("-0X10")) == Some(-16)
  {
    ParseMinusText("0X10");
    ParseUpperHexTen();
    assert "-" + "0X10" == "-0X10";
  }

  lemma ParseUpperHexTen()
    ensures ParseUnsigned("0X10") == Some(16)
  {
    var u := "0X10";
    assert HexPrefixed(u) && u[2..] == "10";
    assert LeadingDigits("0", 16) == "0" by { assert "0"[1..] == []; }
    assert LeadingDigits("10", 16) == "10" by { assert "10"[1..] == "0"; }
    assert DigitsValue("1", 16) == 1 by { assert "1"[..0] == []; }
    assert DigitsValue("10", 16) == 16 by { assert "10"[..1] == "1"; }
  }

  /** A prefix with no hexadecimal digit after it is NaN. */
  lemma ParseBareHexPrefix(rest: string)
    requires rest == [] || !IsDigitIn(rest[0], 16)
    ensures ParseInt(Some("0x" + rest)) == None
  {
    var s := "0x" + rest;
    assert s[0] == '0' && s[1] == 'x' && s[2..] == rest;
    ParseUnsignedText(s);
  }

  /** Trailing characters that are not digits end the number. */
  lemma ParseTrailingTextExample()
    ensures ParseInt(Some("12px")) == Some(12)
  {
    var s := "12px";
    ParseUnsignedText(s);
    assert !HexPrefixed(s);
    assert LeadingDigits("px", 10) == [];
    assert LeadingDigits("2px", 10) == "2" by { assert "2px"[1..] == "px"; }
    assert LeadingDigits(s, 10) == "12" by { assert s[1..] == "2px"; }
    assert DigitsValue("1", 10) == 1 by { assert "1"[..0] == []; }
    assert DigitsValue("12", 10) == 12 by { assert "12"[..1] == "1"; }
  }

  lemma {:induction false} DigitsValueOfDigits(n: nat)
    ensures DigitsValue(DigitsOf(n), 10) == n
    decreases n
  {
    var ds := DigitsOf(n);
    if n >= 10 {
      DigitsValueOfDigits(n / 10);
      assert ds[..|ds| - 1] == DigitsOf(n / 10);
    }
  }

  lemma {:induction false} LeadingDigitsOfDigitRun(s: string)
    requires forall i :: 0 <= i < |s| ==> IsDigit(s[i])
    ensures LeadingDigits(s, 10) == s
  {
    if s != [] {
      LeadingDigitsOfDigitRun(s[1..]);
    }
  }

  /** `parseInt(String(n))` gives back `n`. */
  lemma ParseIntRoundTrip(n: int)
    ensures ParseInt(Some(IntToString(n))) == Some(n)
  {
    if n < 0 {
      var m: nat := -n;
      ParseNegativeDigits(m);
      assert IntToString(n) == "-" + DigitsOf(m) && -(m as int) == n;
    } else {
      ParseDigits(n);
      assert IntToString(n) == DigitsOf(n);
    }
  }

  lemma ParseDigits(m: nat)
    ensures ParseInt(Some(DigitsOf(m))) == Some(m)
  {
    var ds := DigitsOf(m);
    assert IsDigit(ds[0]);
    ParseUnsignedText(ds);
    ParseUnsignedOfDigits(m);
  }

  lemma ParseNegativeDigits(m: nat)
    requires m > 0
    ensures ParseInt(Some("-" + DigitsOf(m))) == Some(-(m as int))
  {
    ParseMinusText(DigitsOf(m));
    ParseUnsignedOfDigits(m);
  }

  /** The decimal text of a number is read back as that number. */
  lemma ParseUnsignedOfDigits(m: nat)
    ensures ParseUnsigned(DigitsOf(m)) == Some(m)
  {
    ParseUnsignedDigits(DigitsOf(m));
    DigitsValueOfDigits(m);
  }

  // ---------------------------------------------------------------------------
  // Tallies: how many of a series of checks hold.

  /** The number of `true` entries, counted from the back so that a tally kept
      while checks are appended one at a time follows it step by step. */
  function CountTrue(bs: seq<bool>): nat {
    if bs == [] then 0
    else CountTrue(bs[..|bs| - 1]) + (if bs[|bs| - 1] then 1 else 0)
  }

  /** Extending a prefix by one check adds one to the tally exactly when that
      check holds. */
  lemma CountTrueStep(bs: seq<bool>, k: nat)
    requires k < |bs|
    ensures CountTrue(bs[..k + 1]) == CountTrue(bs[..k]) + (if bs[k] then 1 else 0)
  {
    assert bs[..k + 1][..k] == bs[..k];
  }

  function Bit(b: bool): nat {
    if b then 1 else 0
  }

  /** A tally of five checks, spelled out: one for each check that holds. */
  lemma CountTrueFive(bs: seq<bool>)
    requires |bs| == 5
    ensures CountTrue(bs) == Bit(bs[0]) + Bit(bs[1]) + Bit(bs[2]) + Bit(bs[3]) + Bit(bs[4])
  {
    assert bs[..0] == [];
    CountTrueStep(bs, 0);
    CountTrueStep(bs, 1);
    CountTrueStep(bs, 2);
    CountTrueStep(bs, 3);
    CountTrueStep(bs, 4);
    assert bs[..5] == bs;
  }

  /** A tally never exceeds the number of checks, and is zero exactly when no
      check holds. */
  lemma {:induction false} CountTrueBounds(bs: seq<bool>)
    ensures CountTrue(bs) <= |bs|
    ensures CountTrue(bs) == 0 <==> forall i :: 0 <= i < |bs| ==> !bs[i]
    ensures CountTrue(bs) == |bs| <==> forall i :: 0 <= i < |bs| ==> bs[i]
  {
    if bs != [] {
      var init := bs[..|bs| - 1];
      CountTrueBounds(init);
      assert forall i :: 0 <= i < |init| ==> init[i] == bs[i];
    }
  }
}
