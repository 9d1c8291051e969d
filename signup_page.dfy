/** The sign-up page's password meter (client/src/pages/SignUp.jsx). */
module SignUpPage {
  import opened Common

  predicate HasUpper(p: string) {
    exists i :: 0 <= i < |p| && 'A' <= p[i] <= 'Z'
  }

  predicate HasLower(p: string) {
    exists i :: 0 <= i < |p| && 'a' <= p[i] <= 'z'
  }

  predicate HasDigit(p: string) {
    exists i :: 0 <= i < |p| && '0' <= p[i] <= '9'
  }

  predicate IsAlphanumeric(c: char) {
    'A' <= c <= 'Z' || 'a' <= c <= 'z' || '0' <= c <= '9'
  }

  /** `/[^A-Za-z0-9]/` */
  predicate HasSymbol(p: string) {
    exists i :: 0 <= i < |p| && !IsAlphanumeric(p[i])
  }

  /** `s.length`: the number of UTF-16 code units, two for a character outside
      the Basic Multilingual Plane. */
  function Utf16Length(s: string): (n: nat)
    ensures |s| <= n <= 2 * |s|
    ensures (forall i :: 0 <= i < |s| ==> s[i] as int < 0x10000) ==> n == |s|
  {
    if s == [] then 0 else (if s[0] as int < 0x10000 then 1 else 2) + Utf16Length(s[1..])
  }

  /** Every character outside the Basic Multilingual Plane counts twice, so
      four of them already meet the length criterion. */
  lemma {:induction false} AstralCharsCountTwice(s: string)
    requires forall i :: 0 <= i < |s| ==> s[i] as int >= 0x10000
    ensures Utf16Length(s) == 2 * |s|
  {
    if s != [] {
      AstralCharsCountTwice(s[1..]);
    }
  }

  /** Four emoji make a password of length 8 with a symbol in it: strength 2. */
  lemma FourEmojiScoreTwo()
    ensures Strength("😀😀😀😀") == 2
  {
    var p := "😀😀😀😀";
    AstralCharsCountTwice(p);
    assert !IsAlphanumeric(p[0]);
    assert forall i :: 0 <= i < |p| ==> p[i] == '😀';
    CountTrueFive(Criteria(p));
  }

  /** The five criteria, in the order they are tested. */
  function Criteria(p: string): seq<bool> {
    [Utf16Length(p) >= 8, HasUpper(p), HasLower(p), HasDigit(p), HasSymbol(p)]
  }

  /** The strength is the number of criteria the password meets. */
  function Strength(p: string): nat {
    CountTrue(Criteria(p))
  }

  /** The strength computation in `handleChange`: one increment per criterion met. */
  method PasswordStrength(p: string) returns (strength: nat)
    ensures strength == Strength(p)
    ensures strength <= 5
  {
    strength := 0;
    if Utf16Length(p) >= 8 { strength := strength + 1; }
    if HasUpper(p) { strength := strength + 1; }
    if HasLower(p) { strength := strength + 1; }
    if HasDigit(p) { strength := strength + 1; }
    if HasSymbol(p) { strength := strength + 1; }
    CountTrueFive(Criteria(p));
  }

  /** The empty password scores nothing; a password meeting every criterion
      scores five, and only such a password does. */
  lemma StrengthExtremes(p: string)
    ensures Strength("") == 0
    ensures Strength(p) == 5 <==> Utf16Length(p) >= 8 && HasUpper(p) && HasLower(p) && HasDigit(p) && HasSymbol(p)
  {
    CountTrueBounds(Criteria(""));
    var checks := Criteria(p);
    CountTrueBounds(checks);
    assert checks[0] == (Utf16Length(p) >= 8) && checks[1] == HasUpper(p) && checks[2] == HasLower(p);
    assert checks[3] == HasDigit(p) && checks[4] == HasSymbol(p);
  }

  /** Meeting one more criterion raises the score by exactly one. */
  lemma OneMoreCriterion(p: string, q: string, k: nat)
    requires k < 5
    requires forall i :: 0 <= i < 5 && i != k ==> Criteria(p)[i] == Criteria(q)[i]
    requires !Criteria(p)[k] && Criteria(q)[k]
    ensures Strength(q) == Strength(p) + 1
  {
    CountTrueFive(Criteria(p));
    CountTrueFive(Criteria(q));
  }

  function StrengthColor(strength: int): (color: string)
    ensures strength <= 2 ==> color == "bg-red-500"
    ensures strength == 3 ==> color == "bg-yellow-500"
    ensures strength >= 4 ==> color == "bg-green-500"
  {
    if strength <= 2 then "bg-red-500"
    else if strength <= 3 then "bg-yellow-500"
    else "bg-green-500"
  }

  function StrengthText(strength: int): (text: string)
    ensures strength <= 2 ==> text == "Weak"
    ensures strength == 3 ==> text == "Medium"
    ensures strength >= 4 ==> text == "Strong"
  {
    if strength <= 2 then "Weak"
    else if strength <= 3 then "Medium"
    else "Strong"
  }

  /** The text and the color always tell the same story. */
  lemma TextMatchesColor(strength: int)
    ensures StrengthText(strength) == "Weak" <==> StrengthColor(strength) == "bg-red-500"
    ensures StrengthText(strength) == "Medium" <==> StrengthColor(strength) == "bg-yellow-500"
    ensures StrengthText(strength) == "Strong" <==> StrengthColor(strength) == "bg-green-500"
  {
  }
}
