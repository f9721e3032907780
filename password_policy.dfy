/** The password rules of the register and reset-password forms, and the strength meter shown
    under the password field. The rules and the meter count different things: a password can
    score "Strong" and still be refused. */
module PasswordPolicy {
  import opened Common

  /** `/[A-Z]/`, `/[a-z]/`, `/[0-9]/` and `/[^A-Za-z0-9]/` as tests on a whole string. */
  predicate HasUpper(s: string) { exists i :: 0 <= i < |s| && IsAsciiUpper(s[i]) }
  predicate HasLower(s: string) { exists i :: 0 <= i < |s| && IsAsciiLower(s[i]) }
  predicate HasDigit(s: string) { exists i :: 0 <= i < |s| && IsAsciiDigit(s[i]) }
  predicate HasSpecial(s: string) { exists i :: 0 <= i < |s| && !IsAsciiAlnum(s[i]) }

  const TooShort: string := "Password must be at least 8 characters"
  const NoUpper: string := "Password must contain at least one uppercase letter"
  const NoLower: string := "Password must contain at least one lowercase letter"
  const NoDigit: string := "Password must contain at least one number"
  const NoSpecial: string := "Password must contain at least one special character"

  /** The five password rules, in the order the schema checks them. */
  datatype Rule = MinLength | Upper | Lower | Digit | Special

  /** The position of a rule in the schema. */
  function Rank(rule: Rule): nat {
    match rule
    case MinLength => 0
    case Upper => 1
    case Lower => 2
    case Digit => 3
    case Special => 4
  }

  function Message(rule: Rule): string {
    match rule
    case MinLength => TooShort
    case Upper => NoUpper
    case Lower => NoLower
    case Digit => NoDigit
    case Special => NoSpecial
  }

  /** Each rule has a message of its own. */
  lemma MessageInjective(x: Rule, y: Rule)
    ensures Message(x) == Message(y) <==> x == y
  {
    if x != y {
      if x == MinLength || y == MinLength {
        assert Message(x)[14] != Message(y)[14];
      } else {
        assert Message(x)[37] != Message(y)[37];
      }
    }
  }

  predicate Holds(rule: Rule, pw: string) {
    match rule
    case MinLength => |pw| >= 8
    case Upper => HasUpper(pw)
    case Lower => HasLower(pw)
    case Digit => HasDigit(pw)
    case Special => HasSpecial(pw)
  }

  /** What the password rules require. */
  predicate Acceptable(pw: string) {
    |pw| >= 8 && HasUpper(pw) && HasLower(pw) && HasDigit(pw) && HasSpecial(pw)
  }

  /** The rules the password fails, each once, in the schema's order. */
  function FailedRules(pw: string): (rs: seq<Rule>)
    ensures forall x :: x in rs <==> !Holds(x, pw)
    ensures forall i, j :: 0 <= i < j < |rs| ==> Rank(rs[i]) < Rank(rs[j])
    ensures rs == [] <==> Acceptable(pw)
    ensures |rs| <= 5
    ensures |pw| < 8 ==> rs[0] == MinLength
  {
    (if |pw| < 8 then [MinLength] else []) +
    (if !HasUpper(pw) then [Upper] else []) +
    (if !HasLower(pw) then [Lower] else []) +
    (if !HasDigit(pw) then [Digit] else []) +
    (if !HasSpecial(pw) then [Special] else [])
  }

  /** The messages of a list of rules, in its order. */
  function Messages(rs: seq<Rule>): (r: seq<string>)
    ensures |r| == |rs| && forall i :: 0 <= i < |r| ==> r[i] == Message(rs[i])
    ensures forall x :: Message(x) in r <==> x in rs
  {
    var r := seq(|rs|, i requires 0 <= i < |rs| => Message(rs[i]));
    forall x: Rule ensures Message(x) in r <==> x in rs {
      if x in rs {
        var i :| 0 <= i < |rs| && rs[i] == x;
        assert r[i] == Message(x);
      }
      if Message(x) in r {
        var i :| 0 <= i < |r| && r[i] == Message(x);
        MessageInjective(rs[i], x);
      }
    }
    r
  }

  /** The messages of the failed password rules: one for each failed rule, its own, in the
      schema's order. */
  function PasswordIssues(pw: string): (r: seq<string>)
    ensures r == [] <==> Acceptable(pw)
    ensures |r| <= 5
    ensures |pw| < 8 ==> r != [] && r[0] == TooShort
    ensures |r| == |FailedRules(pw)| && forall i :: 0 <= i < |r| ==> r[i] == Message(FailedRules(pw)[i])
    ensures TooShort in r <==> |pw| < 8
    ensures NoUpper in r <==> !HasUpper(pw)
    ensures NoLower in r <==> !HasLower(pw)
    ensures NoDigit in r <==> !HasDigit(pw)
    ensures NoSpecial in r <==> !HasSpecial(pw)
  {
    var rs := FailedRules(pw);
    var r := Messages(rs);
    assert Message(MinLength) in r <==> !Holds(MinLength, pw);
    assert Message(Upper) in r <==> !Holds(Upper, pw);
    assert Message(Lower) in r <==> !Holds(Lower, pw);
    assert Message(Digit) in r <==> !Holds(Digit, pw);
    assert Message(Special) in r <==> !Holds(Special, pw);
    r
  }

  // ---------------------------------------------------------------- strength meter

  /** The six things the meter rewards: 8 characters, 12 characters, an upper-case letter, a
      lower-case letter, a digit, anything else. */
  function Criteria(pw: string): seq<bool> {
    [|pw| >= 8, |pw| >= 12, HasUpper(pw), HasLower(pw), HasDigit(pw), HasSpecial(pw)]
  }

  function B(b: bool): nat { if b then 1 else 0 }

  function CountTrue(bs: seq<bool>): (n: nat)
    ensures n <= |bs|
  {
    if bs == [] then 0 else B(bs[0]) + CountTrue(bs[1..])
  }

  lemma CountSix(c: seq<bool>)
    requires |c| == 6
    ensures CountTrue(c) == B(c[0]) + B(c[1]) + B(c[2]) + B(c[3]) + B(c[4]) + B(c[5])
  {
    var c1 := c[1..];
    var c2 := c1[1..];
    var c3 := c2[1..];
    var c4 := c3[1..];
    var c5 := c4[1..];
    assert c5[1..] == [];
    assert CountTrue(c5) == B(c[5]);
    assert CountTrue(c4) == B(c[4]) + B(c[5]);
    assert CountTrue(c3) == B(c[3]) + B(c[4]) + B(c[5]);
    assert CountTrue(c2) == B(c[2]) + B(c[3]) + B(c[4]) + B(c[5]);
    assert CountTrue(c1) == B(c[1]) + B(c[2]) + B(c[3]) + B(c[4]) + B(c[5]);
  }

  /** The strength score: how many criteria the password meets. */
  function Score(pw: string): (n: nat)
    ensures n <= 6
  {
    CountTrue(Criteria(pw))
  }

  /** `strength`, computed the way the component does, one increment per criterion. */
  method Strength(password: string) returns (score: nat)
    ensures score == Score(password)
  {
    score := 0;
    if |password| >= 8 { score := score + 1; }
    if |password| >= 12 { score := score + 1; }
    if HasUpper(password) { score := score + 1; }
    if HasLower(password) { score := score + 1; }
    if HasDigit(password) { score := score + 1; }
    if HasSpecial(password) { score := score + 1; }
    CountSix(Criteria(password));
  }

  datatype Rating = Weak | Medium | Strong

  function RatingOf(strength: int): (r: Rating)
    ensures r == Weak <==> strength <= 2
    ensures r == Strong <==> strength > 4
  {
    if strength <= 2 then Weak else if strength <= 4 then Medium else Strong
  }

  function RatingText(r: Rating): string {
    match r
    case Weak => "Weak"
    case Medium => "Medium"
    case Strong => "Strong"
  }

  function BarColour(r: Rating): string {
    match r
    case Weak => "bg-red-500"
    case Medium => "bg-yellow-500"
    case Strong => "bg-[#00FF88]"
  }

  const UnlitSegment: string := "bg-zinc-700"

  /** The class of the rating text, chosen with its own comparisons; it agrees with the rating. */
  function TextClass(strength: int): string {
    if strength > 4 then "text-[#00FF88]" else if strength > 2 then "text-yellow-500" else "text-red-500"
  }

  /** The class of the text for each rating. */
  function RatingTextClass(r: Rating): string {
    match r
    case Weak => "text-red-500"
    case Medium => "text-yellow-500"
    case Strong => "text-[#00FF88]"
  }

  /** The rendered meter: six segments, the rating, the rating's text class. */
  datatype Meter = Meter(segments: seq<string>, text: string, textClass: string)

  /** `PasswordStrength`: nothing for an empty password, otherwise as many lit segments as the
      score, in the rating's colour. */
  function StrengthMeter(pw: string): (r: Option<Meter>)
    ensures r.None? <==> pw == ""
    ensures r.Some? ==> |r.value.segments| == 6
    ensures r.Some? ==> forall i :: 0 <= i < 6 ==>
      r.value.segments[i] == (if i < Score(pw) then BarColour(RatingOf(Score(pw))) else UnlitSegment)
    ensures r.Some? ==> r.value.text == RatingText(RatingOf(Score(pw)))
    ensures r.Some? ==> r.value.textClass == RatingTextClass(RatingOf(Score(pw)))
  {
    if pw == "" then None
    else
      var strength := Score(pw);
      var colour := BarColour(RatingOf(strength));
      Some(Meter(seq(6, i => if i < strength then colour else UnlitSegment),
                 RatingText(RatingOf(strength)), TextClass(strength)))
  }

  // ---------------------------------------------------------------- properties

  /** The meter's number of lit segments is the score. */
  function LitCount(segments: seq<string>): nat {
    if segments == [] then 0 else (if segments[0] != UnlitSegment then 1 else 0) + LitCount(segments[1..])
  }

  lemma {:induction false} LitPrefix(segments: seq<string>, k: nat, lit: string)
    requires lit != UnlitSegment && k <= |segments|
    requires forall i :: 0 <= i < |segments| ==> segments[i] == (if i < k then lit else UnlitSegment)
    ensures LitCount(segments) == k
  {
    if segments != [] {
      var tail := segments[1..];
      var k' := if k > 0 then k - 1 else 0;
      assert forall i :: 0 <= i < |tail| ==> tail[i] == segments[i + 1];
      LitPrefix(tail, k', lit);
    }
  }

  lemma MeterShowsScore(pw: string)
    requires pw != ""
    ensures LitCount(StrengthMeter(pw).value.segments) == Score(pw)
  {
    var m := StrengthMeter(pw).value;
    LitPrefix(m.segments, Score(pw), BarColour(RatingOf(Score(pw))));
  }

  /** A password the rules accept meets at least five criteria, so the meter calls it strong. */
  lemma AcceptableIsStrong(pw: string)
    requires Acceptable(pw)
    ensures Score(pw) >= 5 && RatingOf(Score(pw)) == Strong
  {
    CountSix(Criteria(pw));
  }

  /** The converse fails: thirteen characters with a lower-case letter, a digit and a symbol
      score five, yet the missing upper-case letter gets the password refused. */
  lemma StrongIsNotAcceptable()
    ensures var pw := "abcdefghijk1!";
      RatingOf(Score(pw)) == Strong && !Acceptable(pw) && PasswordIssues(pw) == [NoUpper]
  {
    var pw := "abcdefghijk1!";
    assert IsAsciiLower(pw[0]) && IsAsciiDigit(pw[11]) && !IsAsciiAlnum(pw[12]);
    assert !HasUpper(pw);
    CountSix(Criteria(pw));
  }
}
