/** The string rules the request DTOs declare with class-validator: lengths
    as validator.js `isLength` measures them, the password-strength
    pattern `^(?=.*[a-z])(?=.*[A-Z])(?=.*\d)(?=.*[!@#$%^&*])` and the phone
    pattern `^\+?[\d\s\-()]+$`, each stated as what the regular expression
    engine accepts. */
module Rules {

  /** The variation selectors U+FE0E and U+FE0F, which `isLength` does not
      count. */
  predicate IsVariationSelector(c: char) {
    c == '\U{FE0E}' || c == '\U{FE0F}'
  }

  /** The length `isLength` compares with its bounds: `str.length` less one
      for every surrogate pair and one for every variation selector, that
      is, the number of code points other than the two selectors. A Dafny
      `char` is a whole code point, so a surrogate pair is one `char`. */
  function JsLength(s: string): nat
    decreases |s|
  {
    if s == [] then 0 else (if IsVariationSelector(s[0]) then 0 else 1) + JsLength(s[1..])
  }

  /** The measure is at most the number of code points, equal to it when no
      variation selector occurs, and zero exactly when only selectors occur. */
  lemma {:induction false} JsLengthBounds(s: string)
    ensures JsLength(s) <= |s|
    ensures (forall i :: 0 <= i < |s| ==> !IsVariationSelector(s[i])) ==> JsLength(s) == |s|
    ensures JsLength(s) == 0 <==> forall i :: 0 <= i < |s| ==> IsVariationSelector(s[i])
    decreases |s|
  {
    if s != [] {
      JsLengthBounds(s[1..]);
      assert forall i :: 1 <= i < |s| ==> s[1..][i - 1] == s[i];
    }
  }

  /** The measure of a concatenation is the sum of the measures. */
  lemma {:induction false} JsLengthAppend(s: string, t: string)
    ensures JsLength(s + t) == JsLength(s) + JsLength(t)
    decreases |s|
  {
    if s != [] {
      assert (s + t)[0] == s[0] && (s + t)[1..] == s[1..] + t;
      JsLengthAppend(s[1..], t);
    } else {
      assert s + t == t;
    }
  }

  /** `@MaxLength(n)` and `@MinLength(n)`: `isLength` with only an upper or
      only a lower bound. */
  predicate MaxLength(s: string, n: nat) {
    JsLength(s) <= n
  }

  predicate MinLength(s: string, n: nat) {
    JsLength(s) >= n
  }

  /** `@IsNotEmpty()` on a string. */
  predicate IsNotEmpty(s: string) {
    s != ""
  }

  /** The characters `.` does not match: line feed, carriage return, line
      separator and paragraph separator. */
  predicate IsLineTerminator(c: char) {
    c as int in {0x0A, 0x0D, 0x2028, 0x2029}
  }

  /** `\d` (ASCII digits only, as in every JavaScript regular expression). */
  predicate IsDigit(c: char) {
    '0' <= c <= '9'
  }

  /** The four character classes the password pattern looks ahead for. */
  datatype CharClass = Lower | Upper | Digit | Special

  predicate InClass(c: char, k: CharClass) {
    match k
    case Lower => 'a' <= c <= 'z'
    case Upper => 'A' <= c <= 'Z'
    case Digit => IsDigit(c)
    case Special => c in "!@#$%^&*"
  }

  /** The engine's run of `(?=.*[k])` at the start of the input: `.*` can
      only step over characters that are not line terminators, so the scan
      succeeds on a class character and stops at the first terminator. */
  function ScanFirstLine(s: string, k: CharClass): bool
    decreases |s|
  {
    if s == [] then false
    else if InClass(s[0], k) then true
    else if IsLineTerminator(s[0]) then false
    else ScanFirstLine(s[1..], k)
  }

  /** The same lookahead stated outright: some character of class k is
      preceded by no line terminator. */
  ghost predicate OccursInFirstLine(s: string, k: CharClass) {
    exists i :: 0 <= i < |s| && InClass(s[i], k) && NoTerminatorBefore(s, i)
  }

  ghost predicate NoTerminatorBefore(s: string, i: nat)
    requires i <= |s|
  {
    forall j :: 0 <= j < i ==> !IsLineTerminator(s[j])
  }

  lemma {:induction false} ScanFirstLineCorrect(s: string, k: CharClass)
    ensures ScanFirstLine(s, k) <==> OccursInFirstLine(s, k)
    decreases |s|
  {
    if s == [] {
    } else if InClass(s[0], k) {
      assert NoTerminatorBefore(s, 0);
    } else if IsLineTerminator(s[0]) {
      forall i | 0 <= i < |s| && InClass(s[i], k) ensures !NoTerminatorBefore(s, i) {
        assert i > 0;
      }
    } else {
      ScanFirstLineCorrect(s[1..], k);
      if ScanFirstLine(s[1..], k) {
        var i :| 0 <= i < |s[1..]| && InClass(s[1..][i], k) && NoTerminatorBefore(s[1..], i);
        assert InClass(s[i + 1], k);
        forall j | 0 <= j < i + 1 ensures !IsLineTerminator(s[j]) {
          if j > 0 { assert s[j] == s[1..][j - 1]; }
        }
        assert NoTerminatorBefore(s, i + 1);
      }
      if OccursInFirstLine(s, k) {
        var i :| 0 <= i < |s| && InClass(s[i], k) && NoTerminatorBefore(s, i);
        assert i > 0;
        forall j | 0 <= j < i - 1 ensures !IsLineTerminator(s[1..][j]) {
          assert s[1..][j] == s[j + 1];
        }
        assert NoTerminatorBefore(s[1..], i - 1);
        assert InClass(s[1..][i - 1], k);
      }
    }
  }

  /** `@Matches(/^(?=.*[a-z])(?=.*[A-Z])(?=.*\d)(?=.*[!@#$%^&*])/)`. */
  predicate PasswordPattern(s: string) {
    ScanFirstLine(s, Lower) && ScanFirstLine(s, Upper)
      && ScanFirstLine(s, Digit) && ScanFirstLine(s, Special)
  }

  /** The password rule of registration and of user creation:
      `@MinLength(8)` together with the pattern. */
  predicate StrongPassword(s: string) {
    MinLength(s, 8) && PasswordPattern(s)
  }

  /** The pattern is not anchored at the end: once the four classes occur
      on the first line, anything may follow. */
  lemma {:induction false} PasswordPatternNotEndAnchored(s: string, t: string)
    requires PasswordPattern(s)
    ensures PasswordPattern(s + t)
    ensures StrongPassword(s) ==> StrongPassword(s + t)
  {
    forall k: CharClass | ScanFirstLine(s, k) ensures ScanFirstLine(s + t, k) {
      ScanFirstLineCorrect(s, k);
      ScanFirstLineCorrect(s + t, k);
      var i :| 0 <= i < |s| && InClass(s[i], k) && NoTerminatorBefore(s, i);
      assert (s + t)[i] == s[i];
      forall j | 0 <= j < i ensures !IsLineTerminator((s + t)[j]) {
        assert (s + t)[j] == s[j];
      }
      assert NoTerminatorBefore(s + t, i);
    }
    JsLengthAppend(s, t);
  }

  /** Each required class must appear before the first line terminator. */
  lemma {:induction false} PasswordClassAfterLineBreakIgnored(s: string, t: string, k: CharClass)
    requires forall i :: 0 <= i < |s| ==> !InClass(s[i], k)
    ensures !ScanFirstLine(s + "\n" + t, k)
    decreases |s|
  {
    if s == [] {
      assert (s + "\n" + t)[0] == '\n';
    } else {
      assert (s + "\n" + t)[1..] == s[1..] + "\n" + t;
      assert (s + "\n" + t)[0] == s[0];
      PasswordClassAfterLineBreakIgnored(s[1..], t, k);
    }
  }

  /** `\s`: the ECMAScript white space and line terminator characters. */
  predicate IsJsWhitespace(c: char) {
    var n := c as int;
    (0x09 <= n <= 0x0D) || n == 0x20 || n == 0xA0 || n == 0x1680
      || (0x2000 <= n <= 0x200A) || n == 0x2028 || n == 0x2029
      || n == 0x202F || n == 0x205F || n == 0x3000 || n == 0xFEFF
  }

  /** `[\d\s\-()]`. */
  predicate IsPhoneChar(c: char) {
    IsDigit(c) || IsJsWhitespace(c) || c == '-' || c == '(' || c == ')'
  }

  /** `[\d\s\-()]+$` from the start of t. */
  predicate PhoneBody(t: string) {
    |t| >= 1 && forall i :: 0 <= i < |t| ==> IsPhoneChar(t[i])
  }

  /** `/^\+?[\d\s\-()]+$/.test(s)`: the engine first tries `\+?` on a leading
      '+', then without it. */
  predicate PhoneMatches(s: string) {
    (|s| >= 1 && s[0] == '+' && PhoneBody(s[1..])) || PhoneBody(s)
  }

  /** What the phone pattern accepts, stated without backtracking: an
      optional single leading '+', then at least one phone character, and no
      other character anywhere. In particular "" and "+" are refused, and so
      is any letter and any '+' after the first position. */
  lemma {:induction false} PhoneShape(s: string)
    ensures PhoneMatches(s) <==>
      (if |s| >= 1 && s[0] == '+' then PhoneBody(s[1..]) else PhoneBody(s))
    ensures PhoneMatches(s) ==> forall i :: 0 < i < |s| ==> s[i] != '+' && !('a' <= s[i] <= 'z') && !('A' <= s[i] <= 'Z')
    ensures !PhoneMatches("") && !PhoneMatches("+")
  {
    if |s| >= 1 && s[0] == '+' {
      assert !IsPhoneChar(s[0]);
    }
    if PhoneMatches(s) {
      forall i | 0 < i < |s| ensures s[i] != '+' && !('a' <= s[i] <= 'z') && !('A' <= s[i] <= 'Z') {
        if |s| >= 1 && s[0] == '+' {
          assert s[i] == s[1..][i - 1];
          assert IsPhoneChar(s[1..][i - 1]);
        } else {
          assert IsPhoneChar(s[i]);
        }
      }
    }
    assert "+"[0] == '+' && !IsPhoneChar("+"[0]) && "+"[1..] == "";
  }
}
