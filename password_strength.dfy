/*
 * The password-strength meter of the login/signup card
 * (src/components/MainFeature.jsx): the scorer that turns a password into a
 * strength 0..5 and a label, the improvement suggestions shown under a weak
 * password, and the colour of the strength bar.
 *
 * Every regular expression of the source is an ASCII character test here:
 * `[0-9]` and `\d` are IsDigit, `[A-Z]` IsUpper, `[a-z]` IsLower and
 * `[^A-Za-z0-9]` IsSymbol.  An unanchored `.test` is "some character is in
 * the class"; the two anchored weak patterns are "one non-empty run, then the
 * other, and nothing else".
 */
module PasswordStrength {

  // ---------------------------------------------------------------------------
  // Character classes and the regular expressions built on them

  predicate IsDigit(c: char) { '0' <= c <= '9' }
  predicate IsUpper(c: char) { 'A' <= c <= 'Z' }
  predicate IsLower(c: char) { 'a' <= c <= 'z' }
  predicate IsLetter(c: char) { IsUpper(c) || IsLower(c) }
  /** `[^A-Za-z0-9]`: anything that is neither an ASCII letter nor a digit */
  predicate IsSymbol(c: char) { !IsLetter(c) && !IsDigit(c) }

  /** `/[0-9]/.test(s)` */
  predicate HasDigit(s: string) { exists i | 0 <= i < |s| :: IsDigit(s[i]) }
  /** `/[A-Z]/.test(s)` */
  predicate HasUpper(s: string) { exists i | 0 <= i < |s| :: IsUpper(s[i]) }
  /** `/[a-z]/.test(s)` */
  predicate HasLower(s: string) { exists i | 0 <= i < |s| :: IsLower(s[i]) }
  /** `/[^A-Za-z0-9]/.test(s)` */
  predicate HasSymbol(s: string) { exists i | 0 <= i < |s| :: IsSymbol(s[i]) }

  predicate AllLetters(s: string) { forall i | 0 <= i < |s| :: IsLetter(s[i]) }
  predicate AllDigits(s: string) { forall i | 0 <= i < |s| :: IsDigit(s[i]) }

  /** `/^[a-zA-Z]+\d+$/.test(s)`: a non-empty run of letters, then a non-empty run of digits */
  predicate LettersThenDigits(s: string) {
    exists k | 1 <= k < |s| :: AllLetters(s[..k]) && AllDigits(s[k..])
  }

  /** `/^\d+[a-zA-Z]+$/.test(s)`: a non-empty run of digits, then a non-empty run of letters */
  predicate DigitsThenLetters(s: string) {
    exists k | 1 <= k < |s| :: AllDigits(s[..k]) && AllLetters(s[k..])
  }

  /** The "common weak pattern" test that costs a password strength. */
  predicate IsWeakPattern(s: string) { LettersThenDigits(s) || DigitsThenLetters(s) }

  // ---------------------------------------------------------------------------
  // The score

  /** The highest strength the meter can show, and the labels indexed by strength. */
  const MaxStrength: int := 5
  const Labels: seq<string> := ["Very weak", "Weak", "Fair", "Good", "Strong", "Very strong"]

  /** How many times the source subtracts the weak-pattern penalty: once on
      the line after the additive checks and once more after the first
      (duplicate) normalisation, before the clamp that is actually used. */
  const PenaltyAsWritten: nat := 2

  function Indicator(b: bool): nat { if b then 1 else 0 }

  /** Points for length alone: one at 8 characters, a second at 12. */
  function LengthPoints(n: nat): (r: nat)
    ensures n < 8 ==> r == 0
    ensures 8 <= n < 12 ==> r == 1
    ensures 12 <= n ==> r == 2
  {
    Indicator(n >= 8) + Indicator(n >= 12)
  }

  /** The unclamped total: additive checks minus the weak-pattern penalty,
      taken `penalties` times. */
  function RawScore(password: string, penalties: nat): int {
    LengthPoints(|password|) + Indicator(HasDigit(password)) + Indicator(HasSymbol(password))
      - penalties * Indicator(IsWeakPattern(password))
  }

  /** `Math.max(0, Math.min(5, x))` */
  function Clamp(x: int): (r: int)
    ensures 0 <= r <= MaxStrength
    ensures 0 <= x <= MaxStrength ==> r == x
    ensures x < 0 ==> r == 0
    ensures MaxStrength < x ==> r == MaxStrength
  {
    if x < 0 then 0 else if x > MaxStrength then MaxStrength else x
  }

  /** The strength of `password` when the weak-pattern penalty is applied
      `penalties` times; the meter shows Score(password, PenaltyAsWritten). */
  function Score(password: string, penalties: nat): (r: int)
    ensures 0 <= r <= MaxStrength
    ensures r < |Labels|
  {
    Clamp(RawScore(password, penalties))
  }

  /**
   * The password-strength effect: an empty password resets the meter to
   * strength 0 with no message; otherwise a running total is built check by
   * check, the weak-pattern penalty is subtracted twice, and the clamped
   * total selects the label.
   */
  method CalculateStrength(password: string) returns (strength: int, message: string)
    ensures strength == Score(password, PenaltyAsWritten)
    ensures 0 <= strength <= MaxStrength
    ensures password == "" ==> strength == 0 && message == ""
    ensures password != "" ==> message == Labels[strength]
  {
    if password == "" {
      return 0, "";
    }
    var total := 0;
    if |password| >= 8 { total := total + 1; }
    if |password| >= 12 { total := total + 1; }
    if HasDigit(password) { total := total + 1; }
    if HasSymbol(password) { total := total + 1; }
    if IsWeakPattern(password) { total := total - 1; }
    if IsWeakPattern(password) { total := total - 1; }
    strength := if total < 0 then 0 else if total > MaxStrength then MaxStrength else total;
    message := Labels[strength];
  }

  // ---------------------------------------------------------------------------
  // Properties of the score

  /** The empty password scores 0, whatever the penalty. */
  lemma EmptyPasswordScoresZero(penalties: nat)
    ensures Score("", penalties) == 0
  {
  }

  /** The additive checks give at most 4 points, so "Very strong" (5) can never be shown. */
  lemma VeryStrongUnreachable(password: string, penalties: nat)
    ensures RawScore(password, penalties) <= 4
    ensures Score(password, penalties) <= 4
    ensures Score(password, penalties) != MaxStrength
  {
  }

  /** A password matching a weak pattern has a digit and no symbol. */
  lemma {:induction false} WeakPatternHasDigitNoSymbol(s: string)
    requires IsWeakPattern(s)
    ensures HasDigit(s) && !HasSymbol(s)
  {
    if LettersThenDigits(s) {
      var k :| 1 <= k < |s| && AllLetters(s[..k]) && AllDigits(s[k..]);
      forall i | 0 <= i < |s| ensures !IsSymbol(s[i]) {
        if i < k { assert s[..k][i] == s[i]; } else { assert s[k..][i - k] == s[i]; }
      }
      assert s[k..][0] == s[k];
    } else {
      var k :| 1 <= k < |s| && AllDigits(s[..k]) && AllLetters(s[k..]);
      forall i | 0 <= i < |s| ensures !IsSymbol(s[i]) {
        if i < k { assert s[..k][i] == s[i]; } else { assert s[k..][i - k] == s[i]; }
      }
      assert s[..k][0] == s[0];
    }
  }

  /** A password that contains a symbol cannot match either weak pattern. */
  lemma SymbolDefeatsWeakPattern(s: string)
    requires HasSymbol(s)
    ensures !IsWeakPattern(s)
  {
    if IsWeakPattern(s) {
      WeakPatternHasDigitNoSymbol(s);
    }
  }

  /** A weak-pattern password scores at most 1 with the penalty applied twice
      (as written), and at most 2 with it applied once. */
  lemma WeakPatternScoreBound(s: string)
    requires IsWeakPattern(s)
    ensures Score(s, PenaltyAsWritten) <= 1
    ensures Score(s, 1) <= 2
    ensures Score(s, 1) == Clamp(LengthPoints(|s|))
    ensures Score(s, PenaltyAsWritten) == Clamp(LengthPoints(|s|) - 1)
  {
    WeakPatternHasDigitNoSymbol(s);
  }

  /** Worked examples: eight lower-case letters are "Weak"; a 12-character
      mix of letters, digits and symbols is "Strong"; the 11-character
      letters-then-digits "abc12345678" scores 1 with a single penalty and 0
      with the penalty applied twice. */
  lemma ScoreExamples()
    ensures Score("abcdefgh", PenaltyAsWritten) == 1 && Labels[1] == "Weak"
    ensures Score("Ab3!Ab3!Ab3!", PenaltyAsWritten) == 4 && Labels[4] == "Strong"
    ensures Score("abc12345678", 1) == 1
    ensures Score("abc12345678", PenaltyAsWritten) == 0
  {
    var weak := "abcdefgh";
    assert !HasDigit(weak) && !HasSymbol(weak) by {
      forall i | 0 <= i < |weak| ensures IsLower(weak[i]) { }
    }
    assert !IsWeakPattern(weak) by {
      if HasDigit(weak) || HasSymbol(weak) { }
      else if IsWeakPattern(weak) { WeakPatternHasDigitNoSymbol(weak); }
    }
    var strong := "Ab3!Ab3!Ab3!";
    assert IsDigit(strong[2]) && IsSymbol(strong[3]);
    SymbolDefeatsWeakPattern(strong);
    var mixed := "abc12345678";
    assert LettersThenDigits(mixed) by {
      assert AllLetters(mixed[..3]) && AllDigits(mixed[3..]);
    }
    WeakPatternScoreBound(mixed);
  }

  // ---------------------------------------------------------------------------
  // Improvement suggestions

  const SuggestLength: string := "Make it at least 8 characters long"
  const SuggestUpper: string := "Add uppercase letters"
  const SuggestLower: string := "Add lowercase letters"
  const SuggestDigit: string := "Add numbers"
  const SuggestSymbol: string := "Add special characters (e.g., !@#$%^&*)"

  /** The five suggestions, in the order the list shows them. */
  const AllSuggestions: seq<string> := [SuggestLength, SuggestUpper, SuggestLower, SuggestDigit, SuggestSymbol]

  /** Check number `k` of the list (in display order) fails for `password`. */
  predicate CheckFails(password: string, k: nat)
    requires k < |AllSuggestions|
  {
    if k == 0 then |password| < 8
    else if k == 1 then !HasUpper(password)
    else if k == 2 then !HasLower(password)
    else if k == 3 then !HasDigit(password)
    else !HasSymbol(password)
  }

  /** The position of a suggestion in the display order. */
  function Rank(suggestion: string): (k: nat)
    requires suggestion in AllSuggestions
    ensures k < |AllSuggestions| && AllSuggestions[k] == suggestion
  {
    if suggestion == SuggestLength then 0
    else if suggestion == SuggestUpper then 1
    else if suggestion == SuggestLower then 2
    else if suggestion == SuggestDigit then 3
    else 4
  }

  /**
   * The suggestions listed under a weak password: one per failing check,
   * and nothing else, in the fixed display order.
   */
  function Suggestions(password: string): (r: seq<string>)
    ensures forall k | 0 <= k < |AllSuggestions| :: AllSuggestions[k] in r <==> CheckFails(password, k)
    ensures forall i | 0 <= i < |r| :: r[i] in AllSuggestions
    ensures forall i, j | 0 <= i < j < |r| :: Rank(r[i]) < Rank(r[j])
  {
    (if |password| < 8 then [SuggestLength] else [])
    + (if !HasUpper(password) then [SuggestUpper] else [])
    + (if !HasLower(password) then [SuggestLower] else [])
    + (if !HasDigit(password) then [SuggestDigit] else [])
    + (if !HasSymbol(password) then [SuggestSymbol] else [])
  }

  /** The suggestion box is shown for a non-empty password of strength below 3. */
  predicate SuggestionsShown(password: string, strength: int) {
    strength < 3 && |password| > 0
  }

  /** Whenever the box is shown, it lists at least one suggestion: a password
      that passes all five checks already scores 3 or more. */
  lemma {:induction false} ShownSuggestionsNonEmpty(password: string, penalties: nat)
    requires SuggestionsShown(password, Score(password, penalties))
    ensures Suggestions(password) != []
  {
    if Suggestions(password) == [] {
      assert !CheckFails(password, 0) && !CheckFails(password, 3) && !CheckFails(password, 4);
      SymbolDefeatsWeakPattern(password);
      assert false;
    }
  }

  // ---------------------------------------------------------------------------
  // Strength bar colour

  const StrengthColors: seq<string> := ["bg-red-500", "bg-orange-500", "bg-yellow-500", "bg-blue-500", "bg-green-500", "bg-green-600"]
  const FallbackColor: string := "bg-gray-300"

  /** `colors[passwordStrength] || 'bg-gray-300'`: the colour at the strength's
      index, or grey when the index is outside the table. */
  function StrengthColor(strength: int): string {
    if 0 <= strength < |StrengthColors| then StrengthColors[strength] else FallbackColor
  }

  /** Every score has a colour of its own: the bar is never grey, and never the
      "Very strong" green, since that strength is unreachable. */
  lemma ScoreColor(password: string, penalties: nat)
    ensures StrengthColor(Score(password, penalties)) in StrengthColors[..5]
    ensures StrengthColor(Score(password, penalties)) != FallbackColor
  {
    VeryStrongUnreachable(password, penalties);
  }
}
