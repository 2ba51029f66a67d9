/**
 * The amount normaliser the three amount forms apply to every keystroke:
 * drop every character but digits and '.', merge everything after the first
 * '.' into one fraction when there are several, and cut a single fraction to
 * two characters.
 */
module AmountFormat {
  import opened Common
  import opened JsString

  predicate IsAmountChar(c: char) {
    IsDigit(c) || c == '.'
  }

  predicate AllDigits(s: string) {
    forall i :: 0 <= i < |s| ==> IsDigit(s[i])
  }

  predicate AmountChars(s: string) {
    forall i :: 0 <= i < |s| ==> IsAmountChar(s[i])
  }

  predicate AtMostOneDot(s: string) {
    forall i, j :: 0 <= i < j < |s| && s[i] == '.' ==> s[j] != '.'
  }

  /** At most two characters follow a '.'. */
  predicate FractionAtMost2(s: string) {
    forall i :: 0 <= i < |s| && s[i] == '.' ==> |s| - 1 - i <= 2
  }

  /** What `formatCurrency` as written leaves in a field: digits and at most one '.'. */
  predicate NormalisedAmount(s: string) {
    AmountChars(s) && AtMostOneDot(s)
  }

  /** Text of the intended shape: digits, at most one '.', at most two fraction digits. */
  predicate WellFormedAmount(s: string) {
    AmountChars(s) && AtMostOneDot(s) && FractionAtMost2(s)
  }

  /** `value.replace(/[^0-9.]/g, "")`. */
  function Cleaned(value: string): (r: string)
    ensures AmountChars(r)
    ensures |r| <= |value|
  {
    Filter(value, IsAmountChar)
  }

  /** `parts.join("")`. */
  function Concat(parts: seq<string>): (r: string)
    ensures (forall k :: 0 <= k < |parts| ==> AllDigits(parts[k])) ==> AllDigits(r)
  {
    if |parts| == 0 then "" else parts[0] + Concat(parts[1..])
  }

  /** `formatCurrency` as written: with several '.', everything after the
      first is merged into the fraction without a length limit; with one '.',
      the fraction is cut to two characters. */
  function FormatCurrency(value: string): (r: string)
    ensures NormalisedAmount(r)
  {
    var cleaned := Cleaned(value);
    var parts := Split(cleaned, '.');
    SplitPiecesAreDigits(cleaned);
    if |parts| > 2 then
      DigitsDotDigits(parts[0], Concat(parts[1..]));
      parts[0] + "." + Concat(parts[1..])
    else if |parts| == 2 && |parts[1]| > 2 then
      DigitsDotDigits(parts[0], parts[1][..2]);
      parts[0] + "." + parts[1][..2]
    else
      SplitShape(cleaned);
      cleaned
  }

  /** The normaliser with the evidently intended rule: the merged fraction is
      also cut to two characters. */
  function FormatCurrencyFixed(value: string): (r: string)
    ensures WellFormedAmount(r)
  {
    var cleaned := Cleaned(value);
    var parts := Split(cleaned, '.');
    SplitPiecesAreDigits(cleaned);
    if |parts| >= 2 then
      var fraction := Concat(parts[1..]);
      var kept := if |fraction| > 2 then fraction[..2] else fraction;
      DigitsDotDigits(parts[0], kept);
      parts[0] + "." + kept
    else
      SplitShape(cleaned);
      cleaned
  }

  /** The pieces of a split of digits and '.' on '.' are digits only. */
  lemma {:induction false} SplitPiecesAreDigits(s: string)
    requires AmountChars(s)
    ensures forall k :: 0 <= k < |Split(s, '.')| ==> AllDigits(Split(s, '.')[k])
    decreases |s|
  {
    if |s| > 0 {
      SplitPiecesAreDigits(s[1..]);
    }
  }

  /** A split into one piece means no separator; into two, exactly one. */
  lemma SplitShape(s: string)
    requires AmountChars(s)
    ensures |Split(s, '.')| == 1 ==> AllDigits(s)
    ensures |Split(s, '.')| == 2 ==> AtMostOneDot(s) && FractionAtMost2(s) == (|Split(s, '.')[1]| <= 2)
  {
    var parts := Split(s, '.');
    JoinSplit(s, '.');
    SplitPiecesAreDigits(s);
    if |parts| == 2 {
      assert s == parts[0] + "." + parts[1];
      DigitsDotDigits(parts[0], parts[1]);
    }
  }

  /** `a + "." + f` with digit-only `a` and `f` has one '.', followed by `|f|`
      characters. */
  lemma DigitsDotDigits(a: string, f: string)
    requires AllDigits(a) && AllDigits(f)
    ensures AmountChars(a + "." + f) && AtMostOneDot(a + "." + f)
    ensures FractionAtMost2(a + "." + f) <==> |f| <= 2
  {
    var s := a + "." + f;
    assert s[|a|] == '.';
    assert forall i :: 0 <= i < |a| ==> s[i] == a[i];
    assert forall i :: |a| < i < |s| ==> s[i] == f[i - |a| - 1];
  }

  /** Text with a single '.' at `i` splits into what precedes and what follows it. */
  lemma SplitAtOnlyDot(s: string, i: nat)
    requires AtMostOneDot(s) && i < |s| && s[i] == '.'
    ensures '.' !in s[..i] && '.' !in s[i + 1..]
    ensures Split(s, '.') == [s[..i], s[i + 1..]]
  {
    var a, b := s[..i], s[i + 1..];
    assert s == a + "." + b;
    assert forall j :: 0 <= j < |a| ==> a[j] == s[j];
    assert forall j :: 0 <= j < |b| ==> b[j] == s[i + 1 + j];
    SplitAfterFirst(a, '.', b);
    SplitNoSeparator(b, '.');
  }

  /** Text that already has the form's shape is left as it is (as written). */
  lemma WellFormedUnchanged(s: string)
    requires WellFormedAmount(s)
    ensures FormatCurrency(s) == s
  {
    FilterAll(s, IsAmountChar);
    if '.' in s {
      var i :| 0 <= i < |s| && s[i] == '.';
      SplitAtOnlyDot(s, i);
    } else {
      SplitNoSeparator(s, '.');
    }
  }

  /** With a single '.' followed by more than two characters, the value is cut
      two characters after the '.'. */
  lemma OneDotKeepsFirstTwo(value: string, i: nat)
    requires i < |Cleaned(value)| && Cleaned(value)[i] == '.'
    requires AtMostOneDot(Cleaned(value)) && |Cleaned(value)| > i + 3
    ensures FormatCurrency(value) == Cleaned(value)[..i + 3]
  {
    var c := Cleaned(value);
    SplitAtOnlyDot(c, i);
    assert c[..i] + "." + c[i + 1..][..2] == c[..i + 3];
  }

  /** The cleaned text comes back whole exactly when it has no '.', or at most
      two characters after its only '.'. */
  lemma KeptWholeIffWellFormed(value: string)
    ensures FormatCurrency(value) == Cleaned(value) <==> WellFormedAmount(Cleaned(value))
  {
    var c := Cleaned(value);
    if '.' !in c {
      SplitNoSeparator(c, '.');
      assert FractionAtMost2(c);
    } else if AtMostOneDot(c) {
      var i :| 0 <= i < |c| && c[i] == '.';
      SplitAtOnlyDot(c, i);
      assert FractionAtMost2(c) <==> |c| - 1 - i <= 2;
      if |c| - 1 - i > 2 {
        assert |FormatCurrency(value)| == i + 3 < |c|;
      }
    } else {
      assert !NormalisedAmount(c);
    }
  }

  /** Text that already has the form's shape is left as it is (corrected). */
  lemma WellFormedUnchangedFixed(s: string)
    requires WellFormedAmount(s)
    ensures FormatCurrencyFixed(s) == s
  {
    FilterAll(s, IsAmountChar);
    if '.' in s {
      var i :| 0 <= i < |s| && s[i] == '.';
      SplitAtOnlyDot(s, i);
    } else {
      SplitNoSeparator(s, '.');
    }
    FixedAgreesOnOneDot(s);
    WellFormedUnchanged(s);
  }

  /** The two normalisers agree on every input with at most one '.' after
      cleaning. */
  lemma FixedAgreesOnOneDot(value: string)
    requires |Split(Cleaned(value), '.')| <= 2
    ensures FormatCurrencyFixed(value) == FormatCurrency(value)
  {
    var parts := Split(Cleaned(value), '.');
    if |parts| == 2 {
      JoinSplit(Cleaned(value), '.');
      assert Concat(parts[1..]) == parts[1];
    }
  }

  /** The corrected normaliser is idempotent: reformatting changes nothing. */
  lemma FixedIdempotent(value: string)
    ensures FormatCurrencyFixed(FormatCurrencyFixed(value)) == FormatCurrencyFixed(value)
  {
    WellFormedUnchangedFixed(FormatCurrencyFixed(value));
  }

  lemma SplitExample()
    ensures Split("1.2.345", '.') == ["1", "2", "345"]
  {
    assert "1.2.345" == "1" + ['.'] + ("2" + ['.'] + "345");
    assert "2" + ['.'] + "345" == "2.345";
    SplitAfterFirst("2", '.', "345");
    SplitNoSeparator("345", '.');
    SplitAfterFirst("1", '.', "2.345");
  }

  /** With several '.', the pieces after the first are merged, whatever their length. */
  lemma SeveralDotsMerge(value: string)
    requires |Split(Cleaned(value), '.')| > 2
    ensures FormatCurrency(value) == Split(Cleaned(value), '.')[0] + "." + Concat(Split(Cleaned(value), '.')[1..])
  {
  }

  lemma CleanedExample()
    ensures Cleaned("1.2.345") == "1.2.345"
  {
    assert AmountChars("1.2.345");
    FilterAll("1.2.345", IsAmountChar);
  }

  lemma ConcatExample()
    ensures Concat(["2", "345"]) == "2345"
  {
  }

  /** As written, "1.2.345" becomes "1.2345": four fraction digits. */
  lemma SeveralDotsKeepLongFraction()
    ensures FormatCurrency("1.2.345") == "1.2345"
    ensures !FractionAtMost2(FormatCurrency("1.2.345"))
  {
    var value := "1.2.345";
    CleanedExample();
    SplitExample();
    var parts := Split(Cleaned(value), '.');
    assert parts == ["1", "2", "345"];
    SeveralDotsMerge(value);
    assert parts[1..] == ["2", "345"];
    ConcatExample();
    assert FormatCurrency(value) == "1" + "." + "2345";
    JoinedExample();
    LongFractionExample();
  }

  lemma JoinedExample()
    ensures "1" + "." + "2345" == "1.2345"
  {
  }

  lemma LongFractionExample()
    ensures !FractionAtMost2("1.2345")
  {
    assert "1.2345"[1] == '.';
  }
}
