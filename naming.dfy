/**
 * Turning a predicted class index into the name that is shown and spoken
 * (app.py, the conditional expression used both for live frames and for a
 * still image): the label table's entry when the table is present, non-empty
 * and long enough, otherwise the synthetic name `class_<idx>` with the index
 * written in decimal, as Python's f-string writes a non-negative int.
 */
module Naming {
  import opened Wrappers
  import Labels

  /** The character of a decimal digit 0..9. */
  function DigitChar(d: nat): (c: char)
    requires d < 10
    ensures '0' <= c <= '9' && (c as int) - ('0' as int) == d
  {
    (('0' as int) + d) as char
  }

  /** The value of a digit character. */
  function DigitValue(c: char): int {
    (c as int) - ('0' as int)
  }

  /** The canonical decimal form: one or more digits, no leading zero unless the number is 0. */
  predicate IsDecimal(s: string) {
    |s| >= 1
    && (forall k :: 0 <= k < |s| ==> '0' <= s[k] <= '9')
    && (s[0] == '0' ==> |s| == 1)
  }

  /** The number a string of digits denotes, most significant digit first. */
  function DecimalValue(s: string): int {
    if s == [] then 0 else 10 * DecimalValue(s[..|s| - 1]) + DigitValue(s[|s| - 1])
  }

  /** `str(n)` for a non-negative int: its canonical decimal form. */
  function DecimalDigits(n: nat): (s: string)
    ensures IsDecimal(s)
  {
    if n < 10 then [DigitChar(n)] else DecimalDigits(n / 10) + [DigitChar(n % 10)]
  }

  /** Writing a number in decimal and reading it back gives the number. */
  lemma {:induction false} DecimalRoundTrip(n: nat)
    ensures DecimalValue(DecimalDigits(n)) == n
  {
    var s := DecimalDigits(n);
    if n >= 10 {
      DecimalRoundTrip(n / 10);
      assert s[..|s| - 1] == DecimalDigits(n / 10);
    }
  }

  /** A string of digits that does not start with 0 denotes a positive number. */
  lemma {:induction false} DecimalValuePositive(s: string)
    requires IsDecimal(s) && s[0] != '0'
    ensures DecimalValue(s) >= 1
  {
    if |s| > 1 {
      var p := s[..|s| - 1];
      assert p[0] == s[0];
      DecimalValuePositive(p);
    }
  }

  /** Every canonical decimal string is the decimal form of the number it denotes. */
  lemma {:induction false} DecimalCanonical(s: string)
    requires IsDecimal(s)
    ensures DecimalValue(s) >= 0 && DecimalDigits(DecimalValue(s)) == s
  {
    var v := DecimalValue(s);
    if |s| == 1 {
      assert s[..0] == [];
      assert [DigitChar(v)] == s;
    } else {
      var p := s[..|s| - 1];
      assert p[0] == s[0];
      DecimalValuePositive(p);
      DecimalCanonical(p);
      var d := DigitValue(s[|s| - 1]);
      assert v / 10 == DecimalValue(p) && v % 10 == d;
      assert DigitChar(d) == s[|s| - 1];
      assert s == p + [s[|s| - 1]];
    }
  }

  /** Different indices have different decimal forms. */
  lemma DecimalInjective(m: nat, n: nat)
    requires DecimalDigits(m) == DecimalDigits(n)
    ensures m == n
  {
    DecimalRoundTrip(m);
    DecimalRoundTrip(n);
  }

  const SyntheticPrefix: string := "class_"

  /** `name` is `class_` followed by the canonical decimal form of `idx`. */
  predicate IsSyntheticFor(name: string, idx: nat) {
    |name| > |SyntheticPrefix| && name[..|SyntheticPrefix|] == SyntheticPrefix
    && IsDecimal(name[|SyntheticPrefix|..]) && DecimalValue(name[|SyntheticPrefix|..]) == idx
  }

  /** The fallback name `f"class_{idx}"`: the prefix, then digits that read back as `idx`. */
  function SyntheticName(idx: nat): (name: string)
    ensures IsSyntheticFor(name, idx)
  {
    var name := SyntheticPrefix + DecimalDigits(idx);
    DecimalRoundTrip(idx);
    assert name[|SyntheticPrefix|..] == DecimalDigits(idx);
    name
  }

  /** Python's truthiness test `if labels`: a table that is present and non-empty. */
  predicate HasTable(labels: Option<seq<string>>) {
    labels.Some? && labels.value != []
  }

  /**
   * `labels[idx] if labels and idx < len(labels) else f"class_{idx}"`. The index comes
   * from an argmax and is never negative, so Python's negative indexing never applies.
   * The lookup is taken exactly when the index is in range of a present table; in
   * every other case the name is `class_` and the index in decimal, from which the
   * index can be read back.
   */
  function ResolveName(labels: Option<seq<string>>, idx: nat): (name: string)
    ensures labels.Some? && idx < |labels.value| ==> name == labels.value[idx]
    ensures !(labels.Some? && idx < |labels.value|) ==> IsSyntheticFor(name, idx)
  {
    if HasTable(labels) && idx < |labels.value| then labels.value[idx]
    else SyntheticName(idx)
  }

  /** An absent or empty table always falls back to the synthetic name. */
  lemma NoTableFallsBack(labels: Option<seq<string>>, idx: nat)
    requires !HasTable(labels)
    ensures ResolveName(labels, idx) == SyntheticName(idx)
  {
  }

  /** With a table read by `load_labels`, the resolved name is never empty. */
  lemma ResolvedNameNonEmpty(labels: Option<seq<string>>, idx: nat)
    requires labels.Some? ==> Labels.AllNonEmpty(labels.value)
    ensures ResolveName(labels, idx) != []
  {
  }

  /** Two indices that both fall back to synthetic names get the same name only if they are equal. */
  lemma SyntheticNamesDistinct(m: nat, n: nat)
    requires SyntheticName(m) == SyntheticName(n)
    ensures m == n
  {
    assert SyntheticName(m)[|SyntheticPrefix|..] == DecimalDigits(m);
    assert SyntheticName(n)[|SyntheticPrefix|..] == DecimalDigits(n);
    DecimalInjective(m, n);
  }
}
