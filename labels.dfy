/**
 * The label table: `load_labels` in app.py reads `labels.txt` line by line,
 * strips every line and keeps, in order, the lines that are not blank once
 * stripped. Opening the file is I/O; here the file is given as its sequence of
 * lines, or as None when it does not exist.
 */
module Labels {
  import opened Wrappers

  /** The characters Python's `str.strip()` removes: those for which `str.isspace()` holds. */
  predicate IsSpace(c: char) {
    ('\t' <= c <= '\r') || ('\U{1C}' <= c <= ' ') || c == '\U{85}' || c == '\U{A0}'
    || c == '\U{1680}' || ('\U{2000}' <= c <= '\U{200A}') || c == '\U{2028}' || c == '\U{2029}'
    || c == '\U{202F}' || c == '\U{205F}' || c == '\U{3000}'
  }

  /** Neither the first nor the last character is white space. */
  predicate IsStripped(s: string) {
    s == [] || (!IsSpace(s[0]) && !IsSpace(s[|s| - 1]))
  }

  /** How many white-space characters `s.lstrip()` removes from the front of `s`. */
  function LeadingSpaces(s: string): (n: nat)
    ensures n <= |s|
    ensures forall i :: 0 <= i < n ==> IsSpace(s[i])
    ensures n < |s| ==> !IsSpace(s[n])
  {
    if s != [] && IsSpace(s[0]) then 1 + LeadingSpaces(s[1..]) else 0
  }

  /** How many white-space characters `s.rstrip()` removes from the back of `s`. */
  function TrailingSpaces(s: string): (n: nat)
    ensures n <= |s|
    ensures forall i :: |s| - n <= i < |s| ==> IsSpace(s[i])
    ensures n < |s| ==> !IsSpace(s[|s| - n - 1])
  {
    if s != [] && IsSpace(s[|s| - 1]) then 1 + TrailingSpaces(s[..|s| - 1]) else 0
  }

  /**
   * `s.strip()`: the slice of `s` that starts after its leading white space, where
   * everything cut off at the back is white space too, and that neither starts nor
   * ends with white space.
   */
  function Strip(s: string): (r: string)
    ensures IsStripped(r)
    ensures LeadingSpaces(s) + |r| <= |s| && r == s[LeadingSpaces(s)..LeadingSpaces(s) + |r|]
    ensures forall i :: LeadingSpaces(s) + |r| <= i < |s| ==> IsSpace(s[i])
  {
    var lo := LeadingSpaces(s);
    var t := s[lo..];
    var r := t[..|t| - TrailingSpaces(t)];
    assert forall i :: lo + |r| <= i < |s| ==> IsSpace(s[i]) by {
      forall i | lo + |r| <= i < |s| ensures IsSpace(s[i]) {
        assert s[i] == t[i - lo];
      }
    }
    r
  }

  /** A line consisting only of white space strips to the empty string, and only such a line. */
  lemma StripEmptyIffBlank(s: string)
    ensures Strip(s) == [] <==> forall i :: 0 <= i < |s| ==> IsSpace(s[i])
  {
    var r := Strip(s);
    var lo := LeadingSpaces(s);
    if r != [] {
      assert s[lo] == r[0];
    }
  }

  /** Stripping twice is stripping once. */
  lemma StripIdempotent(s: string)
    ensures Strip(Strip(s)) == Strip(s)
  {
    var r := Strip(s);
    assert LeadingSpaces(r) == 0;
    assert r[0..] == r;
    assert TrailingSpaces(r) == 0;
  }

  /** The body of the list comprehension `[x.strip() for x in f if x.strip()]`. */
  function ParseLabels(lines: seq<string>): (labels: seq<string>)
    ensures |labels| <= |lines|
    ensures forall k :: 0 <= k < |labels| ==> labels[k] != [] && IsStripped(labels[k])
  {
    if lines == [] then []
    else
      var rest := ParseLabels(lines[1..]);
      if Strip(lines[0]) != [] then [Strip(lines[0])] + rest else rest
  }

  /** `load_labels()`: None when the label file does not exist, the parsed table otherwise. */
  function LoadLabels(file: Option<seq<string>>): (labels: Option<seq<string>>)
    ensures labels.None? <==> file.None?
    ensures labels.Some? ==> AllNonEmpty(labels.value) && |labels.value| <= |file.value|
  {
    match file
    case None => None
    case Some(lines) => Some(ParseLabels(lines))
  }

  predicate AllNonEmpty(labels: seq<string>) {
    forall k :: 0 <= k < |labels| ==> labels[k] != []
  }

  /** One line contributes its stripped text, or nothing when it is blank. */
  lemma ParseOneLine(line: string)
    ensures ParseLabels([line]) == if Strip(line) == [] then [] else [Strip(line)]
  {
    assert [line][1..] == [];
  }

  /** Order is kept: the labels of a concatenation are the concatenation of the labels. */
  lemma {:induction false} ParseLabelsAppend(a: seq<string>, b: seq<string>)
    ensures ParseLabels(a + b) == ParseLabels(a) + ParseLabels(b)
  {
    if a == [] {
      assert a + b == b;
    } else {
      assert (a + b)[0] == a[0];
      assert (a + b)[1..] == a[1..] + b;
      ParseLabelsAppend(a[1..], b);
    }
  }

  /** A label is in the table exactly when it is the non-empty stripped text of some line. */
  lemma {:induction false} ParseLabelsMembers(lines: seq<string>, x: string)
    ensures x in ParseLabels(lines) <==> x != [] && exists i :: 0 <= i < |lines| && Strip(lines[i]) == x
  {
    if lines != [] {
      ParseLabelsMembers(lines[1..], x);
      if x != [] && (exists i :: 0 <= i < |lines| && Strip(lines[i]) == x) {
        var i :| 0 <= i < |lines| && Strip(lines[i]) == x;
        if i > 0 {
          assert Strip(lines[1..][i - 1]) == x;
        }
      }
      if exists i :: 0 <= i < |lines[1..]| && Strip(lines[1..][i]) == x {
        var i :| 0 <= i < |lines[1..]| && Strip(lines[1..][i]) == x;
        assert Strip(lines[i + 1]) == x;
      }
    }
  }
}
