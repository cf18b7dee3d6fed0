/**
 * NormalizeIndexAndColumn: an index name the engine reports with a trailing
 * prefix length, such as `idx_name(10)`, is split into the bare index name and
 * a column reference `column(10)`. The pattern `^(.+)\((\d+)\)$` is written
 * out as a split position in the index name.
 */
module IndexName {
  import opened Text

  /**
   * The pattern matches `s` with the opening parenthesis at `i`: a non-empty
   * prefix before it in which no character is a newline (RE2's `.`), a
   * non-empty run of ASCII digits after it, and a closing parenthesis last.
   */
  predicate SplitsAt(s: string, i: int) {
    0 < i && i + 2 < |s| && s[i] == '(' && s[|s| - 1] == ')'
    && AllDigits(s[i + 1..|s| - 1])
    && forall k :: 0 <= k < i ==> s[k] != '\n'
  }

  /** The pattern can split a string in at most one place, since the digits hold no '('. */
  lemma SplitIsUnique(s: string, i: int, j: int)
    requires SplitsAt(s, i) && SplitsAt(s, j)
    ensures i == j
  {
  }

  /** The greatest position below `j` whose character is not a digit, or -1. */
  function LastNonDigitBefore(s: string, j: nat): (k: int)
    requires j <= |s|
    ensures -1 <= k < j
    ensures k >= 0 ==> !IsDigit(s[k])
    ensures forall t :: k < t < j ==> IsDigit(s[t])
  {
    if j == 0 then -1
    else if !IsDigit(s[j - 1]) then j - 1
    else LastNonDigitBefore(s, j - 1)
  }

  /** Where the pattern splits `s`, if it matches at all. */
  function FindSplit(s: string): (r: int)
    ensures r >= 0 ==> SplitsAt(s, r)
    ensures r < 0 ==> forall i :: !SplitsAt(s, i)
  {
    if |s| < 4 || s[|s| - 1] != ')' then -1
    else
      var k := LastNonDigitBefore(s, |s| - 1);
      if SplitsAt(s, k) then k else -1
  }

  /** The normaliser: returns the index name and the column name to use. */
  function NormalizeIndexAndColumn(indexName: string, columnName: string): (r: (string, string))
    ensures forall i :: SplitsAt(indexName, i) ==>
      r == (indexName[..i], columnName + "(" + indexName[i + 1..|indexName| - 1] + ")")
    ensures (forall i :: !SplitsAt(indexName, i)) ==> r == (indexName, columnName)
  {
    var i := FindSplit(indexName);
    if i < 0 then (indexName, columnName)
    else
      assert forall j :: SplitsAt(indexName, j) ==> j == i by {
        forall j | SplitsAt(indexName, j) ensures j == i { SplitIsUnique(indexName, i, j); }
      }
      (indexName[..i], columnName + "(" + indexName[i + 1..|indexName| - 1] + ")")
  }

  /**
   * Stated on the pieces: an index name built as p + "(" + d + ")" normalises to p
   * and column + "(" + d + ")", and so the index name is rebuilt from the results.
   */
  lemma NormalizeComposed(p: string, d: string, columnName: string)
    requires p != [] && (forall k :: 0 <= k < |p| ==> p[k] != '\n')
    requires d != [] && AllDigits(d)
    ensures NormalizeIndexAndColumn(p + "(" + d + ")", columnName) == (p, columnName + "(" + d + ")")
  {
    var s := p + "(" + d + ")";
    assert s[..|p|] == p;
    assert s[|p| + 1..|s| - 1] == d;
    assert SplitsAt(s, |p|);
  }

  /** Every match is of that composed shape: the bare name and the digits rebuild the input. */
  lemma NormalizeRebuilds(indexName: string, columnName: string, i: int)
    requires SplitsAt(indexName, i)
    ensures var (idx, col) := NormalizeIndexAndColumn(indexName, columnName);
      var d := indexName[i + 1..|indexName| - 1];
      idx != [] && d != [] && AllDigits(d) && col == columnName + "(" + d + ")"
      && idx + "(" + d + ")" == indexName
  {
  }

  lemma NormalizeExamples()
    ensures NormalizeIndexAndColumn("idx_foo(10)", "col") == ("idx_foo", "col(10)")
    ensures NormalizeIndexAndColumn("idx_plain", "col") == ("idx_plain", "col")
  {
    NormalizeComposed("idx_foo", "10", "col");
    assert "idx_foo" + "(" + "10" + ")" == "idx_foo(10)";
    assert "col" + "(" + "10" + ")" == "col(10)";
    assert forall i :: !SplitsAt("idx_plain", i) by {
      assert "idx_plain"[|"idx_plain"| - 1] != ')';
    }
  }
}
