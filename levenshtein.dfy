/** Levenshtein distance: a recursive reference definition, the properties the
    similarity score depends on, and the dynamic-programming table of
    `calculateLevenshteinDistance` proved equal to it. */
module Levenshtein {

  function Min3(x: nat, y: nat, z: nat): (m: nat)
    ensures m <= x && m <= y && m <= z
    ensures m == x || m == y || m == z
  {
    if x <= y && x <= z then x else if y <= z then y else z
  }

  function Max(x: nat, y: nat): nat {
    if x >= y then x else y
  }

  function DropLast(s: string): string
    requires |s| > 0
  {
    s[..|s| - 1]
  }

  /** The least number of single-character insertions, deletions and
      substitutions that turn `a` into `b`, by recursion on the last characters. */
  function EditDistance(a: string, b: string): nat
    decreases |a| + |b|
  {
    if |a| == 0 then |b|
    else if |b| == 0 then |a|
    else
      var cost := if a[|a| - 1] == b[|b| - 1] then 0 else 1;
      Min3(EditDistance(DropLast(a), DropLast(b)) + cost,
           EditDistance(DropLast(a), b) + 1,
           EditDistance(a, DropLast(b)) + 1)
  }

  lemma {:induction false} Symmetric(a: string, b: string)
    ensures EditDistance(a, b) == EditDistance(b, a)
    decreases |a| + |b|
  {
    if |a| > 0 && |b| > 0 {
      Symmetric(DropLast(a), DropLast(b));
      Symmetric(DropLast(a), b);
      Symmetric(a, DropLast(b));
    }
  }

  /** One more character at the end of the left string costs at most one edit. */
  lemma AppendLeft(x: string, z: string)
    requires |x| > 0
    ensures EditDistance(x, z) <= EditDistance(DropLast(x), z) + 1
  {
  }

  /** Removing the last character of the right string costs at most one edit. */
  lemma {:induction false} DropLastRight(x: string, y: string)
    requires |y| > 0
    ensures EditDistance(x, DropLast(y)) <= EditDistance(x, y) + 1
    decreases |x|
  {
    if |x| > 0 {
      var d := EditDistance(x, y);
      if d == EditDistance(DropLast(x), y) + 1 {
        DropLastRight(DropLast(x), y);
        AppendLeft(x, DropLast(y));
      } else if d == EditDistance(x, DropLast(y)) + 1 {
      } else {
        AppendLeft(x, DropLast(y));
      }
    }
  }

  lemma DropLastLeft(x: string, y: string)
    requires |x| > 0
    ensures EditDistance(DropLast(x), y) <= EditDistance(x, y) + 1
  {
    Symmetric(DropLast(x), y);
    Symmetric(x, y);
    DropLastRight(y, x);
  }

  /** Equal last characters can be matched for free: this is the shortcut the
      table takes when `b[i - 1] == a[j - 1]`. */
  lemma MatchingLastChars(x: string, y: string)
    requires |x| > 0 && |y| > 0 && x[|x| - 1] == y[|y| - 1]
    ensures EditDistance(x, y) == EditDistance(DropLast(x), DropLast(y))
  {
    DropLastRight(DropLast(x), y);
    DropLastLeft(x, DropLast(y));
  }

  /** The distance never exceeds the longer length, so `1 - d / maxLength` lies in [0, 1]. */
  lemma {:induction false} UpperBound(a: string, b: string)
    ensures EditDistance(a, b) <= Max(|a|, |b|)
    decreases |a| + |b|
  {
    if |a| > 0 && |b| > 0 {
      UpperBound(DropLast(a), DropLast(b));
    }
  }

  /** The distance is zero exactly for equal strings. */
  lemma {:induction false} ZeroIff(a: string, b: string)
    ensures EditDistance(a, b) == 0 <==> a == b
    decreases |a| + |b|
  {
    if |a| > 0 && |b| > 0 {
      ZeroIff(DropLast(a), DropLast(b));
      if a == b {
        MatchingLastChars(a, b);
      }
    }
  }

  /** The value the table holds for `i` characters of `b` against `j` characters of `a`. */
  ghost function Cell(a: string, b: string, i: nat, j: nat): nat
    requires i <= |b| && j <= |a|
  {
    EditDistance(a[..j], b[..i])
  }

  /** One cell of the table from its three neighbours; equal characters take
      the diagonal unchanged. */
  lemma DpStep(a: string, b: string, i: nat, j: nat)
    requires 0 < i <= |b| && 0 < j <= |a|
    ensures Cell(a, b, i, j) ==
      if b[i - 1] == a[j - 1] then Cell(a, b, i - 1, j - 1)
      else Min3(Cell(a, b, i - 1, j - 1) + 1, Cell(a, b, i, j - 1) + 1, Cell(a, b, i - 1, j) + 1)
  {
    assert DropLast(a[..j]) == a[..j - 1];
    assert DropLast(b[..i]) == b[..i - 1];
    if b[i - 1] == a[j - 1] {
      MatchingLastChars(a[..j], b[..i]);
    }
  }

  /** Row `r` of the table is complete. */
  ghost predicate RowDone(matrix: array2<nat>, a: string, b: string, r: nat)
    requires r < matrix.Length0 == |b| + 1 && matrix.Length1 == |a| + 1
    reads matrix
  {
    forall j' :: 0 <= j' <= |a| ==> matrix[r, j'] == Cell(a, b, r, j')
  }

  /** Fills row `i` (for `i >= 1`) of the table from row `i - 1`, leaving the
      first column of the later rows as it was. */
  method FillRow(matrix: array2<nat>, a: string, b: string, i: nat)
    requires matrix.Length0 == |b| + 1 && matrix.Length1 == |a| + 1
    requires 0 < i <= |b|
    requires RowDone(matrix, a, b, i - 1)
    requires forall i' :: i <= i' <= |b| ==> matrix[i', 0] == i'
    modifies matrix
    ensures RowDone(matrix, a, b, i)
    ensures forall i' :: i < i' <= |b| ==> matrix[i', 0] == i'
  {
    var p := i - 1;
    assert matrix[i, 0] == Cell(a, b, i, 0);
    var j := 1;
    while j <= |a|
      invariant 1 <= j <= |a| + 1
      invariant forall j' :: 0 <= j' < j ==> matrix[i, j'] == Cell(a, b, i, j')
      invariant RowDone(matrix, a, b, p)
      invariant forall i' :: i < i' <= |b| ==> matrix[i', 0] == i'
    {
      DpStep(a, b, i, j);
      var diagonal, left, up := matrix[p, j - 1], matrix[i, j - 1], matrix[p, j];
      if b[i - 1] == a[j - 1] {
        matrix[i, j] := diagonal;
      } else {
        matrix[i, j] := Min3(diagonal + 1, left + 1, up + 1);
      }
      j := j + 1;
    }
  }

  /** `calculateLevenshteinDistance(a, b)`: fills a (|b| + 1) x (|a| + 1) table
      row by row and returns its last cell. */
  method LevenshteinDistance(a: string, b: string) returns (distance: nat)
    ensures distance == EditDistance(a, b)
  {
    var matrix := new nat[|b| + 1, |a| + 1];
    var i := 0;
    while i <= |b|
      invariant 0 <= i <= |b| + 1
      invariant forall i' :: 0 <= i' < i ==> matrix[i', 0] == i'
    {
      matrix[i, 0] := i;
      i := i + 1;
    }
    var j := 0;
    while j <= |a|
      invariant 0 <= j <= |a| + 1
      invariant forall i' :: 0 < i' <= |b| ==> matrix[i', 0] == i'
      invariant forall j' :: 0 <= j' < j ==> matrix[0, j'] == j'
    {
      matrix[0, j] := j;
      j := j + 1;
    }
    assert RowDone(matrix, a, b, 0);
    i := 1;
    while i <= |b|
      invariant 1 <= i <= |b| + 1
      invariant RowDone(matrix, a, b, i - 1)
      invariant forall i' :: i <= i' <= |b| ==> matrix[i', 0] == i'
    {
      FillRow(matrix, a, b, i);
      i := i + 1;
    }
    assert matrix[|b|, |a|] == Cell(a, b, |b|, |a|);
    assert a[..|a|] == a && b[..|b|] == b;
    distance := matrix[|b|, |a|];
  }
}
