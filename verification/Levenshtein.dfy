/** The edit distance behind the pronunciation score: its table, and what the number in it means. */
module Levenshtein {
  import opened Prelude

  /** Insertions, deletions and substitutions, looking at the last characters first. */
  function EditDistance(a: string, b: string): nat
    decreases |a| + |b|
  {
    if a == [] then |b|
    else if b == [] then |a|
    else
      var m, n := |a| - 1, |b| - 1;
      Least(EditDistance(a[..m], b) + 1, EditDistance(a, b[..n]) + 1,
            EditDistance(a[..m], b[..n]) + if a[m] == b[n] then 0 else 1)
  }

  function Least(x: nat, y: nat, z: nat): (r: nat)
    ensures r <= x && r <= y && r <= z
    ensures r == x || r == y || r == z
  {
    var w := if x < y then x else y;
    if w < z then w else z
  }

  // ----- The number means: the fewest edits that turn one string into the other

  datatype Edit = Keep | Substitute(c: char) | Insert(c: char) | Delete

  /** The string a script writes, when it consumes exactly `a`. */
  function Edited(script: seq<Edit>, a: string): Option<string>
    decreases |script|
  {
    if script == [] then (if a == [] then Some([]) else None)
    else
      var rest, last := script[..|script| - 1], script[|script| - 1];
      match last
      case Insert(c) => Followed(Edited(rest, a), [c])
      case Delete => if a == [] then None else Edited(rest, a[..|a| - 1])
      case Keep => if a == [] then None else Followed(Edited(rest, a[..|a| - 1]), [a[|a| - 1]])
      case Substitute(c) => if a == [] then None else Followed(Edited(rest, a[..|a| - 1]), [c])
  }

  function Followed(written: Option<string>, tail: string): Option<string> {
    match written
    case Some(s) => Some(s + tail)
    case None => None
  }

  /** Everything but keeping a character costs one. */
  function Cost(script: seq<Edit>): nat
    decreases |script|
  {
    if script == [] then 0
    else Cost(script[..|script| - 1]) + if script[|script| - 1] == Keep then 0 else 1
  }

  /** No script is cheaper. */
  lemma {:induction false} NoCheaperScript(script: seq<Edit>, a: string, b: string)
    requires Edited(script, a) == Some(b)
    ensures EditDistance(a, b) <= Cost(script)
    decreases |script|
  {
    if script != [] {
      var rest, last := script[..|script| - 1], script[|script| - 1];
      var before := if last.Insert? then a else a[..|a| - 1];
      var written := Edited(rest, before).value;
      NoCheaperScript(rest, before, written);
      assert last.Delete? || (b != [] && b[..|b| - 1] == written);
    }
  }

  lemma Appended(script: seq<Edit>, edit: Edit)
    ensures (script + [edit])[..|script|] == script && (script + [edit])[|script|] == edit
    ensures Cost(script + [edit]) == Cost(script) + if edit == Keep then 0 else 1
  {
    assert (script + [edit])[..|script|] == script;
  }

  /** Some script costs exactly this. */
  lemma {:induction false} CheapestScript(a: string, b: string) returns (script: seq<Edit>)
    ensures Edited(script, a) == Some(b) && Cost(script) == EditDistance(a, b)
    decreases |a| + |b|
  {
    if a == [] && b == [] { return []; }
    var m, n := |a| - 1, |b| - 1;
    if a == [] || (b != [] && EditDistance(a, b) == EditDistance(a, b[..n]) + 1) {
      var rest := CheapestScript(a, b[..n]);
      Appended(rest, Insert(b[n]));
      script := rest + [Insert(b[n])];
      assert b[..n] + [b[n]] == b;
    } else if b == [] || EditDistance(a, b) == EditDistance(a[..m], b) + 1 {
      var rest := CheapestScript(a[..m], b);
      Appended(rest, Delete);
      script := rest + [Delete];
    } else {
      var edit := if a[m] == b[n] then Keep else Substitute(b[n]);
      var rest := CheapestScript(a[..m], b[..n]);
      Appended(rest, edit);
      script := rest + [edit];
      assert b[..n] + [b[n]] == b;
    }
  }

  // ----- Its range

  lemma {:induction false} DistanceRange(a: string, b: string)
    ensures EditDistance(a, b) <= Max(|a|, |b|)
    ensures |a| - |b| <= EditDistance(a, b) && |b| - |a| <= EditDistance(a, b)
    ensures EditDistance(a, b) == 0 <==> a == b
    decreases |a| + |b|
  {
    if a != [] && b != [] {
      var m, n := |a| - 1, |b| - 1;
      DistanceRange(a[..m], b);
      DistanceRange(a, b[..n]);
      DistanceRange(a[..m], b[..n]);
      SameLast(a, b);
    }
  }

  lemma SameLast(a: string, b: string)
    requires a != [] && b != []
    ensures a == b <==> a[..|a| - 1] == b[..|b| - 1] && a[|a| - 1] == b[|b| - 1]
  {
    assert a == a[..|a| - 1] + [a[|a| - 1]] && b == b[..|b| - 1] + [b[|b| - 1]];
  }

  /** Changing the letters of a word in place costs no more than one edit for each. */
  lemma {:induction false} ChangedInPlace(a: string, b: string, changed: set<int>)
    requires |a| == |b| && forall i :: 0 <= i < |a| && a[i] != b[i] ==> i in changed
    ensures EditDistance(a, b) <= |changed|
    decreases |a|
  {
    if a != [] {
      var n := |a| - 1;
      if a[n] == b[n] {
        ChangedInPlace(a[..n], b[..n], changed);
      } else {
        ChangedInPlace(a[..n], b[..n], changed - {n});
      }
    }
  }

  /** Words without a common letter are as far apart as words of their lengths can be. */
  lemma {:induction false} NothingInCommon(a: string, b: string)
    requires forall c :: c in a ==> c !in b
    ensures EditDistance(a, b) == Max(|a|, |b|)
    decreases |a| + |b|
  {
    if a != [] && b != [] {
      var m, n := |a| - 1, |b| - 1;
      NothingInCommon(a[..m], b);
      NothingInCommon(a, b[..n]);
      NothingInCommon(a[..m], b[..n]);
      assert a[m] in a && b[n] in b;
    }
  }

  lemma {:induction false} Symmetric(a: string, b: string)
    ensures EditDistance(a, b) == EditDistance(b, a)
    decreases |a| + |b|
  {
    if a != [] && b != [] {
      var m, n := |a| - 1, |b| - 1;
      Symmetric(a[..m], b);
      Symmetric(a, b[..n]);
      Symmetric(a[..m], b[..n]);
    }
  }

  // ----- Similarity

  function Similarity(a: string, b: string): real {
    if a == b then 1.0
    else 1.0 - Ratio(EditDistance(a, b), Max(|a|, |b|))
  }

  function Ratio(d: nat, n: nat): (r: real)
    requires n != 0
    ensures r * n as real == d as real
  {
    d as real / n as real
  }

  lemma RatioOfParts(d: nat, n: nat)
    requires d <= n != 0
    ensures 0.0 <= Ratio(d, n) <= 1.0
    ensures Ratio(d, n) == 0.0 <==> d == 0
    ensures Ratio(d, n) == 1.0 <==> d == n
  {
  }

  /** From 0 to 1, and 1 for equal strings only; 0 exactly when every character has to change. */
  lemma SimilarityRange(a: string, b: string)
    ensures 0.0 <= Similarity(a, b) <= 1.0
    ensures Similarity(a, b) == 1.0 <==> a == b
    ensures a != b ==> (Similarity(a, b) == 0.0 <==> EditDistance(a, b) == Max(|a|, |b|))
    ensures Similarity(a, b) == Similarity(b, a)
  {
    DistanceRange(a, b);
    Symmetric(a, b);
    if a != b { RatioOfParts(EditDistance(a, b), Max(|a|, |b|)); }
  }

  lemma NextCell(a: string, b: string, i: nat, j: nat)
    requires 1 <= i <= |a| && 1 <= j <= |b|
    ensures EditDistance(a[..i], b[..j])
         == Least(EditDistance(a[..i - 1], b[..j]) + 1, EditDistance(a[..i], b[..j - 1]) + 1,
                  EditDistance(a[..i - 1], b[..j - 1]) + if a[i - 1] == b[j - 1] then 0 else 1)
  {
    assert a[..i][..i - 1] == a[..i - 1] && b[..j][..j - 1] == b[..j - 1];
  }

  ghost predicate RowFilled(matrix: array2<nat>, a: string, b: string, i: nat, end: nat)
    requires matrix.Length0 == |a| + 1 && matrix.Length1 == |b| + 1
    reads matrix
  {
    i <= |a| && end <= |b| + 1 && forall j :: 0 <= j < end ==> matrix[i, j] == EditDistance(a[..i], b[..j])
  }

  /** First column and first row. */
  method Borders(matrix: array2<nat>, a: string, b: string)
    requires matrix.Length0 == |a| + 1 && matrix.Length1 == |b| + 1
    modifies matrix
    ensures RowFilled(matrix, a, b, 0, |b| + 1)
    ensures forall i :: 0 <= i <= |a| ==> RowFilled(matrix, a, b, i, 1)
  {
    for i := 0 to |a| + 1
      invariant forall k :: 0 <= k < i ==> matrix[k, 0] == k
    {
      matrix[i, 0] := i;
    }
    for j := 0 to |b| + 1
      invariant forall k :: 0 <= k <= |a| ==> matrix[k, 0] == k
      invariant forall k :: 0 <= k < j ==> matrix[0, k] == k
    {
      matrix[0, j] := j;
    }
    assert a[..0] == [] && b[..0] == [];
  }

  method FillRow(matrix: array2<nat>, a: string, b: string, i: nat)
    requires matrix.Length0 == |a| + 1 && matrix.Length1 == |b| + 1 && 1 <= i <= |a|
    requires RowFilled(matrix, a, b, i - 1, |b| + 1) && RowFilled(matrix, a, b, i, 1)
    modifies matrix
    ensures RowFilled(matrix, a, b, i, |b| + 1)
    ensures forall k, l :: 0 <= k <= |a| && 0 <= l <= |b| && k != i ==> matrix[k, l] == old(matrix[k, l])
  {
    for j := 1 to |b| + 1
      invariant RowFilled(matrix, a, b, i - 1, |b| + 1) && RowFilled(matrix, a, b, i, j)
      invariant forall k, l :: 0 <= k <= |a| && 0 <= l <= |b| && k != i ==> matrix[k, l] == old(matrix[k, l])
    {
      FillCell(matrix, a, b, i, j);
    }
  }

  method FillCell(matrix: array2<nat>, a: string, b: string, i: nat, j: nat)
    requires matrix.Length0 == |a| + 1 && matrix.Length1 == |b| + 1 && 1 <= i <= |a| && 1 <= j <= |b|
    requires RowFilled(matrix, a, b, i - 1, |b| + 1) && RowFilled(matrix, a, b, i, j)
    modifies matrix
    ensures matrix[i, j] == EditDistance(a[..i], b[..j])
    ensures forall k, l :: 0 <= k <= |a| && 0 <= l <= |b| && (k != i || l != j) ==> matrix[k, l] == old(matrix[k, l])
  {
    var cost := if a[i - 1] == b[j - 1] then 0 else 1;
    NextCell(a, b, i, j);
    matrix[i, j] := Least(matrix[i - 1, j] + 1, matrix[i, j - 1] + 1, matrix[i - 1, j - 1] + cost);
  }

  method FillMatrix(a: string, b: string) returns (distance: nat)
    ensures distance == EditDistance(a, b)
  {
    var matrix := new nat[|a| + 1, |b| + 1]((_, _) => 0);
    Borders(matrix, a, b);
    for i := 1 to |a| + 1
      invariant RowFilled(matrix, a, b, i - 1, |b| + 1)
      invariant forall k :: i <= k <= |a| ==> RowFilled(matrix, a, b, k, 1)
    {
      label Before:
      FillRow(matrix, a, b, i);
      forall k | i < k <= |a| ensures RowFilled(matrix, a, b, k, 1) {
        assert old@Before(RowFilled(matrix, a, b, k, 1)) && old@Before(matrix[k, 0]) == matrix[k, 0];
      }
    }
    assert a[..|a|] == a && b[..|b|] == b;
    return matrix[|a|, |b|];
  }

  method CalculateLevenshteinSimilarity(str1: string, str2: string) returns (similarity: real)
    ensures similarity == Similarity(str1, str2)
  {
    if str1 == str2 { return 1.0; }
    if |str1| == 0 || |str2| == 0 {
      RatioOfParts(EditDistance(str1, str2), Max(|str1|, |str2|));
      return 0.0;
    }
    var distance := FillMatrix(str1, str2);
    return 1.0 - Ratio(distance, Max(|str1|, |str2|));
  }
}
