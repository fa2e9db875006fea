/** The two array helpers of the runtime the core leans on: `find` and one-level `flat`. */
module Seqs {
  import opened Results

  /** Index of the first element satisfying `p`, as `Array.prototype.find` scans. */
  function FindIndex<T>(s: seq<T>, p: T -> bool): (r: Option<nat>)
    ensures r.Some? ==> r.value < |s| && p(s[r.value])
    ensures r.Some? ==> forall j :: 0 <= j < r.value ==> !p(s[j])
    ensures r.None? <==> forall j :: 0 <= j < |s| ==> !p(s[j])
  {
    FindIndexFrom(s, p, 0)
  }

  function FindIndexFrom<T>(s: seq<T>, p: T -> bool, i: nat): (r: Option<nat>)
    requires i <= |s|
    ensures r.Some? ==> i <= r.value < |s| && p(s[r.value])
    ensures r.Some? ==> forall j :: i <= j < r.value ==> !p(s[j])
    ensures r.None? <==> forall j :: i <= j < |s| ==> !p(s[j])
    decreases |s| - i
  {
    if i == |s| then None
    else if p(s[i]) then Some(i)
    else FindIndexFrom(s, p, i + 1)
  }

  /** `Array.prototype.flat()` with its default depth of one. */
  function Flatten<T>(s: seq<seq<T>>): (r: seq<T>)
    ensures forall i, j :: 0 <= i < |s| && 0 <= j < |s[i]| ==> s[i][j] in r
    ensures forall k :: 0 <= k < |r| ==> exists i :: 0 <= i < |s| && r[k] in s[i]
  {
    if s == [] then []
    else
      assert forall i :: 1 <= i < |s| ==> s[i] == s[1..][i - 1];
      assert forall k :: |s[0]| <= k < |s[0] + Flatten(s[1..])| ==> (s[0] + Flatten(s[1..]))[k] == Flatten(s[1..])[k - |s[0]|];
      s[0] + Flatten(s[1..])
  }

  lemma {:induction false} FlattenAppend<T>(a: seq<seq<T>>, b: seq<seq<T>>)
    ensures Flatten(a + b) == Flatten(a) + Flatten(b)
  {
    if a != [] {
      assert (a + b)[1..] == a[1..] + b;
      FlattenAppend(a[1..], b);
    } else {
      assert a + b == b;
    }
  }

  /** Flattening keeps only the total of the inner lengths. */
  lemma {:induction false} FlattenLength<T, U>(a: seq<seq<T>>, b: seq<seq<U>>)
    requires |a| == |b|
    requires forall i :: 0 <= i < |a| ==> |a[i]| == |b[i]|
    ensures |Flatten(a)| == |Flatten(b)|
  {
    if a != [] {
      FlattenLength(a[1..], b[1..]);
    }
  }

  /** A matrix whose rows all have width `w` flattens to `|s| * w` elements. */
  lemma {:induction false} FlattenUniform<T>(s: seq<seq<T>>, w: nat)
    requires forall i :: 0 <= i < |s| ==> |s[i]| == w
    ensures |Flatten(s)| == |s| * w
  {
    if s != [] {
      FlattenUniform(s[1..], w);
      assert |s| * w == w + (|s| - 1) * w;
    }
  }

  /** A grid of rows of width `w` whose every cell holds `e` alone flattens twice to `|s| * w` copies of `e`. */
  lemma FlattenSingletons<T>(s: seq<seq<seq<T>>>, w: nat, e: T)
    requires forall i :: 0 <= i < |s| ==> |s[i]| == w
    requires forall i, j :: 0 <= i < |s| && 0 <= j < |s[i]| ==> s[i][j] == [e]
    ensures |Flatten(Flatten(s))| == |s| * w
    ensures forall b :: b in Flatten(Flatten(s)) ==> b == e
  {
    var cells := Flatten(s);
    FlattenUniform(s, w);
    forall k | 0 <= k < |cells|
      ensures cells[k] == [e]
    {
      var i :| 0 <= i < |s| && cells[k] in s[i];
    }
    FlattenUniform(cells, 1);
    forall b | b in Flatten(cells)
      ensures b == e
    {
      var k :| 0 <= k < |Flatten(cells)| && Flatten(cells)[k] == b;
      var i :| 0 <= i < |cells| && b in cells[i];
    }
  }

  /** Flattening twice keeps exactly the innermost elements. */
  lemma FlattenTwiceMembers<T>(s: seq<seq<seq<T>>>)
    ensures forall i, j, k :: 0 <= i < |s| && 0 <= j < |s[i]| && 0 <= k < |s[i][j]| ==> s[i][j][k] in Flatten(Flatten(s))
    ensures forall b :: b in Flatten(Flatten(s)) ==>
      exists i, j, k :: 0 <= i < |s| && 0 <= j < |s[i]| && 0 <= k < |s[i][j]| && s[i][j][k] == b
  {
    var cells := Flatten(s);
    forall i, j, k | 0 <= i < |s| && 0 <= j < |s[i]| && 0 <= k < |s[i][j]|
      ensures s[i][j][k] in Flatten(cells)
    {
      var c :| 0 <= c < |cells| && cells[c] == s[i][j];
    }
    forall b | b in Flatten(cells)
      ensures exists i, j, k :: 0 <= i < |s| && 0 <= j < |s[i]| && 0 <= k < |s[i][j]| && s[i][j][k] == b
    {
      var n :| 0 <= n < |Flatten(cells)| && Flatten(cells)[n] == b;
      var c :| 0 <= c < |cells| && b in cells[c];
      var i :| 0 <= i < |s| && cells[c] in s[i];
      var j :| 0 <= j < |s[i]| && s[i][j] == cells[c];
      var k :| 0 <= k < |s[i][j]| && s[i][j][k] == b;
    }
  }
}
