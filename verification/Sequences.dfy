/** Lists built up in order: where their elements come from, and texts spelled by pieces. */
module Sequences {
  import opened Events

  /** `out` lists, in order, what the positions below `n` give: element `k` comes from position `at[k]`, and every
      position that gives something is among these. */
  ghost predicate Placed<T(!new)>(n: nat, out: seq<T>, at: seq<nat>, gives: (int, T) -> bool) {
    && |at| == |out| && (forall j, k :: 0 <= j < k < |at| ==> at[j] < at[k])
    && (forall k :: 0 <= k < |at| ==> at[k] < n && gives(at[k], out[k]))
    && (forall i, x :: 0 <= i < n && gives(i, x) ==> i in at)
  }

  lemma {:induction false} PlaceOne<T(!new)>(n: nat, out: seq<T>, at: seq<nat>, gives: (int, T) -> bool, x: T)
    requires Placed(n, out, at, gives) && gives(n, x)
    ensures Placed(n + 1, out + [x], at + [n], gives)
  {
    assert (at + [n])[|at|] == n;
  }

  lemma {:induction false} PlaceNone<T(!new)>(n: nat, out: seq<T>, at: seq<nat>, gives: (int, T) -> bool)
    requires Placed(n, out, at, gives) && forall x :: !gives(n, x)
    ensures Placed(n + 1, out, at, gives)
  {}

  /** If each position gives one thing at most, there is one such list only. */
  lemma {:induction false} PlacedIsUnique<T(!new)>(n: nat, a: seq<T>, at: seq<nat>, b: seq<T>, bt: seq<nat>,
                                             gives: (int, T) -> bool)
    requires Placed(n, a, at, gives) && Placed(n, b, bt, gives)
    requires forall i, x, y :: gives(i, x) && gives(i, y) ==> x == y
    ensures a == b && at == bt
    decreases |a|
  {
    NothingPlaced(n, a, at, b, bt, gives);
    NothingPlaced(n, b, bt, a, at, gives);
    if a != [] {
      SameLastPlace(n, a, at, b, bt, gives);
      PlacedShorter(n, a, at, gives);
      PlacedShorter(n, b, bt, gives);
      var last := at[|at| - 1];
      PlacedIsUnique(last, a[..|a| - 1], at[..|at| - 1], b[..|b| - 1], bt[..|bt| - 1], gives);
      SameEnds(a, b);
      SameEnds(at, bt);
    }
  }

  lemma {:induction false} SameEnds<T>(a: seq<T>, b: seq<T>)
    requires a != [] && b != [] && a[..|a| - 1] == b[..|b| - 1] && a[|a| - 1] == b[|b| - 1]
    ensures a == b
  {
    assert a == a[..|a| - 1] + [a[|a| - 1]] && b == b[..|b| - 1] + [b[|b| - 1]];
  }

  lemma {:induction false} NothingPlaced<T(!new)>(n: nat, a: seq<T>, at: seq<nat>, b: seq<T>, bt: seq<nat>,
                                                  gives: (int, T) -> bool)
    requires Placed(n, a, at, gives) && Placed(n, b, bt, gives)
    ensures b != [] ==> a != []
  {
    if b != [] {
      assert gives(bt[0], b[0]);
      assert bt[0] in at;
    }
  }

  lemma {:induction false} SameLastPlace<T(!new)>(n: nat, a: seq<T>, at: seq<nat>, b: seq<T>, bt: seq<nat>,
                                                  gives: (int, T) -> bool)
    requires Placed(n, a, at, gives) && Placed(n, b, bt, gives) && a != [] && b != []
    requires forall i, x, y :: gives(i, x) && gives(i, y) ==> x == y
    ensures at[|at| - 1] == bt[|bt| - 1] && a[|a| - 1] == b[|b| - 1]
  {
    var i, j := at[|at| - 1], bt[|bt| - 1];
    assert gives(i, a[|a| - 1]) && gives(j, b[|b| - 1]);
    assert i in bt && j in at;
    assert i <= j && j <= i;
  }

  lemma {:induction false} PlacedShorter<T(!new)>(n: nat, out: seq<T>, at: seq<nat>, gives: (int, T) -> bool)
    requires Placed(n, out, at, gives) && out != []
    ensures Placed(at[|at| - 1], out[..|out| - 1], at[..|at| - 1], gives)
  {
    var most, last := at[..|at| - 1], at[|at| - 1];
    forall i, x | 0 <= i < last && gives(i, x)
      ensures i in most
    {
      var k :| 0 <= k < |at| && at[k] == i;
      assert most[k] == i;
    }
  }

  /** More than one thing is listed exactly if two positions give something. */
  lemma {:induction false} SeveralPlaced<T(!new)>(n: nat, out: seq<T>, at: seq<nat>, gives: (int, T) -> bool)
    requires Placed(n, out, at, gives)
    ensures |out| > 1 <==> exists i, x, j, y :: 0 <= i < j < n && gives(i, x) && gives(j, y)
  {
    if |out| > 1 {
      assert gives(at[0], out[0]) && gives(at[1], out[1]) && at[0] < at[1];
    }
    if i, x, j, y :| 0 <= i < j < n && gives(i, x) && gives(j, y) {
      assert i in at && j in at;
    }
  }

  /** Text `t` is the `pieces` one after the other: piece `k` is what lies between the offsets `k` and `k + 1`. */
  ghost predicate SpelledAt<T>(t: seq<T>, pieces: seq<seq<T>>, offsets: seq<nat>) {
    && |offsets| == |pieces| + 1 && offsets[0] == 0 && offsets[|pieces|] == |t|
    && (forall k :: 0 <= k < |pieces| ==> PieceAt(t, offsets, k, pieces[k]))
  }

  ghost predicate PieceAt<T>(t: seq<T>, offsets: seq<nat>, k: nat, piece: seq<T>) {
    k + 1 < |offsets| && offsets[k] <= offsets[k + 1] <= |t| && t[offsets[k]..offsets[k + 1]] == piece
  }

  ghost predicate Spells<T>(t: seq<T>, pieces: seq<seq<T>>) {
    exists offsets :: SpelledAt(t, pieces, offsets)
  }

  lemma {:induction false} SpellsNothing<T>()
    ensures Spells<T>([], [])
  {
    assert SpelledAt<T>([], [], [0]);
  }

  lemma {:induction false} SpellsMore<T>(t: seq<T>, pieces: seq<seq<T>>, piece: seq<T>)
    requires Spells(t, pieces)
    ensures Spells(t + piece, pieces + [piece])
  {
    var offsets: seq<nat> :| SpelledAt(t, pieces, offsets);
    var more: seq<nat>, longer := offsets + [|t| + |piece|], t + piece;
    forall k | 0 <= k < |pieces| + 1
      ensures PieceAt(longer, more, k, (pieces + [piece])[k])
    {
      if k < |pieces| {
        assert PieceAt(t, offsets, k, pieces[k]);
        assert longer[offsets[k]..offsets[k + 1]] == t[offsets[k]..offsets[k + 1]];
      } else {
        assert longer[|t|..|longer|] == piece;
      }
    }
    assert SpelledAt(longer, pieces + [piece], more);
  }

  lemma {:induction false} SpellsAfter<T>(t: seq<T>, pieces: seq<seq<T>>, piece: seq<T>)
    requires Spells(t, pieces)
    ensures Spells(piece + t, [piece] + pieces)
    decreases |pieces|
  {
    if pieces == [] {
      SpellingIsUnique(t, [], pieces) by {
        SpellsNothing<T>();
      }
      SpellsNothing<T>();
      SpellsMore([], [], piece);
      assert [] + piece == piece + t && [] + [piece] == [piece] + pieces;
    } else {
      var n := |pieces| - 1;
      var most := SpellsLess(t, pieces);
      SpellsAfter(most, pieces[..n], piece);
      SpellsMore(piece + most, [piece] + pieces[..n], pieces[n]);
      assert piece + most + pieces[n] == piece + t;
      assert [piece] + pieces[..n] + [pieces[n]] == [piece] + pieces;
    }
  }

  lemma {:induction false} SpellsLess<T>(t: seq<T>, pieces: seq<seq<T>>) returns (most: seq<T>)
    requires Spells(t, pieces) && pieces != []
    ensures t == most + pieces[|pieces| - 1] && Spells(most, pieces[..|pieces| - 1])
  {
    var offsets: seq<nat> :| SpelledAt(t, pieces, offsets);
    var n := |pieces| - 1;
    assert PieceAt(t, offsets, n, pieces[n]);
    most := t[..offsets[n]];
    var fewer := offsets[..n + 1];
    forall k | 0 <= k < n
      ensures PieceAt(most, fewer, k, pieces[..n][k])
    {
      assert PieceAt(t, offsets, k, pieces[k]);
      OffsetsAscend(t, pieces, offsets, k + 1, n);
      assert most[fewer[k]..fewer[k + 1]] == t[offsets[k]..offsets[k + 1]];
    }
    assert SpelledAt(most, pieces[..n], fewer);
  }

  lemma {:induction false} OffsetsAscend<T>(t: seq<T>, pieces: seq<seq<T>>, offsets: seq<nat>, j: nat, k: nat)
    requires SpelledAt(t, pieces, offsets) && j <= k <= |pieces|
    ensures offsets[j] <= offsets[k]
    decreases k
  {
    if j < k {
      assert PieceAt(t, offsets, k - 1, pieces[k - 1]);
      OffsetsAscend(t, pieces, offsets, j, k - 1);
    }
  }

  /** The pieces spell one text only. */
  lemma {:induction false} SpellingIsUnique<T>(t: seq<T>, u: seq<T>, pieces: seq<seq<T>>)
    requires Spells(t, pieces) && Spells(u, pieces)
    ensures t == u
    decreases |pieces|
  {
    if pieces != [] {
      var most := SpellsLess(t, pieces);
      var most' := SpellsLess(u, pieces);
      SpellingIsUnique(most, most', pieces[..|pieces| - 1]);
    }
  }

  /** `value` is the last one given, or `initial` if none is. */
  ghost predicate LastGiven<T>(given: seq<Option<T>>, value: T, initial: T) {
    || (exists k :: LastAt(given, k, value))
    || (value == initial && forall k :: 0 <= k < |given| ==> given[k] == None)
  }

  ghost predicate LastAt<T>(given: seq<Option<T>>, k: int, value: T) {
    0 <= k < |given| && given[k] == Some(value) && forall j :: k < j < |given| ==> given[j] == None
  }

  lemma {:induction false} LastGivenMore<T>(given: seq<Option<T>>, value: T, initial: T, next: Option<T>)
    requires LastGiven(given, value, initial)
    ensures LastGiven(given + [next], if next.Some? then next.value else value, initial)
  {
    if next.Some? {
      assert LastAt(given + [next], |given|, next.value);
    } else if k :| LastAt(given, k, value) {
      assert LastAt(given + [next], k, value);
    }
  }
}
