// The trail markers a bird leaves behind: each drifts left at a fixed rate
// and removes itself from its owner's list once it has left the screen.
module Shadows {

  /** Trail markers left of this x are removed from their list. */
  const DeleteBelow: real := -1.0
  /** Fixed leftward drift of a trail marker, in units per second. */
  const DriftRate: real := 300.0

  class BirdShadow {
    var x: real
    /** The owner's height when the marker was dropped; it never changes. */
    const height: real

    constructor (spawnHeight: real)
      ensures x == 80.0 && height == spawnHeight
    {
      x := 80.0;
      height := spawnHeight;
    }

    method Update(dt: real)
      modifies this`x
      ensures x == old(x) - DriftRate * dt
    {
      x := x - 300.0 * dt;
    }

    /** checkForSelfDelete(list): the list without this marker's first
        occurrence once the marker is past the deletion threshold, and the
        list itself otherwise (including when the marker is not in it). */
    method CheckForSelfDelete(list: seq<BirdShadow>) returns (r: seq<BirdShadow>)
      ensures x >= DeleteBelow || this !in list ==> r == list
      ensures x < DeleteBelow && this in list ==>
                |r| == |list| - 1 && multiset(r) == multiset(list) - multiset{this}
      ensures x < DeleteBelow && this in list ==>
                r == RemoveAt(list, IndexOf(list, this))
    {
      r := list;
      if x < -1.0 {
        var index := IndexOf(list, this);
        if index > -1 {
          assert list == list[..index] + [list[index]] + list[index + 1..];
          r := list[..index] + list[index + 1..];
        }
      }
    }
  }

  /** Array.prototype.indexOf with reference equality: the first position of
      e in list, or -1 when it does not occur. */
  function IndexOf(list: seq<BirdShadow>, e: BirdShadow): (k: int)
    ensures -1 <= k < |list|
    ensures k == -1 <==> e !in list
    ensures 0 <= k ==> list[k] == e && e !in list[..k]
  {
    if list == [] then -1
    else if list[0] == e then 0
    else
      var k := IndexOf(list[1..], e);
      if k == -1 then -1
      else
        assert list[..k + 1] == [list[0]] + list[1..][..k];
        k + 1
  }

  function RemoveAt(list: seq<BirdShadow>, k: nat): seq<BirdShadow>
    requires k < |list|
  {
    list[..k] + list[k + 1..]
  }

  /** In a list whose element at k does not occur earlier, indexOf finds k. */
  lemma IndexOfFirst(list: seq<BirdShadow>, k: nat)
    requires k < |list| && list[k] !in list[..k]
    ensures IndexOf(list, list[k]) == k
  {
  }

  ghost predicate Distinct(list: seq<BirdShadow>) {
    forall i, j :: 0 <= i < j < |list| ==> list[i] != list[j]
  }

  /** The x of every marker of list, in order. */
  ghost function Positions(list: seq<BirdShadow>): (xs: seq<real>)
    reads list
    ensures |xs| == |list|
  {
    if list == [] then [] else [list[0].x] + Positions(list[1..])
  }

  /** Positions lists the markers' x in order. */
  lemma {:induction false} PositionsAt(list: seq<BirdShadow>, j: nat)
    requires j < |list|
    ensures Positions(list)[j] == list[j].x
  {
    if j > 0 {
      PositionsAt(list[1..], j - 1);
    }
  }

  /** Positions depend only on the markers' own x. */
  twostate lemma {:induction false} PositionsUnchanged(list: seq<BirdShadow>)
    requires forall s :: s in list ==> s.x == old(s.x)
    ensures Positions(list) == old(Positions(list))
  {
    if list != [] {
      PositionsUnchanged(list[1..]);
    }
  }

  /** The markers' x, read off one by one, determine Positions. */
  lemma {:induction false} PositionsAre(list: seq<BirdShadow>, xs: seq<real>)
    requires |xs| == |list|
    requires forall j :: 0 <= j < |list| ==> list[j].x == xs[j]
    ensures Positions(list) == xs
  {
    if list != [] {
      PositionsAre(list[1..], xs[1..]);
    }
  }

  /** Positions distribute over concatenation. */
  lemma {:induction false} PositionsAppend(a: seq<BirdShadow>, b: seq<BirdShadow>)
    ensures Positions(a + b) == Positions(a) + Positions(b)
  {
    if a == [] {
      assert a + b == b;
    } else {
      assert (a + b)[1..] == a[1..] + b;
      PositionsAppend(a[1..], b);
    }
  }

  /** The positions of n freshly dropped markers (at most one per frame). */
  function DroppedAt(n: nat): (xs: seq<real>)
    ensures |xs| == n
  {
    seq(n, _ => 80.0)
  }

  /** Positions after one frame of drift. */
  function Drifted(xs: seq<real>, dt: real): (ys: seq<real>)
    ensures |ys| == |xs|
  {
    if xs == [] then [] else [xs[0] - DriftRate * dt] + Drifted(xs[1..], dt)
  }

  /** Each position drifts by the same amount. */
  lemma {:induction false} DriftedAt(xs: seq<real>, dt: real, j: nat)
    requires j < |xs|
    ensures Drifted(xs, dt)[j] == xs[j] - DriftRate * dt
  {
    if j > 0 {
      DriftedAt(xs[1..], dt, j - 1);
    }
  }

  /** The markers of list whose positions xs are still on screen, in list
      order. */
  function Survivors(list: seq<BirdShadow>, xs: seq<real>): seq<BirdShadow>
    requires |xs| == |list|
  {
    if list == [] then []
    else (if xs[0] < DeleteBelow then [] else [list[0]]) + Survivors(list[1..], xs[1..])
  }

  /** The survivors among the markers from position lo on, by index. */
  function SurvivorsFrom(list: seq<BirdShadow>, xs: seq<real>, lo: nat): seq<BirdShadow>
    requires |xs| == |list| && lo <= |list|
    decreases |list| - lo
  {
    if lo == |list| then []
    else (if xs[lo] < DeleteBelow then [] else [list[lo]]) + SurvivorsFrom(list, xs, lo + 1)
  }

  /** Counting from lo is filtering the suffix from lo. */
  lemma {:induction false} SurvivorsFromSuffix(list: seq<BirdShadow>, xs: seq<real>, lo: nat)
    requires |xs| == |list| && lo <= |list|
    ensures SurvivorsFrom(list, xs, lo) == Survivors(list[lo..], xs[lo..])
    decreases |list| - lo
  {
    if lo < |list| {
      SurvivorsFromSuffix(list, xs, lo + 1);
      assert list[lo..][1..] == list[lo + 1..] && xs[lo..][1..] == xs[lo + 1..];
    }
  }

  /** Every survivor comes from the list. */
  lemma {:induction false} SurvivorsFromList(list: seq<BirdShadow>, xs: seq<real>)
    requires |xs| == |list|
    ensures forall s :: s in Survivors(list, xs) ==> s in list
  {
    if list != [] {
      SurvivorsFromList(list[1..], xs[1..]);
    }
  }

  /** In a list without repeats, a marker survives exactly when its
      position is on screen. */
  lemma {:induction false} SurvivorsExactly(list: seq<BirdShadow>, xs: seq<real>)
    requires |xs| == |list| && Distinct(list)
    ensures forall j :: 0 <= j < |list| ==> (list[j] in Survivors(list, xs) <==> xs[j] >= DeleteBelow)
  {
    if list != [] {
      SurvivorsExactly(list[1..], xs[1..]);
      SurvivorsFromList(list[1..], xs[1..]);
      assert list[0] !in list[1..];
      forall j | 1 <= j < |list|
        ensures list[j] in Survivors(list, xs) <==> xs[j] >= DeleteBelow
      {
        assert list[j] == list[1..][j - 1] && list[j] != list[0];
      }
    }
  }

  /** Filtering commutes with concatenation: relative order is kept. */
  lemma {:induction false} SurvivorsAppend(a: seq<BirdShadow>, xa: seq<real>, b: seq<BirdShadow>, xb: seq<real>)
    requires |xa| == |a| && |xb| == |b|
    ensures Survivors(a + b, xa + xb) == Survivors(a, xa) + Survivors(b, xb)
  {
    if a == [] {
      assert a + b == b && xa + xb == xb;
    } else {
      var head := if xa[0] < DeleteBelow then [] else [a[0]];
      assert (a + b)[1..] == a[1..] + b && (xa + xb)[1..] == xa[1..] + xb;
      assert (a + b)[0] == a[0] && (xa + xb)[0] == xa[0];
      SurvivorsAppend(a[1..], xa[1..], b, xb);
      assert Survivors(a + b, xa + xb) == head + (Survivors(a[1..], xa[1..]) + Survivors(b, xb));
      assert Survivors(a, xa) == head + Survivors(a[1..], xa[1..]);
    }
  }

  /** Filtering a list of distinct markers yields distinct markers. */
  lemma {:induction false} SurvivorsDistinct(list: seq<BirdShadow>, xs: seq<real>)
    requires |xs| == |list| && Distinct(list)
    ensures Distinct(Survivors(list, xs))
  {
    if list != [] {
      SurvivorsDistinct(list[1..], xs[1..]);
      SurvivorsFromList(list[1..], xs[1..]);
      assert list[0] !in list[1..];
    }
  }

  /** The two trails of a game: no marker twice, none in both. */
  ghost predicate TrailsOk(a: seq<BirdShadow>, b: seq<BirdShadow>) {
    Distinct(a) && Distinct(b) && forall s :: s in a ==> s !in b
  }

  /** Filtering both trails keeps them apart and free of repeats. */
  lemma SurvivorsKeepTrailsOk(a: seq<BirdShadow>, xa: seq<real>, b: seq<BirdShadow>, xb: seq<real>)
    requires |xa| == |a| && |xb| == |b| && TrailsOk(a, b)
    ensures TrailsOk(Survivors(a, xa), Survivors(b, xb))
  {
    SurvivorsDistinct(a, xa);
    SurvivorsDistinct(b, xb);
    SurvivorsFromList(a, xa);
    SurvivorsFromList(b, xb);
  }

  /** Appending markers new to both trails keeps them apart and free of
      repeats. */
  lemma TrailsOkAppend(a: seq<BirdShadow>, da: seq<BirdShadow>, b: seq<BirdShadow>, db: seq<BirdShadow>)
    requires TrailsOk(a, b) && TrailsOk(da, db)
    requires forall s :: s in da ==> s !in a && s !in b
    requires forall s :: s in db ==> s !in a && s !in b
    ensures TrailsOk(a + da, b + db)
  {
    forall i, j | 0 <= i < j < |a + da|
      ensures (a + da)[i] != (a + da)[j]
    {
      if j >= |a| && i < |a| {
        assert (a + da)[i] in a && (a + da)[j] in da;
      }
    }
    forall i, j | 0 <= i < j < |b + db|
      ensures (b + db)[i] != (b + db)[j]
    {
      if j >= |b| && i < |b| {
        assert (b + db)[i] in b && (b + db)[j] in db;
      }
    }
  }
}
