/** The star pickups of the level: their records, their initial layout and
    how many of them are still active. */
module Pickups {

  /** One star: whether its body is enabled, and the position the scene last gave it. */
  datatype Star = Star(active: bool, x: int, y: int)

  /** The group is created with `repeat: 11`, i.e. 12 stars. */
  const StarCount: nat := 12
  /** `setXY: { x: 12, y: 0, stepX: 70 }`. */
  const StarStartX: int := 12
  const StarStepX: int := 70

  /** The x-coordinate the group gives its k-th star. */
  function StarX(k: nat): (x: int)
    ensures x >= StarStartX
    ensures k > 0 ==> x == StarX(k - 1) + StarStepX
  {
    StarStartX + StarStepX * k
  }

  /** Every star of `s` stands in its own column of the grid. */
  predicate OnGrid(s: seq<Star>)
  {
    |s| == StarCount && forall k :: 0 <= k < |s| ==> s[k].x == StarX(k)
  }

  /** 1 when the star counts as active (the group's `countActive(true)`), else 0. */
  function ActiveBit(s: Star): nat
  {
    if s.active then 1 else 0
  }

  /** The number of active stars in `s`. */
  function ActiveCount(s: seq<Star>): (n: nat)
    ensures n <= |s|
  {
    if s == [] then 0 else ActiveBit(s[0]) + ActiveCount(s[1..])
  }

  /** The count is zero exactly when no star is active (the test `collectStar`
      makes before respawning the group). */
  lemma {:induction false} NoneActive(s: seq<Star>)
    ensures ActiveCount(s) == 0 <==> forall k :: 0 <= k < |s| ==> !s[k].active
  {
    if s != [] {
      NoneActive(s[1..]);
      assert forall k :: 1 <= k < |s| ==> s[k] == s[1..][k - 1];
    }
  }

  /** The count is the whole group exactly when every star is active. */
  lemma {:induction false} AllActive(s: seq<Star>)
    ensures ActiveCount(s) == |s| <==> forall k :: 0 <= k < |s| ==> s[k].active
  {
    if s != [] {
      AllActive(s[1..]);
      assert forall k :: 1 <= k < |s| ==> s[k] == s[1..][k - 1];
    }
  }

  /** Replacing one star changes the active count by exactly the difference
      of the two stars' activity. */
  lemma {:induction false} ActiveCountUpdate(s: seq<Star>, i: nat, v: Star)
    requires i < |s|
    ensures ActiveCount(s[i := v]) == ActiveCount(s) - ActiveBit(s[i]) + ActiveBit(v)
  {
    if i == 0 {
      assert s[i := v][1..] == s[1..];
    } else {
      ActiveCountUpdate(s[1..], i - 1, v);
      assert s[i := v][1..] == s[1..][i - 1 := v];
    }
  }

  /** Deactivating an active star removes exactly one from the active count;
      deactivating an inactive one changes nothing. */
  lemma DeactivateCount(s: seq<Star>, i: nat)
    requires i < |s|
    ensures ActiveCount(s[i := s[i].(active := false)])
            == if s[i].active then ActiveCount(s) - 1 else ActiveCount(s)
  {
    ActiveCountUpdate(s, i, s[i].(active := false));
  }
}
