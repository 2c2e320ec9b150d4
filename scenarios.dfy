/** Plays of the scene driven the way the physics and the pointer deliver
    events, and what the handlers' contracts let a caller conclude about them. */
module Scenarios {
  import opened Pickups
  import opened Hazards
  import opened Scene

  /** From a freshly created scene, the player touches stars 0, 1, ..., n-1 in
      turn while standing at `playerX`. */
  method CollectFirst(g: Game, n: nat, playerX: int)
    requires g.Valid() && g.InCycle() && n <= StarCount
    requires g.collections == 0 && FullLayout(g.stars[..]) && g.bombs == []
    modifies g, g.stars
    ensures g.Valid() && g.InCycle()
    ensures g.collections == n && g.score == StarPoints * n
    ensures g.scrollUnlocked == (n >= 10)
    ensures g.letterVisible == old(g.letterVisible) && g.paused == old(g.paused) && g.tint == old(g.tint)
    ensures g.transitions == old(g.transitions)
    ensures n < StarCount ==> g.bombs == [] && ActiveCount(g.stars[..]) == StarCount - n
    ensures n == StarCount ==> FullLayout(g.stars[..]) && |g.bombs| == 1 && SpawnedFor(g.bombs[0], playerX)
  {
    var k := 0;
    while k < n
      invariant 0 <= k <= n
      invariant g.Valid() && g.InCycle()
      invariant g.collections == k && g.score == StarPoints * k
      invariant g.scrollUnlocked == (k >= 10)
      invariant g.letterVisible == old(g.letterVisible) && g.paused == old(g.paused) && g.tint == old(g.tint)
      invariant g.transitions == old(g.transitions)
      invariant k < StarCount ==> g.bombs == [] && forall j :: k <= j < StarCount ==> g.stars[j].active
      invariant k == StarCount ==> FullLayout(g.stars[..]) && |g.bombs| == 1 && SpawnedFor(g.bombs[0], playerX)
    {
      g.CollectStar(k, playerX);
      k := k + 1;
    }
  }

  /** Ten stars give 100 points and unlock the scroll; a click on it shows the
      letter and freezes the physics, a click on the letter hides it again and
      resumes them. */
  method UnlockAndRead() returns (score: int, unlocked: bool, shownFrozen: bool, closedRunning: bool)
    ensures score == 100 && unlocked
    ensures shownFrozen && closedRunning
  {
    var g := new Game();
    CollectFirst(g, 10, 100);
    score, unlocked := g.score, g.scrollUnlocked;
    g.HandleScrollClick();
    shownFrozen := g.letterVisible && g.paused && g.tint == Gray;
    g.CloseLetter();
    closedRunning := !g.letterVisible && !g.paused && g.tint == NoTint;
  }

  /** From a running, untinted scene with the scroll open and the letter
      hidden, a click on the scroll and then on the letter leaves the letter
      hidden, the physics running and the tint cleared, as before, and the
      rest of the scene untouched. */
  method ShowThenClose(g: Game)
    requires g.Valid() && g.scrollOpen && !g.letterVisible && !g.paused && g.tint == NoTint
    modifies g
    ensures g.Valid()
    ensures g.letterVisible == old(g.letterVisible) && g.paused == old(g.paused) && g.tint == old(g.tint)
    ensures g.score == old(g.score) && g.scrollUnlocked == old(g.scrollUnlocked) && g.scrollOpen == old(g.scrollOpen)
    ensures g.bombs == old(g.bombs) && g.transitions == old(g.transitions) && g.pulses == old(g.pulses)
  {
    g.HandleScrollClick();
    g.CloseLetter();
  }

  /** With 90 points the scroll is still locked, and a click on it changes nothing. */
  method LockedClick() returns (unlocked: bool, shown: bool, frozen: bool)
    ensures !unlocked && !shown && !frozen
  {
    var g := new Game();
    CollectFirst(g, 9, 100);
    g.HandleScrollClick();
    unlocked, shown, frozen := g.scrollUnlocked, g.letterVisible, g.paused;
  }

  /** Collecting all 12 stars re-enables the whole group and releases exactly
      one bomb, on the other side of the level from the player. */
  method FullRound(playerX: int) returns (active: nat, released: nat, bomb: Bomb)
    ensures active == StarCount && released == 1
    ensures SpawnedFor(bomb, playerX)
    ensures playerX < Midpoint ==> Midpoint <= bomb.x <= WorldWidth
    ensures playerX >= Midpoint ==> 0 <= bomb.x <= Midpoint
  {
    var g := new Game();
    CollectFirst(g, StarCount, playerX);
    FullLayoutCount(g.stars[..]);
    active, released, bomb := ActiveCount(g.stars[..]), |g.bombs|, g.bombs[0];
  }

  /** A bomb hit freezes the physics, tints the player red and schedules the
      game-over scene once; yet with the scroll open, a click on the scroll and
      then on the letter resumes the physics and clears the red tint while the
      game-over start is still pending. */
  method HitThenLetter() returns (frozenRed: bool, pending: seq<Transition>, resumed: bool)
    ensures frozenRed
    ensures pending == [Transition("GameOver", 2000)]
    ensures resumed
  {
    var g := new Game();
    CollectFirst(g, 10, 100);
    g.HitBomb();
    frozenRed := g.paused && g.tint == Red;
    g.HandleScrollClick();
    g.CloseLetter();
    pending := g.transitions;
    resumed := !g.paused && g.tint == NoTint;
  }
}
