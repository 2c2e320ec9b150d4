/** The gameplay scene: the fields its handlers mutate and the handlers
    themselves, with the engine calls reduced to the state they set. */
module Scene {
  import opened Pickups
  import opened Hazards

  /** The player's tint: cleared, gray while the letter is shown, red once hit. */
  datatype Tint = NoTint | Gray | Red

  /** A scene start scheduled with `time.delayedCall`. */
  datatype Transition = Transition(scene: string, delayMs: nat)

  /** The movement calls `update` makes on the player. */
  datatype PlayerCommand = MoveLeft | MoveRight | Idle | Jump

  /** Points per star. */
  const StarPoints: nat := 10
  /** The score at which the scroll unlocks. */
  const UnlockScore: nat := 100
  /** The scene started after a bomb hit, and the delay before it starts. */
  const GameOverScene: string := "GameOver"
  const GameOverDelayMs: nat := 2000

  /** The stars after star `i` has been collected (disabled and hidden). */
  function Deactivated(s: seq<Star>, i: nat): (r: seq<Star>)
    requires i < |s|
    ensures |r| == |s| && !r[i].active
    ensures forall k :: 0 <= k < |s| && k != i ==> r[k] == s[k]
    ensures r[i].x == s[i].x && r[i].y == s[i].y
  {
    s[i := s[i].(active := false)]
  }

  /** Every star enabled again at its column of the grid, at the top of the level. */
  predicate FullLayout(s: seq<Star>)
  {
    |s| == StarCount && forall k :: 0 <= k < |s| ==> s[k] == Star(true, StarX(k), 0)
  }

  /** A freshly laid-out group has all 12 stars active. */
  lemma FullLayoutCount(s: seq<Star>)
    requires FullLayout(s)
    ensures ActiveCount(s) == StarCount
  {
    AllActive(s);
  }

  /** Collecting the next active star of a round: the round either goes on
      with one star fewer, or ends, and then the number of completed rounds
      grows by one. */
  lemma RoundStep(c: nat, active: nat)
    requires 0 < active == StarCount - c % StarCount
    ensures active == 1 ==> (c + 1) / StarCount == c / StarCount + 1 && (c + 1) % StarCount == 0
    ensures active > 1 ==> (c + 1) / StarCount == c / StarCount && StarCount - (c + 1) % StarCount == active - 1
  {
  }

  class Game {
    var score: int
    var scrollUnlocked: bool
    var scrollOpen: bool
    var letterVisible: bool
    /** Whether the physics simulation is paused. */
    var paused: bool
    var tint: Tint
    const stars: array<Star>
    /** The bombs group, in order of release. */
    var bombs: seq<Bomb>
    /** Scene starts scheduled and not cancelled (they never are). */
    var transitions: seq<Transition>
    /** How many times the scroll's open texture and pulse tween were started. */
    var pulses: nat
    /** Number of `collectStar` calls so far. */
    ghost var collections: nat

    /** The scene's invariant, kept by every handler. */
    ghost predicate Valid()
      reads this, stars
    {
      && stars.Length == StarCount
      && OnGrid(stars[..])
      && ActiveCount(stars[..]) > 0
      && ScrollValid()
      && AllReleased(bombs)
    }

    /** The score counts the collections, and the scroll is open (and its
        pulse started, once) exactly when the score has reached 100; the letter
        is only ever shown over an open scroll. */
    ghost predicate ScrollValid()
      reads this
    {
      && score == StarPoints * collections
      && scrollOpen == scrollUnlocked
      && scrollUnlocked == (score >= UnlockScore)
      && (letterVisible ==> scrollOpen)
      && pulses == (if scrollUnlocked then 1 else 0)
    }

    /** While every collected star was active when collected, the stars go in
        rounds of 12: one bomb per completed round, and the active count is
        what is left of the current round. */
    ghost predicate InCycle()
      reads this, stars
    {
      && |bombs| == collections / StarCount
      && ActiveCount(stars[..]) == StarCount - collections % StarCount
    }

    /** `create`: score 0, scroll locked and closed, letter hidden, 12 stars in a row. */
    constructor ()
      ensures Valid() && InCycle()
      ensures fresh(stars) && FullLayout(stars[..])
      ensures score == 0 && collections == 0
      ensures !scrollUnlocked && !scrollOpen && !letterVisible
      ensures !paused && tint == NoTint
      ensures bombs == [] && transitions == [] && pulses == 0
    {
      score := 0;
      scrollOpen, letterVisible, scrollUnlocked := false, false, false;
      paused, tint := false, NoTint;
      stars := new Star[StarCount](k => Star(true, StarX(k), 0));
      bombs, transitions, pulses := [], [], 0;
      collections := 0;
      new;
      assert FullLayout(stars[..]);
      FullLayoutCount(stars[..]);
    }

    /** `update`: one horizontal command (left wins over right, idle when
        neither is held), then a jump when up is held and the player stands
        on something. Reads and changes no scene field. */
    method Update(left: bool, right: bool, up: bool, blockedDown: bool)
      returns (cmds: seq<PlayerCommand>)
      ensures 1 <= |cmds| <= 2
      ensures cmds[0] == MoveLeft <==> left
      ensures cmds[0] == MoveRight <==> !left && right
      ensures cmds[0] == Idle <==> !left && !right
      ensures Jump in cmds <==> up && blockedDown
      ensures |cmds| == 2 ==> cmds[1] == Jump
    {
      if left {
        cmds := [MoveLeft];
      } else if right {
        cmds := [MoveRight];
      } else {
        cmds := [Idle];
      }
      if up && blockedDown {
        cmds := cmds + [Jump];
      }
    }

    /** Pointer down on the scroll: show the letter only when the scroll is
        open and the letter hidden; otherwise nothing changes. */
    method HandleScrollClick()
      requires Valid()
      modifies this
      ensures Valid()
      ensures letterVisible == (old(letterVisible) || old(scrollOpen))
      ensures if old(scrollOpen) && !old(letterVisible)
              then paused && tint == Gray
              else paused == old(paused) && tint == old(tint)
      ensures score == old(score) && scrollUnlocked == old(scrollUnlocked) && scrollOpen == old(scrollOpen)
      ensures bombs == old(bombs) && transitions == old(transitions) && pulses == old(pulses)
      ensures collections == old(collections)
    {
      if scrollOpen && !letterVisible {
        ShowLetter();
      }
    }

    /** Show the letter, freeze the physics and gray the player. */
    method ShowLetter()
      requires Valid() && scrollOpen
      modifies this
      ensures Valid()
      ensures letterVisible && paused && tint == Gray
      ensures score == old(score) && scrollUnlocked == old(scrollUnlocked) && scrollOpen == old(scrollOpen)
      ensures bombs == old(bombs) && transitions == old(transitions) && pulses == old(pulses)
      ensures collections == old(collections)
    {
      letterVisible := true;
      paused := true;
      tint := Gray;
    }

    /** Pointer down on the letter: hide it, resume the physics and clear the
        player's tint, whatever the state was. */
    method CloseLetter()
      requires Valid()
      modifies this
      ensures Valid()
      ensures !letterVisible && !paused && tint == NoTint
      ensures score == old(score) && scrollUnlocked == old(scrollUnlocked) && scrollOpen == old(scrollOpen)
      ensures bombs == old(bombs) && transitions == old(transitions) && pulses == old(pulses)
      ensures collections == old(collections)
    {
      letterVisible := false;
      paused := false;
      tint := NoTint;
    }

    /** Overlap of the player with star `i`. The star is disabled and 10 points
        are added; the scroll unlocks the first time the score reaches 100; when
        no star is left active, all 12 are re-enabled at their columns with
        y = 0 and one bomb is released away from the player at `playerX`. */
    method CollectStar(i: nat, playerX: int)
      requires Valid() && i < StarCount
      modifies this, stars
      ensures Valid()
      ensures score == old(score) + StarPoints && collections == old(collections) + 1
      ensures scrollUnlocked == (old(scrollUnlocked) || score >= UnlockScore)
      ensures old(scrollUnlocked) ==> scrollUnlocked && scrollOpen
      ensures pulses == old(pulses) + (if !old(scrollUnlocked) && scrollUnlocked then 1 else 0)
      ensures letterVisible == old(letterVisible) && paused == old(paused) && tint == old(tint)
      ensures transitions == old(transitions)
      ensures var left := Deactivated(old(stars[..]), i);
              if ActiveCount(left) == 0 then
                && FullLayout(stars[..])
                && |bombs| == |old(bombs)| + 1
                && bombs[..|old(bombs)|] == old(bombs)
                && SpawnedFor(bombs[|old(bombs)|], playerX)
              else
                stars[..] == left && bombs == old(bombs)
      ensures old(InCycle()) && old(stars[i].active) ==> InCycle()
    {
      ghost var before := stars[..];
      ghost var wasInCycle := InCycle();
      DisableStar(i);
      DeactivateCount(before, i);
      AwardPoints();
      if ActiveCount(stars[..]) == 0 {
        RespawnStars();
        FullLayoutCount(stars[..]);
        ReleaseBomb(playerX);
      }
      if wasInCycle && before[i].active {
        RoundStep(old(collections), ActiveCount(before));
      }
    }

    /** `star.disableBody(true, true)`: the star is no longer active. */
    method DisableStar(i: nat)
      requires i < stars.Length
      modifies stars
      ensures stars[..] == Deactivated(old(stars[..]), i)
    {
      stars[i] := stars[i].(active := false);
    }

    /** `score += 10`, then the scroll unlocks, opens and starts pulsing if the
        score has reached 100 and it is still locked. */
    method AwardPoints()
      requires ScrollValid()
      modifies this`score, this`collections, this`scrollUnlocked, this`scrollOpen, this`pulses
      ensures ScrollValid()
      ensures score == old(score) + StarPoints && collections == old(collections) + 1
      ensures scrollUnlocked == (old(scrollUnlocked) || score >= UnlockScore)
      ensures pulses == old(pulses) + (if !old(scrollUnlocked) && scrollUnlocked then 1 else 0)
    {
      score := score + StarPoints;
      collections := collections + 1;
      if score >= UnlockScore && !scrollUnlocked {
        scrollUnlocked := true;
        scrollOpen := true;
        pulses := pulses + 1;
      }
    }

    /** `enableBody(true, child.x, 0, true, true)` on every star of the group:
        each one active again, at its own x and at y = 0. */
    method RespawnStars()
      requires stars.Length == StarCount && OnGrid(stars[..])
      modifies stars
      ensures FullLayout(stars[..])
    {
      var k := 0;
      while k < stars.Length
        invariant 0 <= k <= stars.Length
        invariant forall j :: 0 <= j < k ==> stars[j] == Star(true, StarX(j), 0)
        invariant forall j :: k <= j < stars.Length ==> stars[j] == old(stars[j])
      {
        stars[k] := Star(true, stars[k].x, 0);
        k := k + 1;
      }
    }

    /** Contact of the player with a bomb: freeze the physics, tint the player
        red and schedule exactly one start of the game-over scene in 2000 ms. */
    method HitBomb()
      requires Valid()
      modifies this
      ensures Valid()
      ensures paused && tint == Red
      ensures transitions == old(transitions) + [Transition(GameOverScene, GameOverDelayMs)]
      ensures score == old(score) && scrollUnlocked == old(scrollUnlocked) && scrollOpen == old(scrollOpen)
      ensures letterVisible == old(letterVisible)
      ensures bombs == old(bombs) && pulses == old(pulses) && collections == old(collections)
    {
      paused := true;
      tint := Red;
      transitions := transitions + [Transition(GameOverScene, GameOverDelayMs)];
    }

    /** Add one bomb to the bombs group, in the half of the level the player
        at `playerX` is not in, with a random horizontal kick. */
    method ReleaseBomb(playerX: int)
      requires AllReleased(bombs)
      modifies this`bombs
      ensures |bombs| == |old(bombs)| + 1 && bombs[..|old(bombs)|] == old(bombs)
      ensures SpawnedFor(bombs[|old(bombs)|], playerX)
      ensures AllReleased(bombs)
    {
      var range := SpawnRange(playerX);
      var x :| range.0 <= x <= range.1;
      var vx :| -MaxKick <= vx <= MaxKick;
      var bomb := Bomb(x, BombY, vx, BombVy, BombBounce);
      bombs := bombs + [bomb];
      assert bombs[..|old(bombs)|] == old(bombs);
    }
  }
}
