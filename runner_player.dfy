/** The runner's jump controller (src/game/runner/entities/RunnerPlayer.ts):
    one launch impulse, a hold-to-boost window that decays linearly, and a latch
    that needs a release before the next jump. The physics body is reduced to
    its vertical velocity; whether the body stands on the ground is a parameter
    of each call. Times are milliseconds, velocities units per second. */
module RunnerPlayer {

  const InitialJumpForce: real := -280.0
  const BoostForce: real := -25.0
  const MaxBoostTime: real := 300.0

  /** Everything the controller keeps between frames. */
  datatype JumpState = JumpState(
    velocityY: real,
    boostTimer: real,
    isJumping: bool,
    isHoldingJump: bool,
    canBoost: bool,
    mustReleaseBeforeJump: bool)

  /** A freshly created player: standing, no jump in progress. */
  const Resting := JumpState(0.0, 0.0, false, false, false, false)

  /** What every reachable state satisfies: the boost window is open only
      during a held jump, and a held jump always needs a release. */
  predicate Consistent(s: JumpState) {
    s.boostTimer >= 0.0 &&
    (s.canBoost ==> s.isHoldingJump && s.isJumping && s.boostTimer < MaxBoostTime) &&
    (s.isHoldingJump ==> s.mustReleaseBeforeJump)
  }

  /** The boost multiplier after `t` ms of boosting: 1 at launch, falling
      linearly towards one half at the end of the window. */
  function BoostStrength(t: real): (m: real)
    requires 0.0 <= t < MaxBoostTime
    ensures 0.5 < m <= 1.0
  {
    1.0 - (t / MaxBoostTime) * 0.5
  }

  lemma BoostStrengthDecays(t1: real, t2: real)
    requires 0.0 <= t1 < t2 < MaxBoostTime
    ensures BoostStrength(t2) < BoostStrength(t1)
  {
  }

  /** `jump()`: the new state and the returned flag. */
  function AfterJump(s: JumpState, onGround: bool): (JumpState, bool) {
    if s.mustReleaseBeforeJump then (s, false)
    else if onGround then (JumpState(InitialJumpForce, 0.0, true, true, true, true), true)
    else (s, false)
  }

  /** `releaseJump()`. */
  function AfterRelease(s: JumpState): JumpState {
    s.(isHoldingJump := false, canBoost := false, mustReleaseBeforeJump := false)
  }

  /** Whether `updateJump` enters its boost branch. */
  predicate Boosting(s: JumpState) {
    s.isHoldingJump && s.canBoost && s.isJumping
  }

  /** `updateJump(delta)`: accumulate the boost time and either push upwards or
      close the window; then, on ground contact, end the jump. */
  function AfterUpdate(s: JumpState, delta: real, onGround: bool): JumpState {
    var boosted :=
      if Boosting(s) then
        var t := s.boostTimer + delta;
        if t < MaxBoostTime then
          s.(boostTimer := t, velocityY := s.velocityY + BoostForce * (1.0 - (t / MaxBoostTime) * 0.5))
        else s.(boostTimer := t, canBoost := false)
      else s;
    if onGround then boosted.(isJumping := false, canBoost := false, boostTimer := 0.0)
    else boosted
  }

  // ---- properties of the controller ----

  lemma RestingIsConsistent()
    ensures Consistent(Resting)
  {
  }

  /** Every operation keeps the controller consistent (for non-negative frame times). */
  lemma OperationsPreserveConsistent(s: JumpState, delta: real, onGround: bool)
    requires Consistent(s) && delta >= 0.0
    ensures Consistent(AfterJump(s, onGround).0)
    ensures Consistent(AfterRelease(s))
    ensures Consistent(AfterUpdate(s, delta, onGround))
  {
  }

  /** A refused jump returns false and changes nothing; it is refused exactly
      when a release is pending or the player is in the air. */
  lemma JumpRefusal(s: JumpState, onGround: bool)
    ensures !AfterJump(s, onGround).1 <==> s.mustReleaseBeforeJump || !onGround
    ensures !AfterJump(s, onGround).1 ==> AfterJump(s, onGround).0 == s
  {
  }

  /** A jump from the ground launches at -280 with the boost window open at 0. */
  lemma JumpLaunch(s: JumpState)
    requires !s.mustReleaseBeforeJump
    ensures AfterJump(s, true).1
    ensures var n := AfterJump(s, true).0;
      n.velocityY == InitialJumpForce && n.isJumping && n.isHoldingJump && n.canBoost &&
      n.boostTimer == 0.0 && n.mustReleaseBeforeJump
  {
  }

  /** Two jumps with no release between them: the second one fails and leaves
      the velocity as the first one set it, whatever ran in between. */
  lemma SecondJumpFails(s: JumpState, g1: bool, frames: seq<(real, bool)>, g2: bool)
    requires AfterJump(s, g1).1
    ensures var afterFrames := UpdateAll(AfterJump(s, g1).0, frames);
      !AfterJump(afterFrames, g2).1 && AfterJump(afterFrames, g2).0 == afterFrames
  {
    UpdateAllKeepsLatch(AfterJump(s, g1).0, frames);
  }

  /** A run of frames, each a frame time and a ground-contact flag. */
  function UpdateAll(s: JumpState, frames: seq<(real, bool)>): JumpState
    decreases |frames|
  {
    if frames == [] then s else UpdateAll(AfterUpdate(s, frames[0].0, frames[0].1), frames[1..])
  }

  /** Frames never clear the release latch: only `releaseJump` does. */
  lemma {:induction false} UpdateAllKeepsLatch(s: JumpState, frames: seq<(real, bool)>)
    ensures UpdateAll(s, frames).mustReleaseBeforeJump == s.mustReleaseBeforeJump
    decreases |frames|
  {
    if frames != [] {
      UpdateAllKeepsLatch(AfterUpdate(s, frames[0].0, frames[0].1), frames[1..]);
    }
  }

  /** `releaseJump` clears the hold, the boost window and the latch, and nothing else. */
  lemma ReleaseClearsOnly(s: JumpState)
    ensures var n := AfterRelease(s);
      !n.isHoldingJump && !n.canBoost && !n.mustReleaseBeforeJump &&
      n.velocityY == s.velocityY && n.boostTimer == s.boostTimer && n.isJumping == s.isJumping
  {
  }

  /** The boost is applied only inside the window, it always pushes upwards,
      and once the accumulated time reaches 300 ms the window closes with the
      velocity untouched. */
  lemma BoostWindow(s: JumpState, delta: real, onGround: bool)
    requires Consistent(s) && delta >= 0.0
    ensures var n := AfterUpdate(s, delta, onGround);
      var t := s.boostTimer + delta;
      (!Boosting(s) ==> n.velocityY == s.velocityY) &&
      (Boosting(s) && t < MaxBoostTime ==>
         n.velocityY == s.velocityY + BoostForce * BoostStrength(t) && n.velocityY < s.velocityY) &&
      (Boosting(s) && t >= MaxBoostTime ==> n.velocityY == s.velocityY && !n.canBoost)
  {
  }

  /** Ground contact ends the jump whatever happened before. */
  lemma LandingResets(s: JumpState, delta: real)
    ensures var n := AfterUpdate(s, delta, true);
      !n.isJumping && !n.canBoost && n.boostTimer == 0.0
  {
  }

  /** The hold and the latch are only ever changed by `jump` and `releaseJump`. */
  lemma UpdateKeepsInput(s: JumpState, delta: real, onGround: bool)
    ensures var n := AfterUpdate(s, delta, onGround);
      n.isHoldingJump == s.isHoldingJump && n.mustReleaseBeforeJump == s.mustReleaseBeforeJump
  {
  }

  class Player {
    var velocityY: real
    var boostTimer: real
    var isJumping: bool
    var isHoldingJump: bool
    var canBoost: bool
    var mustReleaseBeforeJump: bool

    function State(): JumpState
      reads this
    {
      JumpState(velocityY, boostTimer, isJumping, isHoldingJump, canBoost, mustReleaseBeforeJump)
    }

    ghost predicate Valid()
      reads this
    {
      Consistent(State())
    }

    constructor ()
      ensures Valid() && State() == Resting
    {
      velocityY := 0.0;
      boostTimer := 0.0;
      isJumping := false;
      isHoldingJump := false;
      canBoost := false;
      mustReleaseBeforeJump := false;
    }

    method Jump(onGround: bool) returns (jumped: bool)
      requires Valid()
      modifies this
      ensures Valid()
      ensures (State(), jumped) == AfterJump(old(State()), onGround)
    {
      if mustReleaseBeforeJump {
        return false;
      }
      if onGround {
        velocityY := InitialJumpForce;
        isJumping := true;
        isHoldingJump := true;
        canBoost := true;
        boostTimer := 0.0;
        mustReleaseBeforeJump := true;
        return true;
      }
      return false;
    }

    method ReleaseJump()
      requires Valid()
      modifies this
      ensures Valid()
      ensures State() == AfterRelease(old(State()))
    {
      isHoldingJump := false;
      canBoost := false;
      mustReleaseBeforeJump := false;
    }

    method UpdateJump(delta: real, onGround: bool)
      requires Valid() && delta >= 0.0
      modifies this
      ensures Valid()
      ensures State() == AfterUpdate(old(State()), delta, onGround)
    {
      if isHoldingJump && canBoost && isJumping {
        boostTimer := boostTimer + delta;
        if boostTimer < MaxBoostTime {
          var boostStrength := 1.0 - (boostTimer / MaxBoostTime) * 0.5;
          velocityY := velocityY + BoostForce * boostStrength;
        } else {
          canBoost := false;
        }
      }
      if onGround {
        isJumping := false;
        canBoost := false;
        boostTimer := 0.0;
      }
      OperationsPreserveConsistent(old(State()), delta, onGround);
    }
  }
}
