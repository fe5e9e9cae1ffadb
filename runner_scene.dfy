/** The dev-runner session (src/game/runner/RunnerScene.ts): the first jump
    starts the run, an obstacle hit ends it, R restarts it.

    The scene's own fields are the value `GameState`, and every handler of the
    scene is first a function from one `GameState` to the next; the class
    `Scene` holds the fields and its methods are proved to perform those
    functions. The engine's timers fire by calling `SpawnObstacle`,
    `SpawnPickup` and `AdvanceDay`; its overlap tests by calling `HitObstacle`
    and `CollectPickup`; its frame loop by calling `Update`. Random picks,
    ground contact and frame times are parameters. Entity positions are moved
    by the physics engine between frames; `EngineStep` is that position
    update. */
module RunnerScene {
  import opened Seqs
  import opened RunnerPlayer

  const BaseSpeed: int := 200
  const MaxSpeed: int := 450
  const SpeedIncrement: int := 8

  /** Entities left of this x are destroyed by the frame update. */
  const OffscreenX: real := -50.0
  /** New entities appear this far right of the visible width. */
  const SpawnMargin: real := 20.0
  /** Chance of a chained second obstacle, from day 3 on. */
  const ChainChance: real := 0.3

  const ObstacleNames: seq<string> := ["Legacy Bug", "Merge Conflict", "Prod Incident", "Tech Debt"]
  const PickupNames: seq<string> := ["PR Merged", "Feature Shipped", "Offer Letter", "Code Review"]

  datatype Callback = SpawnObstacleEvent | SpawnPickupEvent | AdvanceDayEvent

  /** A repeating timer: its period in milliseconds and what it calls. */
  datatype Timer = Timer(delayMs: nat, callback: Callback)

  /** The three timers `startGame` registers. */
  const RunTimers: seq<Timer> :=
    [Timer(1500, SpawnObstacleEvent), Timer(2500, SpawnPickupEvent), Timer(5000, AdvanceDayEvent)]

  /** Whether a registered timer calls `c`: only then can the engine fire it. */
  predicate Scheduled(timers: seq<Timer>, c: Callback) {
    exists i :: 0 <= i < |timers| && timers[i].callback == c
  }

  /** A live obstacle or pickup: its type name, its point value, its horizontal
      position and velocity. Obstacles carry the value 0, which nothing reads. */
  datatype Entity = Entity(kind: string, value: int, x: real, vx: real)

  // ---- the formulas of the scene ----

  /** The value table of `spawnPickup`. */
  function PickupValue(kind: string): (v: int)
    ensures v == 25 || v == 50 || v == 100
  {
    if kind == "Offer Letter" then 100 else if kind == "Feature Shipped" then 50 else 25
  }

  /** 100 for an offer letter, 50 for a shipped feature, 25 for everything else. */
  lemma PickupValueCases(kind: string)
    ensures PickupValue(kind) == 100 <==> kind == "Offer Letter"
    ensures PickupValue(kind) == 50 <==> kind == "Feature Shipped"
    ensures PickupValue(kind) == 25 <==> kind != "Offer Letter" && kind != "Feature Shipped"
  {
  }

  /** The speed `advanceDay` sets on day `day`. */
  function SpeedForDay(day: int): (speed: int)
    ensures speed <= MaxSpeed
    ensures day >= 0 ==> BaseSpeed <= speed
  {
    if BaseSpeed + SpeedIncrement * day < MaxSpeed then BaseSpeed + SpeedIncrement * day else MaxSpeed
  }

  /** The ramp never slows down, grows by 8 a day and reaches its cap on day 32. */
  lemma SpeedRamp(d1: int, d2: int)
    requires 1 <= d1 <= d2
    ensures SpeedForDay(d1) <= SpeedForDay(d2)
    ensures d1 < 32 ==> SpeedForDay(d1) == BaseSpeed + SpeedIncrement * d1
    ensures d1 >= 32 ==> SpeedForDay(d1) == MaxSpeed
  {
  }

  /** The score the frame update writes: a point per ten units run and 25 per
      feature shipped. */
  function Score(distance: real, featuresShipped: nat): (score: int)
    ensures distance >= 0.0 ==> score >= 25 * featuresShipped
  {
    (distance / 10.0).Floor + featuresShipped * 25
  }

  /** The distance part of the score is the number of whole tens run. */
  lemma ScoreCountsTens(distance: real, featuresShipped: nat)
    ensures var tens := Score(distance, featuresShipped) - 25 * featuresShipped;
      (tens * 10) as real <= distance < ((tens + 1) * 10) as real
  {
  }

  /** The distance run in one frame of `delta` ms at `speed` units per second. */
  function Travelled(speed: int, delta: real): (d: real)
    ensures speed >= 0 && delta >= 0.0 ==> d >= 0.0
    ensures delta == 0.0 ==> d == 0.0
  {
    speed as real * (delta / 1000.0)
  }

  // ---- entity groups ----

  predicate OnScreen(e: Entity) {
    !(e.x < OffscreenX)
  }

  /** Every entity of `es` with its horizontal velocity set to `vx`. */
  function WithVelocityX(es: seq<Entity>, vx: real): (r: seq<Entity>)
    ensures |r| == |es|
    ensures forall i {:trigger r[i]} :: 0 <= i < |es| ==> r[i] == es[i].(vx := vx)
  {
    if es == [] then [] else [es[0].(vx := vx)] + WithVelocityX(es[1..], vx)
  }

  /** One entity after a physics step of `dt` ms: it has moved by its velocity. */
  function Drift(e: Entity, dt: real): Entity {
    e.(x := e.x + e.vx * (dt / 1000.0))
  }

  /** One physics step over a group: every entity moves by its velocity, and
      nothing else about the group changes. */
  function Drifted(es: seq<Entity>, dt: real): (r: seq<Entity>)
    ensures |r| == |es|
    ensures forall i {:trigger r[i]} :: 0 <= i < |es| ==> r[i] == Drift(es[i], dt)
  {
    if es == [] then [] else [Drift(es[0], dt)] + Drifted(es[1..], dt)
  }

  /** The entities that survive the destroy loop of `update`, in order. */
  function Visible(es: seq<Entity>): (r: seq<Entity>)
    ensures |r| <= |es|
    ensures forall e :: e in r <==> e in es && OnScreen(e)
  {
    if es == [] then [] else (if OnScreen(es[0]) then [es[0]] else []) + Visible(es[1..])
  }

  lemma {:induction false} VisibleAppend(es: seq<Entity>, e: Entity)
    ensures Visible(es + [e]) == Visible(es) + (if OnScreen(e) then [e] else [])
    decreases |es|
  {
    if es == [] {
      assert es + [e] == [e];
    } else {
      assert (es + [e])[1..] == es[1..] + [e];
      VisibleAppend(es[1..], e);
    }
  }

  /** `Visible` is the generic filter at `OnScreen`, so it keeps the order and
      the multiplicity of the surviving entities. */
  lemma {:induction false} VisibleIsFilter(es: seq<Entity>)
    ensures Visible(es) == Filter(OnScreen, es)
    decreases |es|
  {
    if es != [] {
      VisibleIsFilter(es[1..]);
    }
  }

  /** `after` is what the frame update leaves of the group `before`: exactly
      the entities of `before` that were on screen, all now moving at `vx`. */
  predicate MovedSurvivors(before: seq<Entity>, after: seq<Entity>, vx: real) {
    (forall e :: e in after ==> OnScreen(e) && e.vx == vx) &&
    (forall j :: 0 <= j < |after| ==>
       exists i :: 0 <= i < |before| && OnScreen(before[i]) && after[j] == before[i].(vx := vx)) &&
    (forall e :: e in before && OnScreen(e) ==> e.(vx := vx) in after)
  }

  /** One group through the destroy loop and the velocity loop of `update`. */
  function MoveGroup(es: seq<Entity>, vx: real): (r: seq<Entity>)
    ensures |r| <= |es|
  {
    WithVelocityX(Visible(es), vx)
  }

  /** The two loops keep exactly the on-screen entities, moving at `vx`. */
  lemma OnScreenWithVelocity(es: seq<Entity>, vx: real)
    ensures MovedSurvivors(es, MoveGroup(es, vx), vx)
  {
    var v := Visible(es);
    var r := WithVelocityX(v, vx);
    forall e | e in r
      ensures OnScreen(e) && e.vx == vx
    {
      var i :| 0 <= i < |r| && r[i] == e;
      assert v[i] in v;
    }
    forall j | 0 <= j < |r|
      ensures exists i :: 0 <= i < |es| && OnScreen(es[i]) && r[j] == es[i].(vx := vx)
    {
      assert v[j] in v;
      var i :| 0 <= i < |es| && es[i] == v[j];
    }
    forall e | e in es && OnScreen(e)
      ensures e.(vx := vx) in r
    {
      assert e in v;
      var i :| 0 <= i < |v| && v[i] == e;
      assert r[i] == e.(vx := vx);
    }
  }

  /** Every pickup of the group is worth what the table says. */
  predicate AllPickups(es: seq<Entity>) {
    forall e :: e in es ==> e.value == PickupValue(e.kind)
  }

  /** Changing velocities keeps the pickup values. */
  lemma VelocityKeepsValues(es: seq<Entity>, vx: real)
    requires AllPickups(es)
    ensures AllPickups(WithVelocityX(es, vx))
  {
    var r := WithVelocityX(es, vx);
    forall e | e in r
      ensures exists i :: 0 <= i < |es| && e == es[i].(vx := vx)
    {
      var i :| 0 <= i < |r| && r[i] == e;
    }
  }

  /** Moving the entities keeps the pickup values. */
  lemma DriftKeepsValues(es: seq<Entity>, dt: real)
    requires AllPickups(es)
    ensures AllPickups(Drifted(es, dt))
  {
    var r := Drifted(es, dt);
    forall e | e in r
      ensures exists i :: 0 <= i < |es| && e == Drift(es[i], dt)
    {
      var i :| 0 <= i < |r| && r[i] == e;
    }
  }

  /** The destroy loop of `update` over one group. */
  method RemoveOffscreen(es: seq<Entity>) returns (kept: seq<Entity>)
    ensures kept == Visible(es)
  {
    kept := [];
    var i := 0;
    while i < |es|
      invariant 0 <= i <= |es|
      invariant kept == Visible(es[..i])
    {
      VisibleAppend(es[..i], es[i]);
      assert es[..i + 1] == es[..i] + [es[i]];
      if !(es[i].x < OffscreenX) {
        kept := kept + [es[i]];
      }
      i := i + 1;
    }
    assert es[..i] == es;
  }

  /** A velocity loop of `update` or `gameOver` over one group. */
  method SetVelocitiesX(es: seq<Entity>, vx: real) returns (r: seq<Entity>)
    ensures r == WithVelocityX(es, vx)
  {
    r := [];
    var i := 0;
    while i < |es|
      invariant 0 <= i <= |es|
      invariant |r| == i
      invariant forall k :: 0 <= k < i ==> r[k] == es[k].(vx := vx)
    {
      r := r + [es[i].(vx := vx)];
      i := i + 1;
    }
  }

  /** The engine's position update over one group. */
  method DriftAll(es: seq<Entity>, dt: real) returns (r: seq<Entity>)
    ensures r == Drifted(es, dt)
  {
    r := [];
    var i := 0;
    while i < |es|
      invariant 0 <= i <= |es|
      invariant |r| == i
      invariant forall k :: 0 <= k < i ==> r[k] == Drift(es[k], dt)
    {
      r := r + [Drift(es[i], dt)];
      i := i + 1;
    }
  }

  // ---- the scene's state and its transitions ----

  /** The scene's own fields, as one value. `cause` is the obstacle type shown
      on the game-over screen. */
  datatype GameState = GameState(
    score: int,
    distance: real,
    featuresShipped: nat,
    sprintDay: int,
    gameSpeed: int,
    isGameOver: bool,
    hasStarted: bool,
    jumpKeyHeld: bool,
    timers: seq<Timer>,
    obstacles: seq<Entity>,
    pickups: seq<Entity>,
    cause: string)

  /** The state `create` leaves: `resetGameState`, no timers, no entities. */
  const Initial := GameState(0, 0.0, 0, 1, BaseSpeed, false, false, false, [], [], [], "")

  /** What every reachable state satisfies: the speed is the base speed on day 1
      and the ramp's value on every later day, the distance and the score are
      not negative, the timers run exactly between the start and the end of a run,
      and every pickup carries its table value. */
  predicate Inv(g: GameState) {
    g.sprintDay >= 1 &&
    g.gameSpeed == (if g.sprintDay == 1 then BaseSpeed else SpeedForDay(g.sprintDay)) &&
    g.distance >= 0.0 &&
    g.score >= 0 &&
    g.timers == (if g.hasStarted && !g.isGameOver then RunTimers else []) &&
    AllPickups(g.pickups)
  }

  /** `resetGameState`. */
  function Reset(g: GameState): GameState {
    g.(score := 0, distance := 0.0, featuresShipped := 0, sprintDay := 1, gameSpeed := BaseSpeed,
       isGameOver := false, hasStarted := false, jumpKeyHeld := false)
  }

  /** `startGame`: the run begins and the three timers are registered. */
  function Started(g: GameState): GameState {
    g.(hasStarted := true, timers := RunTimers)
  }

  /** Whether `handleJump` gets past its guards and calls the player. */
  predicate JumpGetsThrough(g: GameState) {
    !g.isGameOver && !g.jumpKeyHeld
  }

  /** `handleJump`, the scene's part. */
  function JumpPressed(g: GameState): GameState {
    if !JumpGetsThrough(g) then g
    else if !g.hasStarted then Started(g.(jumpKeyHeld := true))
    else g.(jumpKeyHeld := true)
  }

  /** Whether a run is going on: `handleJumpRelease` calls the player and
      `update` does its work only then. */
  predicate Running(g: GameState) {
    !g.isGameOver && g.hasStarted
  }

  /** `handleJumpRelease`, the scene's part. */
  function JumpReleased(g: GameState): GameState {
    g.(jumpKeyHeld := false)
  }

  /** `handleRestart`: `scene.restart()` runs `create` again. */
  function Restarted(g: GameState): GameState {
    if g.isGameOver then Initial else g
  }

  /** The obstacle `spawnObstacle` adds, for the canvas width `width`. */
  function NewObstacle(g: GameState, width: real, pick: nat): Entity
    requires pick < |ObstacleNames|
  {
    Entity(ObstacleNames[pick], 0, width + SpawnMargin, -(g.gameSpeed as real))
  }

  /** `spawnObstacle` with the random type `pick`. */
  function ObstacleSpawned(g: GameState, width: real, pick: nat): GameState
    requires pick < |ObstacleNames|
  {
    if g.isGameOver then g else g.(obstacles := g.obstacles + [NewObstacle(g, width, pick)])
  }

  /** Whether `spawnObstacle`, with the random number `roll`, schedules a
      second spawn 300 ms later. */
  predicate Chains(g: GameState, roll: real) {
    !g.isGameOver && roll < ChainChance && g.sprintDay > 2
  }

  /** The pickup `spawnPickup` adds: its value comes from the table. */
  function NewPickup(g: GameState, width: real, pick: nat): Entity
    requires pick < |PickupNames|
  {
    Entity(PickupNames[pick], PickupValue(PickupNames[pick]), width + SpawnMargin, -(g.gameSpeed as real))
  }

  /** `spawnPickup` with the random type `pick`. */
  function PickupSpawned(g: GameState, width: real, pick: nat): GameState
    requires pick < |PickupNames|
  {
    if g.isGameOver then g else g.(pickups := g.pickups + [NewPickup(g, width, pick)])
  }

  /** `advanceDay`. */
  function DayAdvanced(g: GameState): GameState {
    if g.isGameOver then g
    else g.(sprintDay := g.sprintDay + 1, gameSpeed := SpeedForDay(g.sprintDay + 1))
  }

  /** `gameOver`: the run ends, the timers are removed and every live entity stops. */
  function Ended(g: GameState, cause: string): GameState {
    g.(isGameOver := true, timers := [], cause := cause,
       obstacles := WithVelocityX(g.obstacles, 0.0), pickups := WithVelocityX(g.pickups, 0.0))
  }

  /** `hitObstacle` for the obstacle at index `i`. */
  function ObstacleHit(g: GameState, i: nat): GameState
    requires i < |g.obstacles|
  {
    if g.isGameOver then g else Ended(g, g.obstacles[i].kind)
  }

  /** `collectPickup` for the pickup at index `i`: there is no game-over guard,
      and the pickup stays live until its fade ends. */
  function Collected(g: GameState, i: nat): GameState
    requires i < |g.pickups|
  {
    g.(score := g.score + g.pickups[i].value, featuresShipped := g.featuresShipped + 1)
  }

  /** The end of the collect fade: the pickup at index `i` is destroyed. */
  function PickupRemoved(g: GameState, i: nat): GameState
    requires i < |g.pickups|
  {
    g.(pickups := g.pickups[..i] + g.pickups[i + 1..])
  }

  /** `update(time, delta)`, the scene's part. */
  function Framed(g: GameState, delta: real): GameState {
    if g.isGameOver || !g.hasStarted then g
    else
      var distance := g.distance + Travelled(g.gameSpeed, delta);
      var vx := -(g.gameSpeed as real);
      g.(distance := distance, score := Score(distance, g.featuresShipped),
         obstacles := MoveGroup(g.obstacles, vx), pickups := MoveGroup(g.pickups, vx))
  }

  /** The physics engine's step between frames: every live entity moves. */
  function Moved(g: GameState, dt: real): GameState {
    g.(obstacles := Drifted(g.obstacles, dt), pickups := Drifted(g.pickups, dt))
  }

  // ---- properties of the transitions ----

  lemma InitialSatisfiesInv()
    ensures Inv(Initial)
  {
  }

  /** The end of a run keeps the invariant, whatever the recorded cause. */
  lemma EndedKeepsInv(g: GameState, cause: string)
    requires Inv(g)
    ensures Inv(Ended(g, cause))
  {
    VelocityKeepsValues(g.pickups, 0.0);
  }

  /** Every event the host can deliver keeps the invariant. */
  lemma ApplyKeepsInv(g: GameState, width: real, e: Event)
    requires Inv(g)
    ensures Inv(Apply(g, width, e))
  {
    match e
    case Hit(i) =>
      if i < |g.obstacles| && !g.isGameOver {
        EndedKeepsInv(g, g.obstacles[i].kind);
      }
    case Frame(delta) =>
      VelocityKeepsValues(Visible(g.pickups), -(g.gameSpeed as real));
    case Physics(dt) =>
      DriftKeepsValues(g.pickups, dt);
    case PickupTimer(pick) =>
      if pick < |PickupNames| && !g.isGameOver {
        var p := NewPickup(g, width, pick);
        assert forall e :: e in g.pickups + [p] ==> e in g.pickups || e == p;
      }
    case FadeDone(i) =>
      if i < |g.pickups| {
        var rest := g.pickups[..i] + g.pickups[i + 1..];
        forall e | e in rest
          ensures e in g.pickups
        {
          if e in g.pickups[..i] {
            var k :| 0 <= k < i && g.pickups[..i][k] == e;
            assert g.pickups[k] == e;
          } else {
            var k :| 0 <= k < |g.pickups[i + 1..]| && g.pickups[i + 1..][k] == e;
            assert g.pickups[i + 1 + k] == e;
          }
        }
      }
    case _ =>
  }

  /** After the run has ended, timer firings, frames, jumps and hits change
      nothing and a release only clears the key flag; a collect still counts,
      since `collectPickup` has no guard. */
  lemma EndedRunIsFrozen(g: GameState, width: real, delta: real)
    requires g.isGameOver
    ensures !JumpGetsThrough(g) && JumpPressed(g) == g
    ensures !Running(g) && JumpReleased(g) == g.(jumpKeyHeld := false)
    ensures DayAdvanced(g) == g && Framed(g, delta) == g
    ensures forall roll :: !Chains(g, roll)
    ensures forall pick: nat :: pick < |ObstacleNames| ==> ObstacleSpawned(g, width, pick) == g
    ensures forall pick: nat :: pick < |PickupNames| ==> PickupSpawned(g, width, pick) == g
    ensures forall i: nat :: i < |g.obstacles| ==> ObstacleHit(g, i) == g
    ensures forall i: nat :: i < |g.pickups| ==>
      Collected(g, i).score == g.score + g.pickups[i].value &&
      Collected(g, i).featuresShipped == g.featuresShipped + 1
  {
  }

  /** The end of a run: the flag is set, the timers are gone, the cause is
      recorded and every live entity keeps its place with velocity 0. */
  lemma EndingStopsEverything(g: GameState, cause: string)
    ensures var n := Ended(g, cause);
      n.isGameOver && n.timers == [] && n.cause == cause &&
      |n.obstacles| == |g.obstacles| && |n.pickups| == |g.pickups| &&
      (forall i :: 0 <= i < |n.obstacles| ==>
         n.obstacles[i].vx == 0.0 && n.obstacles[i].x == g.obstacles[i].x && n.obstacles[i].kind == g.obstacles[i].kind) &&
      (forall i :: 0 <= i < |n.pickups| ==>
         n.pickups[i].vx == 0.0 && n.pickups[i].x == g.pickups[i].x && n.pickups[i].kind == g.pickups[i].kind)
    ensures var n := Ended(g, cause);
      n.score == g.score && n.distance == g.distance && n.sprintDay == g.sprintDay &&
      n.featuresShipped == g.featuresShipped
  {
  }

  /** Only a finished run restarts, and it restarts from day 1 at speed 200,
      with no score, nothing shipped and no entities. */
  lemma RestartResets(g: GameState)
    ensures !g.isGameOver ==> Restarted(g) == g
    ensures g.isGameOver ==>
      var n := Restarted(g);
      n.sprintDay == 1 && n.gameSpeed == BaseSpeed && n.featuresShipped == 0 && n.score == 0 &&
      n.distance == 0.0 && !n.isGameOver && !n.hasStarted && n.timers == [] &&
      n.obstacles == [] && n.pickups == []
  {
  }

  /** A jump key press is ignored after the end of a run and while the key is
      held; otherwise it marks the key held, and the first one starts the run
      with its three timers. Nothing else changes. */
  lemma JumpPressedCases(g: GameState)
    ensures !JumpGetsThrough(g) <==> g.isGameOver || g.jumpKeyHeld
    ensures !JumpGetsThrough(g) ==> JumpPressed(g) == g
    ensures JumpGetsThrough(g) && g.hasStarted ==> JumpPressed(g) == g.(jumpKeyHeld := true)
    ensures JumpGetsThrough(g) && !g.hasStarted ==>
      JumpPressed(g) == g.(jumpKeyHeld := true, hasStarted := true, timers := RunTimers)
  {
  }

  /** A release always clears the key flag and changes nothing else of the
      scene; it reaches the player only during a run. */
  lemma JumpReleasedCases(g: GameState)
    ensures !JumpReleased(g).jumpKeyHeld
    ensures JumpReleased(g).(jumpKeyHeld := g.jumpKeyHeld) == g
    ensures Running(g) <==> g.hasStarted && !g.isGameOver
  {
  }

  /** `resetGameState` clears the counters and flags and leaves the timers, the
      entity groups and the cause alone; on a scene without any of those it
      gives the state `create` produces. */
  lemma ResetClearsRun(g: GameState)
    ensures var n := Reset(g);
      n.score == 0 && n.distance == 0.0 && n.featuresShipped == 0 && n.sprintDay == 1 &&
      n.gameSpeed == BaseSpeed && !n.isGameOver && !n.hasStarted && !n.jumpKeyHeld
    ensures var n := Reset(g);
      n.timers == g.timers && n.obstacles == g.obstacles && n.pickups == g.pickups && n.cause == g.cause
    ensures g.timers == [] && g.obstacles == [] && g.pickups == [] && g.cause == "" ==> Reset(g) == Initial
  {
  }

  /** While the run goes on, a new day is exactly one more day at the ramp's
      speed; after the end it changes nothing. */
  lemma DayAdvances(g: GameState)
    ensures g.isGameOver ==> DayAdvanced(g) == g
    ensures !g.isGameOver ==>
      var n := DayAdvanced(g);
      n.sprintDay == g.sprintDay + 1 &&
      n.gameSpeed == (if 200 + 8 * n.sprintDay < 450 then 200 + 8 * n.sprintDay else 450) &&
      n.(sprintDay := g.sprintDay, gameSpeed := g.gameSpeed) == g
  {
  }

  /** Collecting a pickup ships one more feature and adds the table value of
      its type: 100 for an offer letter, 50 for a shipped feature, 25 otherwise. */
  lemma CollectCountsValue(g: GameState, i: nat)
    requires Inv(g) && i < |g.pickups|
    ensures var n := Collected(g, i);
      n.featuresShipped == g.featuresShipped + 1 &&
      n.score == g.score + PickupValue(g.pickups[i].kind) &&
      n.(score := g.score, featuresShipped := g.featuresShipped) == g
  {
    assert g.pickups[i] in g.pickups;
  }

  /** During a run, one frame adds `gameSpeed * delta / 1000` to the distance
      and rewrites the score from the distance and the features shipped. */
  lemma FrameAdvancesRun(g: GameState, delta: real)
    requires Inv(g) && delta >= 0.0 && g.hasStarted && !g.isGameOver
    ensures var n := Framed(g, delta);
      n.distance == g.distance + Travelled(g.gameSpeed, delta) && n.distance >= g.distance &&
      n.score == Score(n.distance, g.featuresShipped) &&
      n.sprintDay == g.sprintDay && n.gameSpeed == g.gameSpeed && n.featuresShipped == g.featuresShipped
  {
  }

  /** During a run, a frame keeps exactly the entities on screen and moves them
      all at the current speed. */
  lemma FrameKeepsOnScreen(g: GameState, delta: real)
    requires g.hasStarted && !g.isGameOver
    ensures MovedSurvivors(g.obstacles, Framed(g, delta).obstacles, -(g.gameSpeed as real))
    ensures MovedSurvivors(g.pickups, Framed(g, delta).pickups, -(g.gameSpeed as real))
  {
    var vx := -(g.gameSpeed as real);
    var n := Framed(g, delta);
    FramedGroups(g, delta);
    SurvivorsOf(g.obstacles, n.obstacles, vx);
    SurvivorsOf(g.pickups, n.pickups, vx);
  }

  lemma SurvivorsOf(before: seq<Entity>, after: seq<Entity>, vx: real)
    requires after == MoveGroup(before, vx)
    ensures MovedSurvivors(before, after, vx)
  {
    OnScreenWithVelocity(before, vx);
  }

  /** During a run, a frame passes each group through `MoveGroup`. */
  lemma FramedGroups(g: GameState, delta: real)
    requires g.hasStarted && !g.isGameOver
    ensures Framed(g, delta).obstacles == MoveGroup(g.obstacles, -(g.gameSpeed as real))
    ensures Framed(g, delta).pickups == MoveGroup(g.pickups, -(g.gameSpeed as real))
  {
  }

  /** A frame's score ignores the pickups' values: a collected "Offer Letter"
      raises the score by 100 until the next frame, which counts it as 25. */
  lemma FrameForgetsPickupValues(g: GameState, i: nat, delta: real)
    requires Inv(g) && delta >= 0.0 && g.hasStarted && !g.isGameOver && i < |g.pickups|
    ensures Collected(g, i).score == g.score + g.pickups[i].value
    ensures Framed(Collected(g, i), delta).score == Framed(g, delta).score + 25
  {
  }

  /** Nothing stops the engine from reporting the overlap of the same pickup
      again while it fades: each report counts as one more feature shipped. */
  lemma CollectingTwiceCountsTwice(g: GameState, i: nat)
    requires i < |g.pickups|
    ensures var twice := Collected(Collected(g, i), i);
      twice.featuresShipped == g.featuresShipped + 2 && twice.score == g.score + 2 * g.pickups[i].value
  {
  }

  /** On every day after the first the speed is the ramp's value, and it never
      leaves 200..450. */
  lemma SpeedFollowsDay(g: GameState)
    requires Inv(g)
    ensures BaseSpeed <= g.gameSpeed <= MaxSpeed
    ensures g.sprintDay > 1 ==> g.gameSpeed == SpeedForDay(g.sprintDay)
    ensures !g.isGameOver ==> DayAdvanced(g).gameSpeed == SpeedForDay(g.sprintDay + 1) >= g.gameSpeed
  {
    if !g.isGameOver && g.sprintDay > 1 {
      SpeedRamp(g.sprintDay, g.sprintDay + 1);
    }
  }

  // ---- runs of events ----

  /** What the host can deliver to the scene. */
  datatype Event =
    | Press(onGround: bool)
    | Release
    | RestartKey
    | ObstacleTimer(pick: nat)
    | PickupTimer(pick: nat)
    | DayTimer
    | Hit(index: nat)
    | Collect(index: nat)
    | FadeDone(index: nat)
    | Frame(delta: real)
    | Physics(dt: real)

  /** The scene's part of one event. A timer fires only while it is
      registered (the chained spawn is scheduled during a run, when the
      obstacle timer is registered too, and `scene.restart` drops it with the
      clock); an event naming an entity or a type that does not exist leaves
      the state alone, as does a negative time. */
  function Apply(g: GameState, width: real, e: Event): GameState {
    match e
    case Press(_) => JumpPressed(g)
    case Release => JumpReleased(g)
    case RestartKey => Restarted(g)
    case ObstacleTimer(pick) =>
      if pick < |ObstacleNames| && Scheduled(g.timers, SpawnObstacleEvent) then ObstacleSpawned(g, width, pick) else g
    case PickupTimer(pick) =>
      if pick < |PickupNames| && Scheduled(g.timers, SpawnPickupEvent) then PickupSpawned(g, width, pick) else g
    case DayTimer => if Scheduled(g.timers, AdvanceDayEvent) then DayAdvanced(g) else g
    case Hit(i) => if i < |g.obstacles| then ObstacleHit(g, i) else g
    case Collect(i) => if i < |g.pickups| then Collected(g, i) else g
    case FadeDone(i) => if i < |g.pickups| then PickupRemoved(g, i) else g
    case Frame(delta) => if delta >= 0.0 then Framed(g, delta) else g
    case Physics(dt) => if dt >= 0.0 then Moved(g, dt) else g
  }

  function Run(g: GameState, width: real, events: seq<Event>): GameState
    decreases |events|
  {
    if events == [] then g else Run(Apply(g, width, events[0]), width, events[1..])
  }

  /** Every run of events keeps the invariant. */
  lemma {:induction false} RunKeepsInv(g: GameState, width: real, events: seq<Event>)
    requires Inv(g)
    ensures Inv(Run(g, width, events))
    decreases |events|
  {
    if events != [] {
      ApplyKeepsInv(g, width, events[0]);
      RunKeepsInv(Apply(g, width, events[0]), width, events[1..]);
    }
  }

  /** Outside a run no timer is registered, so timer events change nothing:
      before the first jump nothing spawns and no day passes. */
  lemma IdleIgnoresTimers(g: GameState, width: real)
    requires Inv(g) && !Running(g)
    ensures forall pick: nat :: Apply(g, width, ObstacleTimer(pick)) == g
    ensures forall pick: nat :: Apply(g, width, PickupTimer(pick)) == g
    ensures Apply(g, width, DayTimer) == g
  {
  }

  /** During a run the three timers are registered and fire their callbacks. */
  lemma TimersFireDuringRun(g: GameState, width: real)
    requires Inv(g) && Running(g)
    ensures forall pick: nat :: pick < |ObstacleNames| ==>
      Apply(g, width, ObstacleTimer(pick)) == ObstacleSpawned(g, width, pick)
    ensures forall pick: nat :: pick < |PickupNames| ==>
      Apply(g, width, PickupTimer(pick)) == PickupSpawned(g, width, pick)
    ensures Apply(g, width, DayTimer) == DayAdvanced(g)
  {
    assert g.timers[0].callback == SpawnObstacleEvent;
    assert g.timers[1].callback == SpawnPickupEvent;
    assert g.timers[2].callback == AdvanceDayEvent;
  }

  /** An obstacle the engine has carried past x = -50 is destroyed by the next
      frame: the first obstacle of a run, 4 s of physics later, is gone. */
  lemma OffscreenObstacleIsDestroyed()
    ensures Run(Initial, 640.0, [Press(true), ObstacleTimer(0), Physics(4000.0), Frame(0.0)]).obstacles == []
  {
    var g1 := Apply(Initial, 640.0, Press(true));
    assert g1.timers[0].callback == SpawnObstacleEvent;
    var g2 := Apply(g1, 640.0, ObstacleTimer(0));
    var o := Entity(ObstacleNames[0], 0, 660.0, -200.0);
    assert g2.obstacles == [o];
    var g3 := Apply(g2, 640.0, Physics(4000.0));
    assert g3.obstacles == [o.(x := -140.0)];
    var g4 := Apply(g3, 640.0, Frame(0.0));
    assert !OnScreen(o.(x := -140.0));
    assert Visible(g3.obstacles) == [];
    assert g4.obstacles == [];
    var events := [Press(true), ObstacleTimer(0), Physics(4000.0), Frame(0.0)];
    assert events[1..] == [ObstacleTimer(0), Physics(4000.0), Frame(0.0)];
    assert events[1..][1..] == [Physics(4000.0), Frame(0.0)];
    assert events[1..][1..][1..] == [Frame(0.0)];
    assert Run(g4, 640.0, []) == g4;
  }

  /** Once a run has ended, no event short of a restart brings it back: the day,
      the speed and the distance stay as they were and no timer runs. */
  lemma {:induction false} EndedStaysEnded(g: GameState, width: real, events: seq<Event>)
    requires g.isGameOver && g.timers == []
    requires forall k :: 0 <= k < |events| ==> !events[k].RestartKey?
    ensures var n := Run(g, width, events);
      n.isGameOver && n.timers == [] &&
      n.sprintDay == g.sprintDay && n.gameSpeed == g.gameSpeed && n.distance == g.distance
    decreases |events|
  {
    if events != [] {
      assert !events[0].RestartKey?;
      var n := Apply(g, width, events[0]);
      assert n.isGameOver && n.timers == [] &&
        n.sprintDay == g.sprintDay && n.gameSpeed == g.gameSpeed && n.distance == g.distance;
      assert forall k :: 0 <= k < |events[1..]| ==> events[1..][k] == events[k + 1];
      EndedStaysEnded(n, width, events[1..]);
    }
  }

  // ---- the scene object ----

  class Scene {
    const width: real
    var player: Player

    var score: int
    var distance: real
    var featuresShipped: nat
    var sprintDay: int
    var gameSpeed: int
    var isGameOver: bool
    var hasStarted: bool
    var jumpKeyHeld: bool
    var timers: seq<Timer>
    var obstacles: seq<Entity>
    var pickups: seq<Entity>
    var cause: string

    function Snapshot(): GameState
      reads this
    {
      GameState(score, distance, featuresShipped, sprintDay, gameSpeed, isGameOver, hasStarted,
                jumpKeyHeld, timers, obstacles, pickups, cause)
    }

    ghost predicate Valid()
      reads this, player
    {
      player.Valid() && Inv(Snapshot())
    }

    /** `create`, for a canvas `width` wide. */
    constructor (width: real)
      ensures Valid() && Snapshot() == Initial && this.width == width
      ensures fresh(player) && player.State() == Resting
    {
      this.width := width;
      player := new Player();
      timers, obstacles, pickups, cause := [], [], [], "";
      score, distance, featuresShipped, sprintDay, gameSpeed := 0, 0.0, 0, 1, BaseSpeed;
      isGameOver, hasStarted, jumpKeyHeld := false, false, false;
    }

    /** `resetGameState`. */
    method ResetGameState()
      modifies this`score, this`distance, this`featuresShipped, this`sprintDay, this`gameSpeed,
              this`isGameOver, this`hasStarted, this`jumpKeyHeld
      ensures player == old(player)
      ensures Snapshot() == Reset(old(Snapshot()))
    {
      score, distance, featuresShipped, sprintDay, gameSpeed := 0, 0.0, 0, 1, BaseSpeed;
      isGameOver, hasStarted, jumpKeyHeld := false, false, false;
    }

    /** `scene.restart()`: the scene is shut down and `create` runs again, with
        a new player, no entities and no timers. */
    method Recreate()
      modifies this
      ensures Valid() && Snapshot() == Initial
      ensures fresh(player) && player.State() == Resting
    {
      player := new Player();
      timers, obstacles, pickups, cause := [], [], [], "";
      ResetGameState();
    }

    /** `handleJump`. */
    method HandleJump(onGround: bool)
      requires Valid()
      modifies this`jumpKeyHeld, this`hasStarted, this`timers, player
      ensures Valid() && player == old(player)
      ensures Snapshot() == JumpPressed(old(Snapshot()))
      ensures player.State() ==
        if JumpGetsThrough(old(Snapshot())) then AfterJump(old(player.State()), onGround).0 else old(player.State())
    {
      ApplyKeepsInv(Snapshot(), width, Press(onGround));
      if isGameOver {
        return;
      }
      if jumpKeyHeld {
        return;
      }
      jumpKeyHeld := true;
      if !hasStarted {
        StartGame();
      }
      var _ := player.Jump(onGround);
    }

    /** `handleJumpRelease`. */
    method HandleJumpRelease()
      requires Valid()
      modifies this`jumpKeyHeld, player
      ensures Valid() && player == old(player)
      ensures Snapshot() == JumpReleased(old(Snapshot()))
      ensures player.State() ==
        if Running(old(Snapshot())) then AfterRelease(old(player.State())) else old(player.State())
    {
      ApplyKeepsInv(Snapshot(), width, Release);
      jumpKeyHeld := false;
      if isGameOver || !hasStarted {
        return;
      }
      player.ReleaseJump();
    }

    /** `handleRestart`. */
    method HandleRestart()
      requires Valid()
      modifies this
      ensures Valid() && Snapshot() == Restarted(old(Snapshot()))
      ensures !old(isGameOver) ==> player == old(player)
      ensures old(isGameOver) ==> fresh(player) && player.State() == Resting
    {
      if isGameOver {
        Recreate();
      }
    }

    /** `startGame`. */
    method StartGame()
      modifies this`hasStarted, this`timers
      ensures player == old(player)
      ensures Snapshot() == Started(old(Snapshot()))
    {
      hasStarted := true;
      timers := RunTimers;
    }

    /** `spawnObstacle`, with the random type `pick` and the random number
        `roll`. The result says whether a second, delayed spawn was scheduled;
        `FireChainedSpawn` is that delayed call. */
    method SpawnObstacle(pick: nat, roll: real) returns (chained: bool)
      requires Valid() && pick < |ObstacleNames|
      modifies this`obstacles
      ensures Valid() && player == old(player)
      ensures Snapshot() == ObstacleSpawned(old(Snapshot()), width, pick)
      ensures chained == Chains(old(Snapshot()), roll)
    {
      ApplyKeepsInv(Snapshot(), width, ObstacleTimer(pick));
      if isGameOver {
        return false;
      }
      obstacles := obstacles + [Entity(ObstacleNames[pick], 0, width + SpawnMargin, -(gameSpeed as real))];
      chained := roll < ChainChance && sprintDay > 2;
    }

    /** The delayed call scheduled by a chained spawn: it spawns only if the run
        is still going. */
    method FireChainedSpawn(pick: nat, roll: real) returns (chained: bool)
      requires Valid() && pick < |ObstacleNames|
      modifies this`obstacles
      ensures Valid() && player == old(player)
      ensures Snapshot() == ObstacleSpawned(old(Snapshot()), width, pick)
      ensures chained == Chains(old(Snapshot()), roll)
    {
      chained := false;
      if !isGameOver {
        chained := SpawnObstacle(pick, roll);
      }
    }

    /** `spawnPickup`, with the random type `pick`. */
    method SpawnPickup(pick: nat)
      requires Valid() && pick < |PickupNames|
      modifies this`pickups
      ensures Valid() && player == old(player)
      ensures Snapshot() == PickupSpawned(old(Snapshot()), width, pick)
    {
      ApplyKeepsInv(Snapshot(), width, PickupTimer(pick));
      if isGameOver {
        return;
      }
      var pickupType := PickupNames[pick];
      var value := PickupValue(pickupType);
      pickups := pickups + [Entity(pickupType, value, width + SpawnMargin, -(gameSpeed as real))];
    }

    /** `advanceDay`. */
    method AdvanceDay()
      requires Valid()
      modifies this`sprintDay, this`gameSpeed
      ensures Valid() && player == old(player)
      ensures Snapshot() == DayAdvanced(old(Snapshot()))
    {
      ApplyKeepsInv(Snapshot(), width, DayTimer);
      if isGameOver {
        return;
      }
      sprintDay := sprintDay + 1;
      gameSpeed := SpeedForDay(sprintDay);
    }

    /** `hitObstacle` for the obstacle at index `i`. */
    method HitObstacle(i: nat)
      requires Valid() && i < |obstacles|
      modifies this`isGameOver, this`timers, this`cause, this`obstacles, this`pickups
      ensures Valid() && player == old(player)
      ensures Snapshot() == ObstacleHit(old(Snapshot()), i)
    {
      if isGameOver {
        return;
      }
      GameOver(obstacles[i].kind);
    }

    /** `gameOver`. The player keeps its state. */
    method GameOver(cause: string)
      requires Valid()
      modifies this`isGameOver, this`timers, this`cause, this`obstacles, this`pickups
      ensures Valid() && player == old(player)
      ensures Snapshot() == Ended(old(Snapshot()), cause)
    {
      ghost var before := Snapshot();
      isGameOver, timers, this.cause := true, [], cause;
      StopEntities();
      assert Snapshot() == Ended(before, cause);
      EndedKeepsInv(before, cause);
    }

    /** The velocity loops of `gameOver`. */
    method StopEntities()
      modifies this`obstacles, this`pickups
      ensures obstacles == WithVelocityX(old(obstacles), 0.0)
      ensures pickups == WithVelocityX(old(pickups), 0.0)
    {
      obstacles := SetVelocitiesX(obstacles, 0.0);
      pickups := SetVelocitiesX(pickups, 0.0);
    }

    /** `collectPickup` for the pickup at index `i`. */
    method CollectPickup(i: nat)
      requires Valid() && i < |pickups|
      modifies this`score, this`featuresShipped
      ensures Valid() && player == old(player)
      ensures Snapshot() == Collected(old(Snapshot()), i)
    {
      ApplyKeepsInv(Snapshot(), width, Collect(i));
      var p := pickups[i];
      score := score + p.value;
      featuresShipped := featuresShipped + 1;
    }

    /** The fade's completion callback for the pickup at index `i`. */
    method RemovePickup(i: nat)
      requires Valid() && i < |pickups|
      modifies this`pickups
      ensures Valid() && player == old(player)
      ensures Snapshot() == PickupRemoved(old(Snapshot()), i)
    {
      ApplyKeepsInv(Snapshot(), width, FadeDone(i));
      pickups := pickups[..i] + pickups[i + 1..];
    }

    /** The physics engine's step of `dt` ms between frames, which moves every
        live obstacle and pickup by its velocity. */
    method EngineStep(dt: real)
      requires Valid() && dt >= 0.0
      modifies this`obstacles, this`pickups
      ensures Valid() && player == old(player)
      ensures Snapshot() == Moved(old(Snapshot()), dt)
    {
      ApplyKeepsInv(Snapshot(), width, Physics(dt));
      obstacles := DriftAll(obstacles, dt);
      pickups := DriftAll(pickups, dt);
    }

    /** `update(time, delta)`: the player's jump update, then the scene's
        part, `MoveRun`. */
    method Update(delta: real, onGround: bool)
      requires Valid() && delta >= 0.0
      modifies this`distance, this`score, this`obstacles, this`pickups, player
      ensures Valid() && player == old(player)
      ensures Snapshot() == Framed(old(Snapshot()), delta)
      ensures player.State() ==
        if Running(old(Snapshot())) then AfterUpdate(old(player.State()), delta, onGround)
        else old(player.State())
    {
      if isGameOver || !hasStarted {
        return;
      }
      player.UpdateJump(delta, onGround);
      MoveRun(delta);
    }

    /** The scene's part of a frame during a run: the distance and the score
        grow, the entities that left the screen are destroyed and the rest
        move at the current speed. */
    method MoveRun(delta: real)
      requires Inv(Snapshot()) && delta >= 0.0 && hasStarted && !isGameOver
      modifies this`distance, this`score, this`obstacles, this`pickups
      ensures Inv(Snapshot())
      ensures Snapshot() == Framed(old(Snapshot()), delta)
    {
      ghost var before := Snapshot();
      ApplyKeepsInv(before, width, Frame(delta));
      var newDistance := distance + Travelled(gameSpeed, delta);
      var vx := -(gameSpeed as real);
      var keptObstacles := RemoveOffscreen(obstacles);
      var keptPickups := RemoveOffscreen(pickups);
      var movedObstacles := SetVelocitiesX(keptObstacles, vx);
      var movedPickups := SetVelocitiesX(keptPickups, vx);
      assert movedObstacles == MoveGroup(before.obstacles, vx);
      assert movedPickups == MoveGroup(before.pickups, vx);
      distance, score := newDistance, Score(newDistance, featuresShipped);
      obstacles, pickups := movedObstacles, movedPickups;
    }
  }

  // ---- runs of the session ----

  /** Starting a run and letting three days pass: day 4, speed 200 + 8 * 4. */
  method SprintScenario() returns (day: int, speed: int)
    ensures day == 4 && speed == 232
  {
    var scene := new Scene(640.0);
    scene.HandleJump(true);
    scene.AdvanceDay();
    scene.AdvanceDay();
    scene.AdvanceDay();
    day, speed := scene.sprintDay, scene.gameSpeed;
  }

  /** After an obstacle hit every live entity stands still and later timer
      firings and frames change nothing. */
  method BurnoutScenario() returns (frozen: bool, quiet: bool)
    ensures frozen && quiet
  {
    var scene := new Scene(640.0);
    scene.HandleJump(true);
    scene.SpawnPickup(2);
    var _ := scene.SpawnObstacle(0, 0.9);
    scene.HitObstacle(0);
    frozen := scene.obstacles[0].vx == 0.0 && scene.pickups[0].vx == 0.0;
    var before := scene.Snapshot();
    var _ := scene.SpawnObstacle(1, 0.1);
    scene.SpawnPickup(0);
    scene.AdvanceDay();
    scene.Update(16.0, true);
    quiet := scene.Snapshot() == before;
  }

  /** R after a burnout brings back day 1 at speed 200, with no score and
      nothing shipped. */
  method RestartScenario() returns (day: int, speed: int, shipped: nat, score: int)
    ensures day == 1 && speed == 200 && shipped == 0 && score == 0
  {
    var scene := new Scene(640.0);
    scene.HandleJump(true);
    scene.AdvanceDay();
    scene.SpawnPickup(1);
    scene.CollectPickup(0);
    var _ := scene.SpawnObstacle(3, 0.5);
    scene.HitObstacle(0);
    scene.HandleRestart();
    day, speed, shipped, score := scene.sprintDay, scene.gameSpeed, scene.featuresShipped, scene.score;
  }

  /** An obstacle carried past the left edge by the engine is destroyed by the
      next frame. */
  method DeadlineScenario() returns (spawned: nat, left: nat)
    ensures spawned == 1 && left == 0
  {
    var scene := new Scene(640.0);
    scene.HandleJump(true);
    var _ := scene.SpawnObstacle(0, 0.9);
    spawned := |scene.obstacles|;
    scene.EngineStep(4000.0);
    assert scene.obstacles[0].x == -140.0;
    scene.Update(0.0, true);
    left := |scene.obstacles|;
  }

  /** An "Offer Letter" adds 100 to the score at once, but the next frame
      rewrites the score from the distance and 25 per feature. */
  method OfferLetterScenario() returns (afterCollect: int, afterFrame: int)
    ensures afterCollect == 100 && afterFrame == 25
  {
    var scene := new Scene(640.0);
    scene.HandleJump(true);
    scene.SpawnPickup(2);
    scene.CollectPickup(0);
    afterCollect := scene.score;
    scene.Update(0.0, true);
    afterFrame := scene.score;
  }
}
