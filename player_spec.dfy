/** The player's per-frame state machine as functions on values. Each
    function is the meaning of one method of Player (module PlayerEntity),
    which is proved to change its fields exactly as the function says. The
    environment (standing, touching a wall, touching the goal) and the keys
    are per-frame inputs; sounds and the win signal are recorded as events. */
module PlayerSpec {
  import opened Physics

  /** A side effect the player requests: a sound, or the level being won. */
  datatype Event = JumpSound | LandSound | LevelWon

  /** The four countdowns, in seconds: grace windows for the ground and the
      two walls, and the remembered jump press. */
  datatype Timers = Timers(
    onGroundCount: real,
    onLeftWallCount: real,
    onRightWallCount: real,
    bufferedJumpCount: real)

  const ZeroTimers := Timers(0.0, 0.0, 0.0, 0.0)

  /** Everything a frame can change, plus the controlledByPlayer switch and
      the events requested so far. */
  datatype PlayerState = PlayerState(
    dx: real,
    dy: real,
    facingDir: Facing,
    animCount: real,
    xDampAmt: real,
    timers: Timers,
    controlledByPlayer: bool,
    events: seq<Event>)

  /** What the collision world answers about the player this frame. */
  datatype Surroundings = Surroundings(
    standing: bool,
    againstLeftWall: bool,
    againstRightWall: bool,
    touchingGoal: bool)

  /** What the keyboard says this frame: the jump press edge and the two
      held direction keys. */
  datatype Keys = Keys(jumpPressedThisFrame: bool, leftHeld: bool, rightHeld: bool)

  /** The keys of an entity that is not controlled by the player. */
  const NullKeys := Keys(false, false, false)

  /** One simulated frame's inputs. */
  datatype Frame = Frame(env: Surroundings, keys: Keys, dt: real)

  // ---------------------------------------------------------------------
  // Timers

  /** A countdown moves only while it is positive. */
  function Countdown(c: real, dt: real): real {
    if c > 0.0 then c - dt else c
  }

  /** The timer part of a frame before the jump is resolved: every positive
      timer runs down by dt, each contact re-arms its grace window, and a
      jump press arms the buffer. */
  function TimerStep(tm: Timers, env: Surroundings, jumpPressed: bool, dt: real): (r: Timers)
    ensures env.standing ==> r.onGroundCount == COYOTE_TIME_SECS
    ensures env.againstLeftWall ==> r.onLeftWallCount == COYOTE_TIME_SECS
    ensures env.againstRightWall ==> r.onRightWallCount == COYOTE_TIME_SECS
    ensures jumpPressed ==> r.bufferedJumpCount == BUFFER_JUMP_TIME_SECS
    ensures !env.standing && tm.onGroundCount <= 0.0 ==> r.onGroundCount == tm.onGroundCount
    ensures !env.againstLeftWall && tm.onLeftWallCount <= 0.0 ==> r.onLeftWallCount == tm.onLeftWallCount
    ensures !env.againstRightWall && tm.onRightWallCount <= 0.0 ==> r.onRightWallCount == tm.onRightWallCount
    ensures !jumpPressed && tm.bufferedJumpCount <= 0.0 ==> r.bufferedJumpCount == tm.bufferedJumpCount
    ensures !env.standing && tm.onGroundCount > 0.0 ==> r.onGroundCount == tm.onGroundCount - dt
    ensures !env.againstLeftWall && tm.onLeftWallCount > 0.0 ==> r.onLeftWallCount == tm.onLeftWallCount - dt
    ensures !env.againstRightWall && tm.onRightWallCount > 0.0 ==> r.onRightWallCount == tm.onRightWallCount - dt
    ensures !jumpPressed && tm.bufferedJumpCount > 0.0 ==> r.bufferedJumpCount == tm.bufferedJumpCount - dt
  {
    var ground := Countdown(tm.onGroundCount, dt);
    var left := Countdown(tm.onLeftWallCount, dt);
    var right := Countdown(tm.onRightWallCount, dt);
    var buffer := Countdown(tm.bufferedJumpCount, dt);
    Timers(
      if env.standing then COYOTE_TIME_SECS else ground,
      if env.againstLeftWall then COYOTE_TIME_SECS else left,
      if env.againstRightWall then COYOTE_TIME_SECS else right,
      if jumpPressed then BUFFER_JUMP_TIME_SECS else buffer)
  }

  // ---------------------------------------------------------------------
  // Jumping

  /** Which jump, if any, a frame performs. */
  datatype Takeoff = NoJump | FromGround | FromLeftWall | FromRightWall

  /** While a jump is buffered, the first open grace window wins, in the
      order ground, left wall, right wall. With no open window the buffer
      is kept. */
  function ChooseJump(tm: Timers): (k: Takeoff)
    ensures k != NoJump <==>
              tm.bufferedJumpCount > 0.0
              && (tm.onGroundCount > 0.0 || tm.onLeftWallCount > 0.0 || tm.onRightWallCount > 0.0)
    ensures k == FromGround <==> tm.bufferedJumpCount > 0.0 && tm.onGroundCount > 0.0
    ensures k == FromLeftWall <==>
              tm.bufferedJumpCount > 0.0 && tm.onGroundCount <= 0.0 && tm.onLeftWallCount > 0.0
    ensures k == FromRightWall <==>
              tm.bufferedJumpCount > 0.0 && tm.onGroundCount <= 0.0 && tm.onLeftWallCount <= 0.0
              && tm.onRightWallCount > 0.0
  {
    if tm.bufferedJumpCount > 0.0 then
      if tm.onGroundCount > 0.0 then FromGround
      else if tm.onLeftWallCount > 0.0 then FromLeftWall
      else if tm.onRightWallCount > 0.0 then FromRightWall
      else NoJump
    else NoJump
  }

  /** Player.jump: launch upwards, ask for the jump sound and close every
      grace window and the buffer. */
  function Jump(s: PlayerState, t: Tuning): PlayerState {
    s.(dy := -t.jumpSpeed, timers := ZeroTimers, events := s.events + [JumpSound])
  }

  /** The jump-resolution step of Player.update. A wall jump first kicks the
      player away from the wall at full run speed and turns it that way. */
  function ResolveJump(s: PlayerState, t: Tuning): (r: PlayerState)
    ensures ChooseJump(s.timers) == NoJump ==> r == s
    ensures ChooseJump(s.timers) != NoJump ==>
              r.dy == -t.jumpSpeed && r.timers == ZeroTimers && r.events == s.events + [JumpSound]
    ensures ChooseJump(s.timers) == FromGround ==> r.dx == s.dx && r.facingDir == s.facingDir
    ensures ChooseJump(s.timers) == FromLeftWall ==> r.dx == t.runSpeed && r.facingDir == Right
    ensures ChooseJump(s.timers) == FromRightWall ==> r.dx == -t.runSpeed && r.facingDir == Left
    ensures r.animCount == s.animCount && r.xDampAmt == s.xDampAmt
    ensures r.controlledByPlayer == s.controlledByPlayer
  {
    match ChooseJump(s.timers)
    case NoJump => s
    case FromGround => Jump(s, t)
    case FromLeftWall => Jump(s.(dx := t.runSpeed, facingDir := Right), t)
    case FromRightWall => Jump(s.(dx := -t.runSpeed, facingDir := Left), t)
  }

  // ---------------------------------------------------------------------
  // Horizontal control

  /** The acceleration used for steering and for damping. */
  function Accel(t: Tuning, standing: bool): real {
    if standing then t.groundAccel else t.airAccel
  }

  /** Player.moveLeft: accelerate leftwards, never past -runSpeed, and face left. */
  function MoveLeft(s: PlayerState, t: Tuning, standing: bool, dt: real): (r: PlayerState)
    ensures r.dx >= -t.runSpeed
    ensures s.dx - Accel(t, standing) * dt >= -t.runSpeed ==> r.dx == s.dx - Accel(t, standing) * dt
    ensures s.dx - Accel(t, standing) * dt < -t.runSpeed ==> r.dx == -t.runSpeed
    ensures dt >= 0.0 && Accel(t, standing) >= 0.0 && s.dx >= -t.runSpeed ==> r.dx <= s.dx
    ensures r.facingDir == Left
    ensures r == s.(dx := r.dx, facingDir := Left)
  {
    var dx := s.dx - Accel(t, standing) * dt;
    s.(dx := if dx < -t.runSpeed then -t.runSpeed else dx, facingDir := Left)
  }

  /** Player.moveRight: accelerate rightwards, never past runSpeed, and face right. */
  function MoveRight(s: PlayerState, t: Tuning, standing: bool, dt: real): (r: PlayerState)
    ensures r.dx <= t.runSpeed
    ensures s.dx + Accel(t, standing) * dt <= t.runSpeed ==> r.dx == s.dx + Accel(t, standing) * dt
    ensures s.dx + Accel(t, standing) * dt > t.runSpeed ==> r.dx == t.runSpeed
    ensures dt >= 0.0 && Accel(t, standing) >= 0.0 && s.dx <= t.runSpeed ==> r.dx >= s.dx
    ensures r.facingDir == Right
    ensures r == s.(dx := r.dx, facingDir := Right)
  {
    var dx := s.dx + Accel(t, standing) * dt;
    s.(dx := if dx > t.runSpeed then t.runSpeed else dx, facingDir := Right)
  }

  /** Player.dampX, the part this file adds: choose the damping rate. */
  function DampX(s: PlayerState, t: Tuning, standing: bool): PlayerState {
    s.(xDampAmt := Accel(t, standing))
  }

  /** The three horizontal actions of a frame. */
  datatype Steering = SteerLeft | SteerRight | Damp

  /** Left alone steers left, right alone steers right; neither or both damps. */
  function ChooseSteering(left: bool, right: bool): (a: Steering)
    ensures a == SteerLeft <==> left && !right
    ensures a == SteerRight <==> right && !left
    ensures a == Damp <==> left == right
  {
    if left && !right then SteerLeft
    else if right && !left then SteerRight
    else Damp
  }

  /** The horizontal step of Player.update: exactly one of moveLeft,
      moveRight and dampX runs. */
  function Steer(s: PlayerState, t: Tuning, standing: bool, keys: Keys, dt: real): PlayerState {
    match ChooseSteering(keys.leftHeld, keys.rightHeld)
    case SteerLeft => MoveLeft(s, t, standing, dt)
    case SteerRight => MoveRight(s, t, standing, dt)
    case Damp => DampX(s, t, standing)
  }

  // ---------------------------------------------------------------------
  // Gravity and landing

  /** Ease v halfway down towards limit when it is above it. The result
      stays strictly above the limit and strictly below v. */
  function SoftClamp(v: real, limit: real): (r: real)
    ensures v > limit ==> r - limit == (v - limit) / 2.0
    ensures v > limit ==> limit < r < v
    ensures v <= limit ==> r == v
  {
    if v > limit then v - 0.5 * (v - limit) else v
  }

  /** Player.applyGravity: against a wall the fall speed eases towards
      wallSlideSpeed, elsewhere towards maxFallSpeed; then gravity acts. */
  function ApplyGravity(s: PlayerState, t: Tuning, againstLeftWall: bool, againstRightWall: bool,
                        dt: real): PlayerState
  {
    var limit := if againstLeftWall || againstRightWall then t.wallSlideSpeed else t.maxFallSpeed;
    s.(dy := SoftClamp(s.dy, limit) + t.gravity * dt)
  }

  /** Player.onDownCollision, the part this file adds: a hard landing asks
      for the land sound. */
  function OnDownCollision(s: PlayerState, t: Tuning): (r: PlayerState)
    ensures r.events == s.events + [LandSound] || r.events == s.events
    ensures |r.events| == |s.events| + 1 <==> s.dy > 0.5 * t.jumpSpeed
    ensures r == s.(events := r.events)
  {
    if s.dy > 0.5 * t.jumpSpeed then s.(events := s.events + [LandSound]) else s
  }

  // ---------------------------------------------------------------------
  // A whole frame

  /** The keys the player actually reads: the keyboard when controlled by
      the player, the null keys otherwise. */
  function EffectiveKeys(s: PlayerState, keys: Keys): Keys {
    if s.controlledByPlayer then keys else NullKeys
  }

  /** The start of Player.update: the animation clock advances, and the
      timers run down, are re-armed and take the jump press. */
  function BeginFrame(s: PlayerState, f: Frame): PlayerState {
    var keys := EffectiveKeys(s, f.keys);
    s.(animCount := s.animCount + f.dt,
       timers := TimerStep(s.timers, f.env, keys.jumpPressedThisFrame, f.dt))
  }

  /** The end of Player.update: touching the goal wins the level. */
  function CheckGoal(s: PlayerState, touchingGoal: bool): PlayerState {
    if touchingGoal then s.(events := s.events + [LevelWon]) else s
  }

  /** Player.update, without the position update against the tiles: the
      animation clock, the timers, the jump, the steering, gravity and the
      goal check, in that order. */
  function Update(s: PlayerState, t: Tuning, f: Frame): PlayerState {
    var keys := EffectiveKeys(s, f.keys);
    var s1 := BeginFrame(s, f);
    var s2 := ResolveJump(s1, t);
    var s3 := Steer(s2, t, f.env.standing, keys, f.dt);
    var s4 := ApplyGravity(s3, t, f.env.againstLeftWall, f.env.againstRightWall, f.dt);
    CheckGoal(s4, f.env.touchingGoal)
  }

  /** A sequence of frames, one after the other. */
  function Run(s: PlayerState, t: Tuning, fs: seq<Frame>): PlayerState
    decreases |fs|
  {
    if fs == [] then s else Run(Update(s, t, fs[0]), t, fs[1..])
  }
}
