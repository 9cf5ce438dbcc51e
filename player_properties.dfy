/** Properties of the player's state machine that span one or several
    frames: what a frame does to the timers and the events, the coyote-time
    window, the jump buffer, and the run-speed bound. */
module PlayerProperties {
  import opened Physics
  import opened PlayerSpec

  // ---------------------------------------------------------------------
  // The timer projection of a frame

  /** The jump a frame performs, decided from the timers before the frame. */
  function FrameTakeoff(tm: Timers, controlledByPlayer: bool, f: Frame): Takeoff {
    var pressed := controlledByPlayer && f.keys.jumpPressedThisFrame;
    ChooseJump(TimerStep(tm, f.env, pressed, f.dt))
  }

  /** The four timers after a frame: the countdown step, then all zero when
      the frame jumped. */
  function FrameTimers(tm: Timers, controlledByPlayer: bool, f: Frame): Timers {
    var pressed := controlledByPlayer && f.keys.jumpPressedThisFrame;
    var next := TimerStep(tm, f.env, pressed, f.dt);
    if ChooseJump(next) == NoJump then next else ZeroTimers
  }

  /** The timers after a sequence of frames. */
  function RunTimers(tm: Timers, controlledByPlayer: bool, fs: seq<Frame>): Timers
    decreases |fs|
  {
    if fs == [] then tm else RunTimers(FrameTimers(tm, controlledByPlayer, fs[0]), controlledByPlayer, fs[1..])
  }

  /** A frame depends, for its timers and its jump, on the timers alone; it
      asks for the jump sound exactly when it jumps and for the win exactly
      when the goal is touched. */
  lemma UpdateTimersAndEvents(s: PlayerState, t: Tuning, f: Frame)
    ensures Update(s, t, f).timers == FrameTimers(s.timers, s.controlledByPlayer, f)
    ensures Update(s, t, f).controlledByPlayer == s.controlledByPlayer
    ensures Update(s, t, f).events ==
              s.events
              + (if FrameTakeoff(s.timers, s.controlledByPlayer, f) != NoJump then [JumpSound] else [])
              + (if f.env.touchingGoal then [LevelWon] else [])
  {
  }

  /** Running frames on the whole state runs them on the timers. */
  lemma {:induction false} RunTimersAgree(s: PlayerState, t: Tuning, fs: seq<Frame>)
    ensures Run(s, t, fs).timers == RunTimers(s.timers, s.controlledByPlayer, fs)
    ensures Run(s, t, fs).controlledByPlayer == s.controlledByPlayer
    decreases |fs|
  {
    if fs != [] {
      UpdateTimersAndEvents(s, t, fs[0]);
      RunTimersAgree(Update(s, t, fs[0]), t, fs[1..]);
    }
  }

  // ---------------------------------------------------------------------
  // A countdown over several frames

  /** The sum of the frames' time steps. */
  function TotalDt(fs: seq<Frame>): real
    decreases |fs|
  {
    if fs == [] then 0.0 else fs[0].dt + TotalDt(fs[1..])
  }

  /** A single countdown carried through the frames. */
  function Drain(c: real, fs: seq<Frame>): real
    decreases |fs|
  {
    if fs == [] then c else Drain(Countdown(c, fs[0].dt), fs[1..])
  }

  predicate NonNegativeSteps(fs: seq<Frame>) {
    forall i :: 0 <= i < |fs| ==> fs[i].dt >= 0.0
  }

  lemma {:induction false} TotalDtNonNegative(fs: seq<Frame>)
    requires NonNegativeSteps(fs)
    ensures TotalDt(fs) >= 0.0
    decreases |fs|
  {
    if fs != [] {
      assert NonNegativeSteps(fs[1..]) by {
        forall i | 0 <= i < |fs[1..]| ensures fs[1..][i].dt >= 0.0 {
          assert fs[1..][i] == fs[i + 1];
        }
      }
      TotalDtNonNegative(fs[1..]);
    }
  }

  /** With non-negative steps a countdown is still open after the frames
      exactly when its start exceeds the time that passed; then it has run
      down by exactly that time. A closed countdown never moves. */
  lemma {:induction false} DrainOpen(c: real, fs: seq<Frame>)
    requires NonNegativeSteps(fs)
    ensures Drain(c, fs) > 0.0 <==> c - TotalDt(fs) > 0.0
    ensures c - TotalDt(fs) > 0.0 ==> Drain(c, fs) == c - TotalDt(fs)
    ensures c <= 0.0 ==> Drain(c, fs) == c
    decreases |fs|
  {
    if fs != [] {
      var rest := fs[1..];
      assert NonNegativeSteps(rest) by {
        forall i | 0 <= i < |rest| ensures rest[i].dt >= 0.0 {
          assert rest[i] == fs[i + 1];
        }
      }
      TotalDtNonNegative(rest);
      DrainOpen(Countdown(c, fs[0].dt), rest);
    }
  }

  // ---------------------------------------------------------------------
  // Quiet frames: in the air, away from the walls, jump not pressed

  predicate Quiet(f: Frame) {
    !f.env.standing && !f.env.againstLeftWall && !f.env.againstRightWall
    && !f.keys.jumpPressedThisFrame && f.dt >= 0.0
  }

  predicate AllQuiet(fs: seq<Frame>) {
    forall i :: 0 <= i < |fs| ==> Quiet(fs[i])
  }

  /** No grace window is open. */
  predicate NoGrace(tm: Timers) {
    tm.onGroundCount <= 0.0 && tm.onLeftWallCount <= 0.0 && tm.onRightWallCount <= 0.0
  }

  /** No frame of the run jumps. */
  predicate NoJumpIn(tm: Timers, controlledByPlayer: bool, fs: seq<Frame>)
    decreases |fs|
  {
    fs == [] ||
    (FrameTakeoff(tm, controlledByPlayer, fs[0]) == NoJump
     && NoJumpIn(FrameTimers(tm, controlledByPlayer, fs[0]), controlledByPlayer, fs[1..]))
  }

  /** Through quiet frames, starting without a buffered jump or without an
      open grace window, no jump happens and every timer just runs down. */
  lemma {:induction false} QuietRun(tm: Timers, controlledByPlayer: bool, fs: seq<Frame>)
    requires AllQuiet(fs)
    requires tm.bufferedJumpCount <= 0.0 || NoGrace(tm)
    ensures NonNegativeSteps(fs)
    ensures NoJumpIn(tm, controlledByPlayer, fs)
    ensures RunTimers(tm, controlledByPlayer, fs) ==
              Timers(Drain(tm.onGroundCount, fs), Drain(tm.onLeftWallCount, fs),
                     Drain(tm.onRightWallCount, fs), Drain(tm.bufferedJumpCount, fs))
    decreases |fs|
  {
    if fs != [] {
      var f := fs[0];
      assert Quiet(f);
      var next := TimerStep(tm, f.env, controlledByPlayer && f.keys.jumpPressedThisFrame, f.dt);
      assert ChooseJump(next) == NoJump;
      assert FrameTimers(tm, controlledByPlayer, f) == next;
      var rest := fs[1..];
      assert AllQuiet(rest) by {
        forall i | 0 <= i < |rest| ensures Quiet(rest[i]) {
          assert rest[i] == fs[i + 1];
        }
      }
      QuietRun(next, controlledByPlayer, rest);
    }
  }

  /** On the whole state, quiet frames keep the events already asked for and
      add no jump sound. */
  lemma {:induction false} QuietRunSilent(s: PlayerState, t: Tuning, fs: seq<Frame>)
    requires AllQuiet(fs)
    requires s.timers.bufferedJumpCount <= 0.0 || NoGrace(s.timers)
    ensures |s.events| <= |Run(s, t, fs).events|
    ensures Run(s, t, fs).events[..|s.events|] == s.events
    ensures JumpSound !in Run(s, t, fs).events[|s.events|..]
    decreases |fs|
  {
    if fs != [] {
      var f := fs[0];
      assert Quiet(f);
      var s1 := Update(s, t, f);
      UpdateTimersAndEvents(s, t, f);
      var next := TimerStep(s.timers, f.env, s.controlledByPlayer && f.keys.jumpPressedThisFrame, f.dt);
      assert ChooseJump(next) == NoJump;
      assert s1.timers == next;
      assert s1.events == s.events + (if f.env.touchingGoal then [LevelWon] else []);
      var rest := fs[1..];
      assert AllQuiet(rest) by {
        forall i | 0 <= i < |rest| ensures Quiet(rest[i]) {
          assert rest[i] == fs[i + 1];
        }
      }
      QuietRunSilent(s1, t, rest);
      var e := Run(s1, t, rest).events;
      assert Run(s, t, fs).events == e;
      assert e[..|s.events|] == s.events by {
        assert e[..|s1.events|][..|s.events|] == s1.events[..|s.events|];
      }
      assert e[|s.events|..] == s1.events[|s.events|..] + e[|s1.events|..] by {
        assert e == e[..|s1.events|] + e[|s1.events|..];
      }
    }
  }

  // ---------------------------------------------------------------------
  // Coyote time and the jump buffer

  /** The frame after the `quiet` frames in the air: the jump key is
      pressed while away from the ground and the walls. It jumps, from the
      ground, exactly when the ground grace window left at the start
      exceeds the time that has passed since, this frame included. */
  lemma GraceWindow(tm: Timers, controlledByPlayer: bool, quiet: seq<Frame>, last: Frame)
    requires tm.onLeftWallCount <= 0.0 && tm.onRightWallCount <= 0.0 && tm.bufferedJumpCount <= 0.0
    requires AllQuiet(quiet)
    requires controlledByPlayer && last.keys.jumpPressedThisFrame
    requires !last.env.standing && !last.env.againstLeftWall && !last.env.againstRightWall
    requires last.dt >= 0.0
    ensures FrameTakeoff(RunTimers(tm, controlledByPlayer, quiet), controlledByPlayer, last) != NoJump
            <==> tm.onGroundCount - TotalDt(quiet) - last.dt > 0.0
    ensures FrameTakeoff(RunTimers(tm, controlledByPlayer, quiet), controlledByPlayer, last) in {NoJump, FromGround}
  {
    QuietRun(tm, controlledByPlayer, quiet);
    DrainOpen(tm.onGroundCount, quiet);
    DrainOpen(tm.onLeftWallCount, quiet);
    DrainOpen(tm.onRightWallCount, quiet);
  }

  /** Coyote time. The player stands on a ledge for one frame without
      jumping, with no wall grace window open, then falls for some frames
      without pressing jump, then presses jump in the air. The press jumps
      exactly when less than COYOTE_TIME_SECS passed between the ledge frame
      and the end of the pressing frame. */
  lemma CoyoteTime(s: PlayerState, t: Tuning, ledge: Frame, air: seq<Frame>, last: Frame)
    requires s.timers.onLeftWallCount <= 0.0 && s.timers.onRightWallCount <= 0.0
    requires ledge.env.standing && !ledge.env.againstLeftWall && !ledge.env.againstRightWall
    requires ledge.dt >= 0.0
    requires FrameTakeoff(s.timers, s.controlledByPlayer, ledge) == NoJump
    requires AllQuiet(air)
    requires s.controlledByPlayer && last.keys.jumpPressedThisFrame
    requires !last.env.standing && !last.env.againstLeftWall && !last.env.againstRightWall
    requires last.dt >= 0.0
    ensures var before := Run(Update(s, t, ledge), t, air);
            FrameTakeoff(before.timers, before.controlledByPlayer, last) != NoJump
            <==> COYOTE_TIME_SECS - TotalDt(air) - last.dt > 0.0
  {
    var s1 := Update(s, t, ledge);
    UpdateTimersAndEvents(s, t, ledge);
    // Standing re-arms the ground window; since no jump happened, the
    // buffer must have been closed.
    assert s1.timers.onGroundCount == COYOTE_TIME_SECS && s1.timers.bufferedJumpCount <= 0.0;
    RunTimersAgree(s1, t, air);
    GraceWindow(s1.timers, s.controlledByPlayer, air, last);
  }

  /** Jump buffering. In the air with every grace window closed, the jump
      key is pressed: nothing happens yet. After some quiet frames the
      player lands; on that frame it jumps exactly when less than
      BUFFER_JUMP_TIME_SECS passed between the end of the pressing frame and
      the end of the landing frame. */
  lemma JumpBuffer(s: PlayerState, t: Tuning, press: Frame, air: seq<Frame>, land: Frame)
    requires NoGrace(s.timers)
    requires s.controlledByPlayer && press.keys.jumpPressedThisFrame
    requires !press.env.standing && !press.env.againstLeftWall && !press.env.againstRightWall
    requires press.dt >= 0.0
    requires AllQuiet(air)
    requires land.env.standing && !land.keys.jumpPressedThisFrame && land.dt >= 0.0
    ensures FrameTakeoff(s.timers, s.controlledByPlayer, press) == NoJump
    ensures var before := Run(Update(s, t, press), t, air);
            FrameTakeoff(before.timers, before.controlledByPlayer, land) != NoJump
            <==> BUFFER_JUMP_TIME_SECS - TotalDt(air) - land.dt > 0.0
    ensures var before := Run(Update(s, t, press), t, air);
            FrameTakeoff(before.timers, before.controlledByPlayer, land) in {NoJump, FromGround}
  {
    var s1 := Update(s, t, press);
    UpdateTimersAndEvents(s, t, press);
    assert s1.timers.bufferedJumpCount == BUFFER_JUMP_TIME_SECS && NoGrace(s1.timers);
    RunTimersAgree(s1, t, air);
    QuietRun(s1.timers, s.controlledByPlayer, air);
    DrainOpen(BUFFER_JUMP_TIME_SECS, air);
  }

  /** With no grace window open after the countdown step, a buffered jump
      does not fire and is not cleared: the buffer keeps running down. */
  lemma BufferRetained(s: PlayerState, t: Tuning, f: Frame)
    requires NoGrace(TimerStep(s.timers, f.env, s.controlledByPlayer && f.keys.jumpPressedThisFrame, f.dt))
    ensures FrameTakeoff(s.timers, s.controlledByPlayer, f) == NoJump
    ensures Update(s, t, f).timers.bufferedJumpCount ==
              TimerStep(s.timers, f.env, s.controlledByPlayer && f.keys.jumpPressedThisFrame, f.dt).bufferedJumpCount
    ensures JumpSound !in Update(s, t, f).events[|s.events|..]
  {
    UpdateTimersAndEvents(s, t, f);
  }

  /** Timers are not kept non-negative: a window with less time left than
      the frame's step goes below zero and stays there until re-armed. */
  lemma TimersCanGoNegative()
    ensures Countdown(0.05, 0.1) < 0.0
    ensures Countdown(Countdown(0.05, 0.1), 0.1) == Countdown(0.05, 0.1)
  {
  }

  // ---------------------------------------------------------------------
  // Horizontal speed

  predicate WithinRunSpeed(s: PlayerState, t: Tuning) {
    -t.runSpeed <= s.dx <= t.runSpeed
  }

  /** No frame pushes the horizontal speed past runSpeed: steering clamps
      it, a wall jump sets it to exactly runSpeed, and the rest leave it.
      (The tile collisions and the base damping that follow in the source
      are not part of this model.) */
  lemma UpdateWithinRunSpeed(s: PlayerState, t: Tuning, f: Frame)
    requires t.Valid() && f.dt >= 0.0
    requires WithinRunSpeed(s, t)
    ensures WithinRunSpeed(Update(s, t, f), t)
  {
  }

  lemma {:induction false} RunWithinRunSpeed(s: PlayerState, t: Tuning, fs: seq<Frame>)
    requires t.Valid() && NonNegativeSteps(fs)
    requires WithinRunSpeed(s, t)
    ensures WithinRunSpeed(Run(s, t, fs), t)
    decreases |fs|
  {
    if fs != [] {
      UpdateWithinRunSpeed(s, t, fs[0]);
      var rest := fs[1..];
      assert NonNegativeSteps(rest) by {
        forall i | 0 <= i < |rest| ensures rest[i].dt >= 0.0 {
          assert rest[i] == fs[i + 1];
        }
      }
      RunWithinRunSpeed(Update(s, t, fs[0]), t, rest);
    }
  }

  // ---------------------------------------------------------------------
  // Wall sliding

  /** Against a wall, a fall faster than wallSlideSpeed loses half its
      excess before gravity is added, and never drops to wallSlideSpeed or
      below in that step. */
  lemma WallSlideEases(s: PlayerState, t: Tuning, againstLeftWall: bool, againstRightWall: bool, dt: real)
    requires againstLeftWall || againstRightWall
    requires s.dy > t.wallSlideSpeed
    ensures var clamped := ApplyGravity(s, t, againstLeftWall, againstRightWall, dt).dy - t.gravity * dt;
            clamped - t.wallSlideSpeed == (s.dy - t.wallSlideSpeed) / 2.0
            && t.wallSlideSpeed < clamped < s.dy
  {
  }

  /** Away from the walls the same easing pulls towards maxFallSpeed. */
  lemma FallEases(s: PlayerState, t: Tuning, dt: real)
    requires s.dy > t.maxFallSpeed
    ensures var clamped := ApplyGravity(s, t, false, false, dt).dy - t.gravity * dt;
            clamped - t.maxFallSpeed == (s.dy - t.maxFallSpeed) / 2.0
            && t.maxFallSpeed < clamped < s.dy
  {
  }
}
