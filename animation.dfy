/** Choice of the sprite animation from the player's contact flags and
    velocity (Player.getAnimationName). Pure: it reads the state and changes
    nothing, so equal arguments always give equal descriptors. */
module Animation {
  import opened Physics

  /** What the renderer is asked to draw. */
  datatype AnimationDescriptor = AnimationDescriptor(animName: string, loop: bool, facingDir: Facing)

  function Abs(x: real): real {
    if x < 0.0 then -x else x
  }

  /** Every name the selector can produce. */
  const AnimationNames: set<string> := {"idle", "run", "wall-slide", "jump-up", "jump-down", "jump-mid"}

  /** True when the airborne, not-sliding player is rising faster than 0.3 jumpSpeed. */
  predicate Rising(dy: real, jumpSpeed: real) {
    dy < -0.3 * jumpSpeed
  }

  /** True when the airborne, not-sliding player is falling faster than 0.3 jumpSpeed. */
  predicate Falling(dy: real, jumpSpeed: real) {
    dy > 0.3 * jumpSpeed
  }

  /** The animation for a player that is (or is not) standing, touching a
      wall on either side, moving with velocity (dx, dy) and facing
      facingDir. Against a wall in the air the sprite is turned away from
      the wall; otherwise the facing is kept. */
  function GetAnimationName(standing: bool, againstLeftWall: bool, againstRightWall: bool,
                            dx: real, dy: real, jumpSpeed: real, facingDir: Facing): (a: AnimationDescriptor)
    ensures a.loop
    ensures a.animName in AnimationNames
    ensures a.animName == "wall-slide" <==> !standing && (againstLeftWall || againstRightWall)
    ensures a.animName == "wall-slide" && againstLeftWall ==> a.facingDir == Right
    ensures a.animName == "wall-slide" && !againstLeftWall ==> a.facingDir == Left
    ensures a.animName != "wall-slide" ==> a.facingDir == facingDir
    ensures a.animName == "run" <==> standing && Abs(dx) > 0.01
    ensures a.animName == "idle" <==> standing && Abs(dx) <= 0.01
    ensures a.animName == "jump-up" <==>
              !standing && !againstLeftWall && !againstRightWall && Rising(dy, jumpSpeed)
    ensures a.animName == "jump-down" <==>
              !standing && !againstLeftWall && !againstRightWall
              && !Rising(dy, jumpSpeed) && Falling(dy, jumpSpeed)
    ensures a.animName == "jump-mid" <==>
              !standing && !againstLeftWall && !againstRightWall
              && !Rising(dy, jumpSpeed) && !Falling(dy, jumpSpeed)
  {
    var loop := true;
    if !standing then
      if againstLeftWall then
        AnimationDescriptor("wall-slide", loop, Right)
      else if againstRightWall then
        AnimationDescriptor("wall-slide", loop, Left)
      else
        var suffix :=
          if dy < -0.3 * jumpSpeed then "-up"
          else if dy > 0.3 * jumpSpeed then "-down"
          else "-mid";
        assert "jump" + "-up" == "jump-up" && "jump" + "-down" == "jump-down" && "jump" + "-mid" == "jump-mid";
        AnimationDescriptor("jump" + suffix, loop, facingDir)
    else if Abs(dx) > 0.01 then
      AnimationDescriptor("run", loop, facingDir)
    else
      AnimationDescriptor("idle", loop, facingDir)
  }

  /** With jumpSpeed 180 the airborne thresholds are -54 and 54: falling at
      90 shows "jump-down". Standing while drifting at 0.005 shows "idle". */
  lemma Examples()
    ensures GetAnimationName(false, false, false, 0.0, 90.0, 180.0, Right).animName == "jump-down"
    ensures GetAnimationName(false, false, false, 0.0, -90.0, 180.0, Right).animName == "jump-up"
    ensures GetAnimationName(true, false, false, 0.005, 0.0, 180.0, Left) == AnimationDescriptor("idle", true, Left)
    ensures GetAnimationName(false, true, false, 0.0, 0.0, 180.0, Left) == AnimationDescriptor("wall-slide", true, Right)
  {
  }
}
