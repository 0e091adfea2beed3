/** The earlier player controller of Assets/Characters/Player: walking and
    running only. The multipliers are applied when the movement is stored,
    and the moving flag is refreshed only on a walking movement event. */
module CharactersPlayer {
  import opened Engine
  import opened Animation

  /** The inspector defaults of the two serialized multipliers. */
  const DefaultWalkMultiplier: real := 1.5
  const DefaultRunMultiplier: real := 3.0

  /** The movement an input axis asks for, on the ground plane and scaled:
      it is nonzero horizontally exactly when both the axis and the
      multiplier are. */
  function GroundMovement(axis: Vec2, multiplier: real): (v: Vec3)
    ensures v.y == 0.0
    ensures (v.x != 0.0 || v.z != 0.0) <==> multiplier != 0.0 && (axis.x != 0.0 || axis.y != 0.0)
  {
    Scale(Vec3(axis.x, 0.0, axis.y), multiplier)
  }

  class PlayerController {
    const animator: Animator

    var currentMovement: Vec3
    var walkMultiplier: real
    var runMultiplier: real
    var isMoving: bool
    var isRunning: bool
    var rotation: Rotation
    /** Every `Move` call made on the character controller, in order. */
    var moves: seq<Vec3>

    /** The animator's log holds no redundant write. */
    ghost predicate Valid()
      reads this, animator
    {
      animator.OnlyEffectiveWrites()
    }

    /** A fresh component with the given serialized multipliers, facing
        `rotation0` and driving `animator` (what `Awake` looks up). */
    constructor (animator: Animator, rotation0: Rotation, walk: real, run: real)
      requires animator.OnlyEffectiveWrites()
      ensures this.animator == animator && Valid()
      ensures currentMovement == Vec3(0.0, 0.0, 0.0)
      ensures walkMultiplier == walk && runMultiplier == run
      ensures !isMoving && !isRunning
      ensures rotation == rotation0 && moves == []
    {
      this.animator := animator;
      currentMovement := Vec3(0.0, 0.0, 0.0);
      walkMultiplier, runMultiplier := walk, run;
      isMoving, isRunning := false, false;
      rotation := rotation0;
      moves := [];
    }

    /** A fresh component with the multipliers at their inspector defaults. */
    constructor WithDefaults(animator: Animator, rotation0: Rotation)
      requires animator.OnlyEffectiveWrites()
      ensures this.animator == animator && Valid()
      ensures currentMovement == Vec3(0.0, 0.0, 0.0)
      ensures walkMultiplier == DefaultWalkMultiplier && runMultiplier == DefaultRunMultiplier
      ensures !isMoving && !isRunning
      ensures rotation == rotation0 && moves == []
    {
      this.animator := animator;
      currentMovement := Vec3(0.0, 0.0, 0.0);
      walkMultiplier, runMultiplier := DefaultWalkMultiplier, DefaultRunMultiplier;
      isMoving, isRunning := false, false;
      rotation := rotation0;
      moves := [];
    }

    /** Stores the axis scaled by the run multiplier when running, leaving
        the moving flag as it was (so it can go stale), and otherwise by
        the walk multiplier, setting the moving flag from the stored
        movement. */
    method OnMovement(context: CallbackContext)
      modifies this`currentMovement, this`isMoving
      ensures currentMovement ==
                GroundMovement(context.axis, if isRunning then runMultiplier else walkMultiplier)
      ensures isRunning ==> isMoving == old(isMoving)
      ensures !isRunning ==>
                (isMoving <==> walkMultiplier != 0.0 && (context.axis.x != 0.0 || context.axis.y != 0.0))
    {
      var inputMovement := context.axis;
      if isRunning {
        currentMovement := Scale(Vec3(inputMovement.x, 0.0, inputMovement.y), runMultiplier);
      } else {
        currentMovement := Scale(Vec3(inputMovement.x, 0.0, inputMovement.y), walkMultiplier);
        isMoving := currentMovement.x != 0.0 || currentMovement.z != 0.0;
      }
    }

    /** Turns towards the horizontal movement direction when the moving
        flag is set; otherwise the rotation is not touched. */
    method OnRotate()
      modifies this`rotation
      ensures rotation == if isMoving then Turned(old(rotation), Horizontal(currentMovement))
                          else old(rotation)
    {
      var turnDirection := Horizontal(currentMovement);
      if isMoving {
        rotation := Turned(rotation, turnDirection);
      }
    }

    method OnRun(context: CallbackContext)
      modifies this`isRunning
      ensures isRunning == context.button
    {
      isRunning := context.button;
    }

    /** Brings the `walking` and `running` flags in line with the intent,
        writing a flag only when it differs from its wanted value. */
    method AnimatePlayer()
      requires Valid()
      modifies animator
      ensures Valid()
      ensures animator.writes == old(animator.writes) + Reconcile(isMoving, isRunning, old(animator.params))
      ensures animator.params == Apply(old(animator.params), Reconcile(isMoving, isRunning, old(animator.params)))
      ensures animator.triggers == old(animator.triggers)
    {
      ghost var before := animator.writes;
      var playerWalking := animator.GetBool(Walking);
      var playerRunning := animator.GetBool(Running);

      if isMoving && !playerWalking {
        animator.SetBool(Walking, true);
      }
      if !isMoving && playerWalking {
        animator.SetBool(Walking, false);
      }
      if isMoving && isRunning && !playerRunning {
        animator.SetBool(Running, true);
      }
      if !isMoving && !isRunning && playerRunning {
        animator.SetBool(Running, false);
      }
      animator.AppendedEffective(before, Reconcile(isMoving, isRunning, old(animator.params)));
    }

    /** The character controller's `Move`: recorded, not simulated. */
    method Move(movement: Vec3)
      modifies this`moves
      ensures moves == old(moves) + [movement]
    {
      moves := moves + [movement];
    }

    /** One frame: rotate, then exactly one `Move` of the stored movement,
        then animate. */
    method Update()
      requires Valid()
      modifies this`rotation, this`moves, animator
      ensures Valid()
      ensures rotation == if isMoving then Turned(old(rotation), Horizontal(currentMovement))
                          else old(rotation)
      ensures moves == old(moves) + [currentMovement]
      ensures animator.writes == old(animator.writes) + Reconcile(isMoving, isRunning, old(animator.params))
      ensures animator.params == Apply(old(animator.params), Reconcile(isMoving, isRunning, old(animator.params)))
      ensures animator.triggers == old(animator.triggers)
    {
      OnRotate();
      Move(currentMovement);
      AnimatePlayer();
    }
  }

  /** Releasing the movement keys while the run button is held leaves the
      moving flag set: the character keeps turning towards a zero direction
      and keeps its walking animation although it stands still. */
  method StaleMovingFlag(c: PlayerController, axis: Vec2)
    requires c.Valid() && c.walkMultiplier != 0.0 && axis != Vec2(0.0, 0.0)
    requires Walking in c.animator.params
    modifies c, c.animator
    ensures c.isMoving && c.currentMovement == Vec3(0.0, 0.0, 0.0)
    ensures Get(c.animator.params, Walking)
    ensures c.rotation.Turned? && c.rotation.toward == Vec3(0.0, 0.0, 0.0)
  {
    c.OnRun(CallbackContext(Canceled, Vec2(0.0, 0.0), false));
    c.OnMovement(CallbackContext(Performed, axis, false));
    c.OnRun(CallbackContext(Started, Vec2(0.0, 0.0), true));
    c.OnMovement(CallbackContext(Canceled, Vec2(0.0, 0.0), false));
    c.Update();
  }
}
