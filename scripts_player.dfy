/** The player controller of Assets/Scripts: walking, running, an attack
    trigger, blocking on the attack button and a two-branch gravity rule. */
module ScriptsPlayer {
  import opened Engine
  import opened Animation

  /** Animator parameter names beyond the shared `walking` and `running`. */
  const AttackTrigger := "attack"
  const BlockFlag := "block"

  /** The vertical component `HandleGravity` stores, on the ground and in
      the air. */
  const GroundedGravity: real := -0.05
  const AirborneGravity: real := -9.8

  /** Which serialized multiplier a `Move` call scales the movement by:
      the walk multiplier, the run multiplier or the block modifier. */
  datatype Speed = Walk | Run | Block

  /** One `CharacterController.Move` call: the stored movement vector and
      the multiplier it is scaled by (the frame time is not modelled). */
  datatype MoveCall = MoveCall(movement: Vec3, speed: Speed)

  /** The `Move` calls one `Update` issues. A run `Move` comes first when
      running; then exactly one of the block or the walk `Move`, so a
      running player who is not blocking is moved twice, at run speed and
      then at walk speed. */
  function MoveCalls(movement: Vec3, running: bool, blocking: bool): (calls: seq<MoveCall>)
    ensures forall c :: c in calls ==> c.movement == movement
    ensures |calls| == if running then 2 else 1
    ensures running ==> calls[0].speed == Run
    ensures calls[|calls| - 1].speed == if blocking then Block else Walk
    ensures Block in (set c | c in calls :: c.speed) <==> blocking
  {
    (if running then [MoveCall(movement, Run)] else []) +
    (if blocking then [MoveCall(movement, Block)] else [MoveCall(movement, Walk)])
  }

  /** The writes `OnBlock` makes to the `block` flag: raise it on a started
      event, lower it on a canceled one, and write only when the flag does
      not already read as that value. A `block` flag the animator does not
      declare keeps reading as false. */
  function BlockWrites(phase: Phase, params: map<string, bool>): (ws: seq<FlagWrite>)
    ensures BlockFlag in params ==>
              Get(Apply(params, ws), BlockFlag) ==
                match phase
                case Started => true
                case Canceled => false
                case Performed => Get(params, BlockFlag)
    ensures Apply(params, ws).Keys == params.Keys
    ensures Apply(params, ws) - {BlockFlag} == params - {BlockFlag}
    ensures Effective(params, ws)
    ensures |ws| <= 1
    ensures forall w :: w in ws ==> w == FlagWrite(BlockFlag, phase == Started)
    ensures ws != [] <==>
              (phase == Started && !Get(params, BlockFlag)) || (phase == Canceled && Get(params, BlockFlag))
  {
    var blocking := Get(params, BlockFlag);
    var ws :=
      if phase == Started && !blocking then [FlagWrite(BlockFlag, true)]
      else if phase == Canceled && blocking then [FlagWrite(BlockFlag, false)]
      else [];
    ApplyAtMostOne(params, ws);
    ws
  }

  /** The input actions the controller subscribes to. */
  datatype Action = MovementAction | RunAction | AttackAction | InteractAction

  /** The controller's input callbacks. */
  datatype Handler = HandleMovement | HandleRun | HandleAttack | HandleBlock | HandleInteract

  /** The subscriptions `Start` makes, in subscription order: the callbacks
      an action invokes in a given phase. Blocking hangs on the attack
      action, so an attack press both fires the trigger and runs the block
      logic, and its release runs the block logic alone. */
  function Subscribers(action: Action, phase: Phase): (hs: seq<Handler>)
    ensures |hs| <= 2
    ensures !(action == AttackAction && phase == Started) ==> |hs| <= 1
    ensures HandleAttack in hs <==> action == AttackAction && phase == Started
    ensures HandleBlock in hs <==> action == AttackAction && phase != Performed
    ensures action == AttackAction && phase == Started ==> hs == [HandleAttack, HandleBlock]
    ensures HandleMovement in hs <==> action == MovementAction
    ensures HandleRun in hs <==> action == RunAction && phase != Performed
    ensures HandleInteract in hs <==> action == InteractAction && phase == Started
  {
    match action
    case MovementAction => [HandleMovement]
    case RunAction => if phase == Performed then [] else [HandleRun]
    case AttackAction =>
      (if phase == Started then [HandleAttack] else []) +
      (if phase == Performed then [] else [HandleBlock])
    case InteractAction => if phase == Started then [HandleInteract] else []
  }

  class PlayerController {
    const animator: Animator

    var currentMovement: Vec3
    var inputMovement: Vec2
    var isMoving: bool
    var isRunning: bool
    var isBlocking: bool
    var rotation: Rotation
    /** Every `Move` call made on the character controller, in order. */
    var moves: seq<MoveCall>

    /** The moving flag agrees with the stored horizontal movement, and
        the animator's log holds no redundant write. */
    ghost predicate Valid()
      reads this, animator
    {
      (isMoving <==> currentMovement.x != 0.0 || currentMovement.z != 0.0) &&
      animator.OnlyEffectiveWrites()
    }

    /** A fresh component: every field at its default, facing `rotation0`,
        driving `animator` (what `Awake` looks up). */
    constructor (animator: Animator, rotation0: Rotation)
      requires animator.OnlyEffectiveWrites()
      ensures this.animator == animator && Valid()
      ensures currentMovement == Vec3(0.0, 0.0, 0.0) && inputMovement == Vec2(0.0, 0.0)
      ensures !isMoving && !isRunning && !isBlocking
      ensures rotation == rotation0 && moves == []
    {
      this.animator := animator;
      currentMovement := Vec3(0.0, 0.0, 0.0);
      inputMovement := Vec2(0.0, 0.0);
      isMoving, isRunning, isBlocking := false, false, false;
      rotation := rotation0;
      moves := [];
    }

    /** Stores the axis on the ground plane and derives the moving flag
        from it by an exact comparison with zero. */
    method OnMovement(context: CallbackContext)
      requires Valid()
      modifies this
      ensures Valid()
      ensures inputMovement == context.axis
      ensures currentMovement == Vec3(context.axis.x, 0.0, context.axis.y)
      ensures isMoving <==> context.axis.x != 0.0 || context.axis.y != 0.0
      ensures isRunning == old(isRunning) && isBlocking == old(isBlocking)
      ensures rotation == old(rotation) && moves == old(moves)
    {
      inputMovement := context.axis;
      currentMovement := Vec3(inputMovement.x, 0.0, inputMovement.y);
      isMoving := currentMovement.x != 0.0 || currentMovement.z != 0.0;
    }

    /** Turns towards the horizontal movement direction when moving;
        otherwise the rotation is not touched. */
    method OnRotate()
      requires Valid()
      modifies this`rotation
      ensures Valid()
      ensures rotation == if isMoving then Turned(old(rotation), Horizontal(currentMovement))
                          else old(rotation)
      ensures isMoving ==> rotation.toward != Vec3(0.0, 0.0, 0.0)
    {
      var turnDirection := Horizontal(currentMovement);
      if isMoving {
        rotation := Turned(rotation, turnDirection);
      }
    }

    method OnRun(context: CallbackContext)
      modifies this`isRunning
      ensures isRunning == context.button
    {
      isRunning := context.button;
    }

    /** Fires the attack trigger once on a started event and does nothing
        in any other phase. */
    method OnAttack(context: CallbackContext)
      modifies animator
      ensures animator.triggers ==
                old(animator.triggers) + if context.phase == Started then [AttackTrigger] else []
      ensures animator.params == old(animator.params) && animator.writes == old(animator.writes)
      ensures animator.initial == old(animator.initial)
    {
      if context.phase == Started {
        animator.SetTrigger(AttackTrigger);
      }
    }

    /** Reads the `block` flag into the blocking field, then raises the
        flag on a started event or lowers it (and the field) on a canceled
        one, writing only when the flag is not already at that value. After
        a started event the field still holds the flag's earlier value. */
    method OnBlock(context: CallbackContext)
      requires Valid()
      modifies this`isBlocking, animator
      ensures Valid()
      ensures animator.writes == old(animator.writes) + BlockWrites(context.phase, old(animator.params))
      ensures animator.params == Apply(old(animator.params), BlockWrites(context.phase, old(animator.params)))
      ensures animator.triggers == old(animator.triggers)
      ensures isBlocking == (context.phase != Canceled && Get(old(animator.params), BlockFlag))
    {
      ghost var before := animator.writes;
      isBlocking := animator.GetBool(BlockFlag);
      if context.phase == Started && !isBlocking {
        animator.SetBool(BlockFlag, true);
      } else if context.phase == Canceled && isBlocking {
        animator.SetBool(BlockFlag, false);
        isBlocking := false;
      }
      animator.AppendedEffective(before, BlockWrites(context.phase, old(animator.params)));
    }

    /** Brings the `walking` and `running` flags in line with the intent,
        writing a flag only when it differs from its wanted value. */
    method AnimatePlayer()
      requires Valid()
      modifies animator
      ensures Valid()
      ensures animator.writes == old(animator.writes) + Reconcile(isMoving, isRunning, old(animator.params))
      ensures animator.params == Apply(old(animator.params), Reconcile(isMoving, isRunning, old(animator.params)))
      ensures animator.triggers == old(animator.triggers)
    {
      ghost var before := animator.writes;
      var playerWalking := animator.GetBool(Walking);
      var playerRunning := animator.GetBool(Running);

      if isMoving && !playerWalking {
        animator.SetBool(Walking, true);
      }
      if !isMoving && playerWalking {
        animator.SetBool(Walking, false);
      }
      if isMoving && isRunning && !playerRunning {
        animator.SetBool(Running, true);
      }
      if !isMoving && !isRunning && playerRunning {
        animator.SetBool(Running, false);
      }
      animator.AppendedEffective(before, Reconcile(isMoving, isRunning, old(animator.params)));
    }

    /** The character controller's `Move`: recorded, not simulated. */
    method Move(movement: Vec3, speed: Speed)
      modifies this`moves
      ensures moves == old(moves) + [MoveCall(movement, speed)]
    {
      moves := moves + [MoveCall(movement, speed)];
    }

    /** Stores the grounded or the airborne vertical component. */
    method HandleGravity(isGrounded: bool)
      requires Valid()
      modifies this`currentMovement
      ensures Valid()
      ensures currentMovement ==
                old(currentMovement).(y := if isGrounded then GroundedGravity else AirborneGravity)
    {
      if isGrounded {
        currentMovement := currentMovement.(y := GroundedGravity);
      } else {
        currentMovement := currentMovement.(y := AirborneGravity);
      }
    }

    /** One frame: rotate, animate, move, then apply gravity. The moves use
        the movement as it stood at the start of the frame, including the
        vertical component the previous frame's gravity left in it;
        `isGrounded` is what the character controller reports after them. */
    method Update(isGrounded: bool)
      requires Valid()
      modifies this, animator
      ensures Valid()
      ensures rotation == if isMoving then Turned(old(rotation), Horizontal(old(currentMovement)))
                          else old(rotation)
      ensures isMoving ==> rotation.toward != Vec3(0.0, 0.0, 0.0)
      ensures animator.writes == old(animator.writes) + Reconcile(isMoving, isRunning, old(animator.params))
      ensures animator.params == Apply(old(animator.params), Reconcile(isMoving, isRunning, old(animator.params)))
      ensures animator.triggers == old(animator.triggers)
      ensures moves == old(moves) + MoveCalls(old(currentMovement), isRunning, isBlocking)
      ensures currentMovement ==
                old(currentMovement).(y := if isGrounded then GroundedGravity else AirborneGravity)
      ensures isMoving == old(isMoving) && isRunning == old(isRunning) && isBlocking == old(isBlocking)
      ensures inputMovement == old(inputMovement)
    {
      OnRotate();
      AnimatePlayer();

      ghost var calls := MoveCalls(currentMovement, isRunning, isBlocking);
      if isRunning {
        Move(currentMovement, Run);
      }
      assert moves == old(moves) + calls[..|calls| - 1];

      if isBlocking {
        Move(currentMovement, Block);
      } else {
        Move(currentMovement, Walk);
      }
      assert moves == old(moves) + calls;

      HandleGravity(isGrounded);
    }

    /** Runs one callback on a context. `OnInteract` has an empty body. */
    method Handle(handler: Handler, context: CallbackContext)
      requires Valid()
      modifies this, animator
      ensures Valid()
      ensures handler == HandleMovement ==> inputMovement == context.axis
      ensures handler != HandleMovement ==> inputMovement == old(inputMovement)
      ensures handler == HandleMovement ==>
                currentMovement == Vec3(context.axis.x, 0.0, context.axis.y) &&
                (isMoving <==> context.axis.x != 0.0 || context.axis.y != 0.0)
      ensures handler == HandleRun ==> isRunning == context.button
      ensures handler == HandleAttack ==>
                animator.triggers == old(animator.triggers) + if context.phase == Started then [AttackTrigger] else []
      ensures handler != HandleAttack ==> animator.triggers == old(animator.triggers)
      ensures handler == HandleBlock ==>
                animator.writes == old(animator.writes) + BlockWrites(context.phase, old(animator.params)) &&
                animator.params == Apply(old(animator.params), BlockWrites(context.phase, old(animator.params))) &&
                isBlocking == (context.phase != Canceled && Get(old(animator.params), BlockFlag))
      ensures handler != HandleBlock ==>
                animator.writes == old(animator.writes) && animator.params == old(animator.params) &&
                isBlocking == old(isBlocking)
      ensures handler != HandleMovement ==>
                currentMovement == old(currentMovement) && isMoving == old(isMoving)
      ensures handler != HandleRun ==> isRunning == old(isRunning)
      ensures rotation == old(rotation) && moves == old(moves)
    {
      match handler
      case HandleMovement => OnMovement(context);
      case HandleRun => OnRun(context);
      case HandleAttack => OnAttack(context);
      case HandleBlock => OnBlock(context);
      case HandleInteract =>
    }

    /** Delivers an input event to the callbacks `Start` subscribed to its
        action and phase, in subscription order. */
    method Dispatch(action: Action, context: CallbackContext)
      requires Valid()
      modifies this, animator
      ensures Valid()
      ensures action == AttackAction ==>
                animator.triggers ==
                  old(animator.triggers) + (if context.phase == Started then [AttackTrigger] else []) &&
                animator.writes ==
                  old(animator.writes) +
                  (if context.phase == Performed then [] else BlockWrites(context.phase, old(animator.params))) &&
                animator.params ==
                  (if context.phase == Performed then old(animator.params)
                   else Apply(old(animator.params), BlockWrites(context.phase, old(animator.params)))) &&
                isBlocking ==
                  if context.phase == Performed then old(isBlocking)
                  else context.phase == Started && Get(old(animator.params), BlockFlag)
      ensures action == MovementAction ==> inputMovement == context.axis
      ensures action != MovementAction ==> inputMovement == old(inputMovement)
      ensures action == MovementAction ==>
                currentMovement == Vec3(context.axis.x, 0.0, context.axis.y) &&
                (isMoving <==> context.axis.x != 0.0 || context.axis.y != 0.0)
      ensures action == RunAction ==>
                isRunning == if context.phase == Performed then old(isRunning) else context.button
      ensures action != AttackAction ==>
                animator.writes == old(animator.writes) && animator.params == old(animator.params) &&
                animator.triggers == old(animator.triggers) && isBlocking == old(isBlocking)
      ensures action != MovementAction ==>
                currentMovement == old(currentMovement) && isMoving == old(isMoving)
      ensures action != RunAction ==> isRunning == old(isRunning)
      ensures rotation == old(rotation) && moves == old(moves)
    {
      var handlers := Subscribers(action, context.phase);
      if |handlers| > 0 {
        Handle(handlers[0], context);
      }
      if |handlers| > 1 {
        Handle(handlers[1], context);
      }
    }
  }

  /** Pressing the attack button twice without releasing it fires the
      attack trigger twice but raises the `block` flag once: the second
      press finds it raised, writes nothing, and reads blocking as true. */
  method AttackPressedTwice(c: PlayerController, axis: Vec2)
    requires c.Valid() && BlockFlag in c.animator.params
    modifies c, c.animator
    ensures Get(c.animator.params, BlockFlag) && c.isBlocking
    ensures c.animator.triggers == old(c.animator.triggers) + [AttackTrigger, AttackTrigger]
    ensures |c.animator.writes| <= |old(c.animator.writes)| + 1
  {
    c.Dispatch(AttackAction, CallbackContext(Started, axis, true));
    c.Dispatch(AttackAction, CallbackContext(Started, axis, true));
  }

  /** A press and a release of the attack button leave the `block` flag
      and the blocking field lowered, with one attack trigger fired. */
  method AttackPressedAndReleased(c: PlayerController, axis: Vec2)
    requires c.Valid() && BlockFlag in c.animator.params
    modifies c, c.animator
    ensures !Get(c.animator.params, BlockFlag) && !c.isBlocking
    ensures c.animator.triggers == old(c.animator.triggers) + [AttackTrigger]
  {
    c.Dispatch(AttackAction, CallbackContext(Started, axis, true));
    c.Dispatch(AttackAction, CallbackContext(Canceled, axis, false));
  }

  /** Releasing the run button while still moving leaves the `running`
      flag raised: the reconciler lowers it only once the player also stops
      moving. */
  method RunningOutlivesRunButton(c: PlayerController, axis: Vec2, isGrounded: bool)
    requires c.Valid() && axis != Vec2(0.0, 0.0)
    requires Walking in c.animator.params && Running in c.animator.params
    modifies c, c.animator
    ensures c.isMoving && !c.isRunning
    ensures Get(c.animator.params, Walking) && Get(c.animator.params, Running)
  {
    c.Dispatch(MovementAction, CallbackContext(Performed, axis, false));
    c.Dispatch(RunAction, CallbackContext(Started, Zero2, true));
    c.Update(isGrounded);
    c.Dispatch(RunAction, CallbackContext(Canceled, Zero2, false));
    c.Update(isGrounded);
  }

  /** Holding the attack button through a frame never reaches the block
      modifier: the press raises the `block` flag but leaves the blocking
      field at the flag's earlier value, false, so the frame's moves use
      the walk or run multiplier, and the release lowers both again. */
  method AttackHeldThroughFrame(c: PlayerController, axis: Vec2, isGrounded: bool)
    requires c.Valid() && BlockFlag in c.animator.params && !Get(c.animator.params, BlockFlag)
    modifies c, c.animator
    ensures |c.moves| > |old(c.moves)| && c.moves[|c.moves| - 1].speed == Walk
    ensures forall i :: |old(c.moves)| <= i < |c.moves| ==> c.moves[i].speed != Block
    ensures !Get(c.animator.params, BlockFlag) && !c.isBlocking
  {
    c.Dispatch(AttackAction, CallbackContext(Started, axis, true));
    c.Update(isGrounded);
    c.Dispatch(AttackAction, CallbackContext(Canceled, axis, false));
  }
}
