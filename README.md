# Heroic-Hound player controller — a verified model

This project models the per-character state machine of the two versions of
`PlayerController`, the third-person controller in the game:

- `Assets/Scripts/PlayerController.cs` (module `ScriptsPlayer`) has walking, running,
  an attack trigger, blocking on the attack button, and a two-branch gravity rule.
- `Assets/Characters/Player/PlayerController.cs` (module `CharactersPlayer`) is the earlier version.
  It has only walking and running, and applies the speed multipliers when the movement is stored.

Each version is a class with the source's own fields:
the movement, the moving and running intent flags, the rotation, and a log of `Move` calls.
The Scripts version also has the blocking flag; the Characters version has no blocking state.
Its methods are the input callbacks and the per-frame `Update`.

The animator is the external parameter table the controllers write into (module `Animation`).
It is a class holding a map from parameter name to bool, a log of `SetBool` calls and a log of `SetTrigger` calls.
The map holds only the parameters the animator declares. `GetBool` on an undeclared name reads false, and `SetBool` on one is logged but stores nothing.
The flag-reconciliation rule that both `AnimatePlayer` copies follow is the pure function `Animation.Reconcile`.
Both controller methods are proved to issue exactly its writes.

Every controller method keeps one invariant: no write in the animator's log targets a flag that already read as the value written.
So no write to a declared flag is redundant.
The Scripts controller also keeps another invariant: its moving flag agrees with the stored horizontal movement.
So it never turns towards a zero direction.
The Characters version breaks this second invariant, and `CharactersPlayer.StaleMovingFlag` shows how.

Module `Engine` holds the host values:
- vectors as exact reals;
- input phases and callback contexts;
- rotation as a symbolic term. `Turned(from, toward)` stands for a slerp from `from` towards the look rotation of `toward`.

## Behaviour of the code worth knowing

- A running player who is not blocking is moved twice per frame: once with the run multiplier, then once with the walk multiplier.
- The block handler is attached to the Attack action's started and canceled phases. An attack press raises the `block` flag, but the blocking field keeps the flag's earlier value. When the `block` flag reads false before the press, as it does after any release, a press, hold and release never reaches the block modifier; `ScriptsPlayer.AttackHeldThroughFrame` shows this. The field is true only when the flag was already raised, either by an earlier press with no release or by the animator's default.
- The `running` flag is never lowered while exactly one of moving and running holds. That covers walking on after releasing run, and stopping while still holding run. `Animation.RunningKeptOnMixedIntent` and `ScriptsPlayer.RunningOutlivesRunButton` show this.
- Rotation is guarded only by the moving flag. In the Characters version that flag can stay set after the movement keys are released while running, and the character then turns towards a zero vector.
- On an animator that does not declare `walking`, a moving player's `walking` write is issued on every frame, because the flag keeps reading as false. `Animation.UndeclaredWalkingRewritten` shows this.

## Model

| member | source | states |
|---|---|---|
| `Engine.Scale` | Assets/Characters/Player/PlayerController.cs:98-103 | Each horizontal component of a scaled movement is zero exactly when that input component or the multiplier is zero |
| `Animation.Reconcile` | Assets/Scripts/PlayerController.cs:102-126 | After the writes, a declared `walking` equals the moving flag. A declared `running` is raised when moving and running, lowered when neither, and otherwise keeps its old value. No parameter is added, no other parameter changes, and no write targets a flag already reading the value written |
| `Animation.ReconcileWritesOnlyWanted` | Assets/Scripts/PlayerController.cs:107-125 | Each flag is written at most once and only with its wanted value. `walking` is written iff it differs from the moving flag. `running` is written iff moving equals running and the flag differs from them. Nothing else is written |
| `Animation.ReconcileIdempotent` | Assets/Scripts/PlayerController.cs:102-126 | On an animator declaring both flags, a second reconciliation with unchanged intent issues no writes |
| `Animation.UndeclaredWalkingRewritten` | Assets/Scripts/PlayerController.cs:104-110 | On an animator without `walking`, a moving player's `walking` write is issued again on the next reconciliation |
| `Animation.RunningKeptOnMixedIntent` | Assets/Scripts/PlayerController.cs:117-125 | When exactly one of moving and running holds, `running` keeps its old value |
| `Animation.ReconciledRunningNeedsIntent` | Assets/Scripts/PlayerController.cs:117-125 | After reconciliation, a raised `running` flag implies the player is moving or holding run |
| `Animation.EffectiveAppend` | Assets/Characters/Player/PlayerController.cs:66-90 | A write log is free of redundant writes iff its prefix is, and its suffix is too when judged against the table the prefix leaves |
| `ScriptsPlayer.MoveCalls` | Assets/Scripts/PlayerController.cs:73-86 | All moves use the stored movement. There are two moves when running (the run move first), otherwise one. The last move is the block move iff blocking, otherwise the walk move |
| `ScriptsPlayer.BlockWrites` | Assets/Scripts/PlayerController.cs:169-183 | After the writes, a declared `block` is true on started, false on canceled and unchanged on performed. Nothing else changes. The only possible write is `block` set to whether the phase is started, and it is issued exactly on started with `block` reading false or canceled with it reading true |
| `ScriptsPlayer.Subscribers` | Assets/Scripts/PlayerController.cs:45-65 | Attack started runs the attack handler and then the block handler. Attack canceled runs only the block handler. Movement runs in every phase, Run in started and canceled, Interact in started; no other action or phase runs more than one handler |
| `ScriptsPlayer.PlayerController.constructor` | Assets/Scripts/PlayerController.cs:15-41 | Fields start at their defaults: zero movement, all intent flags false, no moves |
| `ScriptsPlayer.PlayerController.OnMovement` | Assets/Scripts/PlayerController.cs:129-134 | Stores the axis on the ground plane with vertical 0. The moving flag is set iff the axis x or y is nonzero |
| `ScriptsPlayer.PlayerController.OnRotate` | Assets/Scripts/PlayerController.cs:137-151 | Turns towards the horizontal movement iff moving, and that direction is then nonzero. Otherwise the rotation is untouched |
| `ScriptsPlayer.PlayerController.OnRun` | Assets/Scripts/PlayerController.cs:154-157 | The running flag becomes the button value |
| `ScriptsPlayer.PlayerController.OnAttack` | Assets/Scripts/PlayerController.cs:160-166 | Fires the `attack` trigger exactly once on started and does nothing in other phases. No flag is written |
| `ScriptsPlayer.PlayerController.OnBlock` | Assets/Scripts/PlayerController.cs:169-183 | Writes exactly `BlockWrites`. Afterwards the blocking field is false on canceled and otherwise holds the flag's earlier value |
| `ScriptsPlayer.PlayerController.AnimatePlayer` | Assets/Scripts/PlayerController.cs:102-126 | Issues exactly the `Reconcile` writes, keeps the no-redundant-write log invariant and fires no trigger |
| `ScriptsPlayer.PlayerController.HandleGravity` | Assets/Scripts/PlayerController.cs:195-208 | Sets the vertical movement to -0.05 iff grounded and to -9.8 otherwise. Nothing else changes |
| `ScriptsPlayer.PlayerController.Update` | Assets/Scripts/PlayerController.cs:68-89 | Applies, from the state at the start of the frame, the rotation rule, the `Reconcile` writes and the `MoveCalls` moves, then the gravity branch. The intent flags do not change |
| `ScriptsPlayer.PlayerController.Handle` | Assets/Scripts/PlayerController.cs:128-192 | Each callback has its documented effect and changes nothing that belongs to another callback. The interact callback changes nothing |
| `ScriptsPlayer.PlayerController.Dispatch` | Assets/Scripts/PlayerController.cs:45-65 | One attack press fires the trigger and runs the block logic. A release runs only the block logic. Movement and Run events reach only their own handler |
| `ScriptsPlayer.AttackPressedTwice` | Assets/Scripts/PlayerController.cs:169-183 | Two presses without a release leave `block` raised and blocking true, fire two triggers and write at most once |
| `ScriptsPlayer.AttackPressedAndReleased` | Assets/Scripts/PlayerController.cs:169-183 | A press and a release leave `block` and blocking false, with one trigger fired |
| `ScriptsPlayer.AttackHeldThroughFrame` | Assets/Scripts/PlayerController.cs:68-89 | A press of the attack button, a frame and a release issue no block move; the frame's last move is the walk move, and `block` and blocking end false |
| `ScriptsPlayer.RunningOutlivesRunButton` | Assets/Scripts/PlayerController.cs:117-125 | After releasing run while still moving, `running` stays raised |
| `CharactersPlayer.GroundMovement` | Assets/Characters/Player/PlayerController.cs:95-104 | The stored movement has vertical 0. It is horizontally nonzero iff the multiplier and the axis are nonzero |
| `CharactersPlayer.PlayerController.constructor` | Assets/Characters/Player/PlayerController.cs:15-33 | Fields start at their defaults with the given multipliers |
| `CharactersPlayer.PlayerController.WithDefaults` | Assets/Characters/Player/PlayerController.cs:15-18 | Fields start at their defaults, with the walk multiplier 1.5 and the run multiplier 3.0 |
| `CharactersPlayer.PlayerController.OnMovement` | Assets/Characters/Player/PlayerController.cs:93-106 | When running, stores the run-scaled input and leaves the moving flag unchanged. Otherwise stores the walk-scaled input and sets moving iff the scaled x or z is nonzero |
| `CharactersPlayer.PlayerController.OnRotate` | Assets/Characters/Player/PlayerController.cs:109-123 | Turns towards the horizontal movement iff the moving flag is set. Otherwise the rotation is untouched |
| `CharactersPlayer.PlayerController.OnRun` | Assets/Characters/Player/PlayerController.cs:125-128 | The running flag becomes the button value |
| `CharactersPlayer.PlayerController.AnimatePlayer` | Assets/Characters/Player/PlayerController.cs:66-90 | Issues exactly the `Reconcile` writes and keeps the no-redundant-write log invariant |
| `CharactersPlayer.PlayerController.Update` | Assets/Characters/Player/PlayerController.cs:48-53 | Applies the rotation rule, exactly one `Move` of the stored movement, and the `Reconcile` writes |
| `CharactersPlayer.StaleMovingFlag` | Assets/Characters/Player/PlayerController.cs:93-106 | Releasing the movement keys while running leaves the moving flag set, the movement zero and `walking` raised. The character turns towards the zero vector |

## Left out

- `Time.deltaTime`, the rotation multiplier, `Quaternion.LookRotation` and `Quaternion.Slerp` are left out because they are floating-point engine math. A rotation is a symbolic term, and a `Move` call records the movement and its speed tag, not the frame-scaled displacement.
- Floating point: vectors and multipliers are exact reals. Rounding, NaN and negative zero are not modelled. Neither is the serialized value of the Scripts multipliers; there, only which multiplier a move uses is kept.
- `CharacterController.Move` collision resolution and the computation of `isGrounded` are foreign engine behaviour. `Move` appends to a log, and `isGrounded` is a parameter of `ScriptsPlayer.PlayerController.Update`.
- `Animator.StringToHash` and `GetComponent` are engine calls: parameters are addressed by name, and the animator is given to the constructor. On a parameter the animator does not declare, `GetBool` returns false and `SetBool` stores nothing; the engine's warning is not modelled.
- Input System enabling and disabling (`OnEnable`, `OnDisable`) is engine plumbing and is left out. The `Start` wiring of the Characters version is left out too: it routes every Movement phase to `OnMovement`, and Run started and canceled to `OnRun`, and nothing in the model depends on it.
- `OnInteract` has an empty body. The dispatch table routes Interact started to a handler that changes nothing.
- CharactersPlayer.PlayerController.Update: the order rotate, then `Move`, then animate is not observable in the model. Each effect goes to its own target and none reads what another writes. The contract states all three effects, each computed from the state at the start of the frame.
- The Characters version hashes `attacking` and `blocking` but never uses them, so they are not modelled.
- `CameraController.cs`, `Inventory.cs`, `Interactable.cs` and `Item.cs` are not part of this model. They hold engine transform math and an item list outside the controller's state machine.
