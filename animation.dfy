/** The animator's parameter table and the flag reconciliation rule that
    both player controllers apply to it every frame. */
module Animation {

  /** Parameter names as the controllers hash them. */
  const Walking := "walking"
  const Running := "running"

  /** One `SetBool(name, value)` call on the animator. */
  datatype FlagWrite = FlagWrite(name: string, value: bool)

  /** `GetBool`: a parameter the table does not hold reads as false. */
  function Get(params: map<string, bool>, name: string): bool {
    if name in params then params[name] else false
  }

  /** `SetBool` on the table: a declared parameter takes the value; a name
      the table does not declare is not added, and nothing is stored. */
  function Store(params: map<string, bool>, w: FlagWrite): (r: map<string, bool>)
    ensures r.Keys == params.Keys
    ensures w.name in params ==> Get(r, w.name) == w.value
    ensures r - {w.name} == params - {w.name}
  {
    if w.name in params then params[w.name := w.value] else params
  }

  /** The table after a sequence of writes, applied in order. */
  function Apply(params: map<string, bool>, ws: seq<FlagWrite>): map<string, bool>
    decreases |ws|
  {
    if ws == [] then params
    else Apply(Store(params, ws[0]), ws[1..])
  }

  /** No write in `ws` targets a flag that, at the moment the write is
      applied, already reads as the value written. */
  predicate Effective(params: map<string, bool>, ws: seq<FlagWrite>)
    decreases |ws|
  {
    ws == [] ||
    (Get(params, ws[0].name) != ws[0].value &&
     Effective(Store(params, ws[0]), ws[1..]))
  }

  lemma ApplyAtMostOne(params: map<string, bool>, ws: seq<FlagWrite>)
    requires |ws| <= 1
    ensures Apply(params, ws) == if ws == [] then params else Store(params, ws[0])
    ensures Effective(params, ws) <==> ws == [] || Get(params, ws[0].name) != ws[0].value
  {
  }

  lemma {:induction false} ApplyAppend(params: map<string, bool>, a: seq<FlagWrite>, b: seq<FlagWrite>)
    ensures Apply(params, a + b) == Apply(Apply(params, a), b)
    decreases |a|
  {
    if a == [] {
      assert a + b == b;
    } else {
      assert (a + b)[0] == a[0];
      assert (a + b)[1..] == a[1..] + b;
      ApplyAppend(Store(params, a[0]), a[1..], b);
    }
  }

  /** A log is free of redundant writes exactly when both of its parts are,
      the second judged against the table the first leaves behind. */
  lemma {:induction false} EffectiveAppend(params: map<string, bool>, a: seq<FlagWrite>, b: seq<FlagWrite>)
    ensures Effective(params, a + b) <==> Effective(params, a) && Effective(Apply(params, a), b)
    decreases |a|
  {
    if a == [] {
      assert a + b == b;
    } else {
      assert (a + b)[0] == a[0];
      assert (a + b)[1..] == a[1..] + b;
      EffectiveAppend(Store(params, a[0]), a[1..], b);
    }
  }

  /** The writes `AnimatePlayer` issues, given the controller's moving and
      running intent and the table as it stands. The `walking` flag is made
      to follow `moving`; the `running` flag is raised only when moving and
      running, lowered only when neither, and left as it is otherwise. A
      flag the animator does not declare keeps reading as false. */
  function Reconcile(moving: bool, running: bool, params: map<string, bool>): (ws: seq<FlagWrite>)
    ensures Walking in params ==> Get(Apply(params, ws), Walking) == moving
    ensures Running in params ==>
              Get(Apply(params, ws), Running) ==
                if moving && running then true
                else if !moving && !running then false
                else Get(params, Running)
    ensures Apply(params, ws).Keys == params.Keys
    ensures Apply(params, ws) - {Walking, Running} == params - {Walking, Running}
    ensures Effective(params, ws)
  {
    var walkingNow := Get(params, Walking);
    var runningNow := Get(params, Running);
    var walkingWrites :=
      (if moving && !walkingNow then [FlagWrite(Walking, true)] else []) +
      (if !moving && walkingNow then [FlagWrite(Walking, false)] else []);
    var runningWrites :=
      (if moving && running && !runningNow then [FlagWrite(Running, true)] else []) +
      (if !moving && !running && runningNow then [FlagWrite(Running, false)] else []);
    var afterWalking := Apply(params, walkingWrites);
    ApplyAtMostOne(params, walkingWrites);
    ApplyAtMostOne(afterWalking, runningWrites);
    ApplyAppend(params, walkingWrites, runningWrites);
    EffectiveAppend(params, walkingWrites, runningWrites);
    walkingWrites + runningWrites
  }

  /** Which writes the reconciler issues: each flag at most once, and only
      with its wanted value when it does not already read that value.
      `walking` is written exactly when it differs from the moving intent;
      `running` only when moving and running agree, and then exactly when it
      differs from them. Nothing else is written. */
  lemma ReconcileWritesOnlyWanted(moving: bool, running: bool, params: map<string, bool>)
    ensures var ws := Reconcile(moving, running, params);
      (forall i, j :: 0 <= i < j < |ws| ==> ws[i].name != ws[j].name) &&
      (FlagWrite(Walking, moving) in ws <==> Get(params, Walking) != moving) &&
      (FlagWrite(Running, moving) in ws <==> moving == running && Get(params, Running) != moving) &&
      (forall w :: w in ws ==>
         w == FlagWrite(Walking, moving) || (moving == running && w == FlagWrite(Running, moving)))
  {
  }

  /** On an animator that declares both flags, running the reconciler a
      second time with unchanged intent writes nothing. */
  lemma ReconcileIdempotent(moving: bool, running: bool, params: map<string, bool>)
    requires Walking in params && Running in params
    ensures Reconcile(moving, running, Apply(params, Reconcile(moving, running, params))) == []
  {
  }

  /** On an animator that does not declare `walking`, a moving player's
      `walking` write is issued again on every frame, since the flag keeps
      reading as false. */
  lemma UndeclaredWalkingRewritten(running: bool, params: map<string, bool>)
    requires Walking !in params
    ensures FlagWrite(Walking, true) in Reconcile(true, running, params)
    ensures FlagWrite(Walking, true) in Reconcile(true, running, Apply(params, Reconcile(true, running, params)))
  {
  }

  /** The `running` flag is left as it is whenever exactly one of moving
      and running holds: neither walking on after releasing run nor
      stopping while still holding run lowers it. */
  lemma RunningKeptOnMixedIntent(moving: bool, running: bool, params: map<string, bool>)
    requires moving != running
    ensures Get(Apply(params, Reconcile(moving, running, params)), Running) == Get(params, Running)
  {
  }

  /** Once reconciled, a raised `running` flag means the player is moving
      or holding the run button; it never stays raised while both are off. */
  lemma ReconciledRunningNeedsIntent(moving: bool, running: bool, params: map<string, bool>)
    ensures Get(Apply(params, Reconcile(moving, running, params)), Running) ==> moving || running
  {
  }

  /** The host animator: its boolean parameter table, the log of every
      `SetBool` call made on it and the log of every `SetTrigger` call. */
  class Animator {
    var params: map<string, bool>
    var writes: seq<FlagWrite>
    var triggers: seq<string>
    /** The table as it stood before any write was logged. */
    ghost var initial: map<string, bool>

    /** The table is the initial one with the logged writes applied. */
    ghost predicate Tracked()
      reads this
    {
      params == Apply(initial, writes)
    }

    /** Besides, no logged write was redundant. */
    ghost predicate OnlyEffectiveWrites()
      reads this
    {
      Tracked() && Effective(initial, writes)
    }

    constructor (params0: map<string, bool>)
      ensures params == params0 && writes == [] && triggers == []
      ensures OnlyEffectiveWrites()
    {
      params, writes, triggers := params0, [], [];
      initial := params0;
    }

    function GetBool(name: string): bool
      reads this
    {
      Get(params, name)
    }

    method SetBool(name: string, value: bool)
      modifies this
      ensures params == Store(old(params), FlagWrite(name, value))
      ensures writes == old(writes) + [FlagWrite(name, value)]
      ensures triggers == old(triggers) && initial == old(initial)
      ensures old(Tracked()) ==> Tracked()
    {
      ApplyAppend(initial, writes, [FlagWrite(name, value)]);
      ApplyAtMostOne(params, [FlagWrite(name, value)]);
      if name in params {
        params := params[name := value];
      }
      writes := writes + [FlagWrite(name, value)];
    }

    method SetTrigger(name: string)
      modifies this
      ensures triggers == old(triggers) + [name]
      ensures params == old(params) && writes == old(writes) && initial == old(initial)
    {
      triggers := triggers + [name];
    }

    /** A log that was free of redundant writes, extended by writes that are
        effective against the table it had produced, is still free of them;
        the table is then the old one with the new writes applied. */
    lemma AppendedEffective(before: seq<FlagWrite>, ws: seq<FlagWrite>)
      requires Tracked() && writes == before + ws
      requires Effective(initial, before) && Effective(Apply(initial, before), ws)
      ensures OnlyEffectiveWrites()
      ensures params == Apply(Apply(initial, before), ws)
    {
      ApplyAppend(initial, before, ws);
      EffectiveAppend(initial, before, ws);
    }
  }
}
