/**
 Which old copies of a Kubeconfig are harmful. A reconcile whose snapshot is as fresh as `Admissible` asks never leaks a
 binding; here a reconcile starts from any snapshot of the living object, however old, and everything after it is as usual.
 */
module RbacStale {
  import opened Wrappers
  import opened ApiCalls
  import opened Ordering
  import opened RbacModel
  import opened RbacSafety
  import opened RbacConvergence

  ghost predicate Owned(w: World, k: Key) {
    k in w.bindings && w.bindings[k].owner.Some? && Ours(w, w.bindings[k].owner.value)
  }

  ghost predicate BoundOutside(w: World, uid: Uid, ws: Workspace) {
    exists k :: k in w.bindings && w.bindings[k].owner == Some(uid) && k.ws != ws
  }

  ghost predicate Bound(w: World, uid: Uid) {
    exists k :: k in w.bindings && w.bindings[k].owner == Some(uid)
  }

  /** What the first steps of the reconcile will do to the object as it is now. */
  ghost predicate Harmful(w: World, kc: Kubeconfig)
    requires w.obj.Some?
  {
    var obj := w.obj.value;
    match Begin(kc)
    case Listing(_, ws, unprovision) =>
      if unprovision then BoundOutside(w, obj.uid, ws)
      else DesiredRoles(kc.spec) != {} && !(CLEANUP in obj.finalizers && obj.provisioned == Some(ws))
    case RecordingCluster(_, ws) => BoundOutside(w, obj.uid, ws)
    case RemovingFinalizer(_) => Bound(w, obj.uid) && CanStore(w, kc.finalizers - {CLEANUP})
    case _ => false
  }

  // ----- Harmless snapshots: an invariant that does not ask how fresh they are -----

  ghost predicate SafeWorld(w: World) {
    && (forall k | Owned(w, k) ::
          && w.obj.Some? && w.bindings[k].owner == Some(w.obj.value.uid) && k.ws != ""
          && w.obj.value.provisioned == Some(k.ws) && CLEANUP in w.obj.value.finalizers)
    && (w.obj.Some? ==> w.obj.value.uid !in w.retired)
  }

  ghost predicate OwnedOnlyIn(w: World, uid: Uid, ws: Workspace) {
    forall k | Owned(w, k) :: w.bindings[k].owner == Some(uid) && k.ws == ws
  }

  ghost predicate NoneOwned(w: World) {
    forall k :: !Owned(w, k)
  }

  ghost predicate OwnedListed(w: World, todo: seq<string>) {
    forall k | Owned(w, k) :: k.name in todo
  }

  ghost predicate MayBind(w: World, kc: Kubeconfig, ws: Workspace) {
    && w.obj.Some? && w.obj.value.uid == kc.uid
    && CLEANUP in w.obj.value.finalizers && w.obj.value.provisioned == Some(ws) && ws != ""
  }

  ghost predicate SafePc(s: State) {
    match s.pc
    case Idle => true
    case AddingFinalizer(_) => true
    case Listing(kc, ws, unprovision) =>
      if unprovision then OwnedOnlyIn(s.w, kc.uid, ws) else DesiredRoles(kc.spec) == {} || MayBind(s.w, kc, ws)
    case Deleting(kc, ws, todo, unprovision) =>
      if unprovision then OwnedOnlyIn(s.w, kc.uid, ws) && OwnedListed(s.w, todo)
      else DesiredRoles(kc.spec) == {} || MayBind(s.w, kc, ws)
    case ClearingStatus(_) => NoneOwned(s.w)
    case RemovingFinalizer(kc) => NoneOwned(s.w) || (s.w.obj.Some? && !CanStore(s.w, kc.finalizers - {CLEANUP}))
    case RecordingCluster(kc, ws) => OwnedOnlyIn(s.w, kc.uid, ws)
    case Ensuring(kc, ws, todo) => MayBind(s.w, kc, ws)
  }

  ghost predicate Safe(s: State) {
    SafeWorld(s.w) && SafePc(s)
  }

  lemma GetKeepsSafe(s: State, kc: Kubeconfig)
    requires Safe(s)
    ensures Safe(Next(s, Get(kc)))
  {
  }

  lemma EnvOwnsNothingNew(w: World, e: EnvStep)
    ensures forall k | Owned(EnvEffect(w, e), k) :: Owned(w, k) && w.bindings[k] == EnvEffect(w, e).bindings[k]
  {
  }

  lemma EnvKeepsSafe(s: State, e: EnvStep)
    requires Safe(s)
    ensures Safe(Next(s, Env(e)))
  {
    EnvOwnsNothingNew(s.w, e);
  }

  lemma NextDeleteSafe(w: World, kc: Kubeconfig, ws: Workspace, todo: seq<string>, unprovision: bool)
    requires SafeWorld(w)
    requires if unprovision then OwnedOnlyIn(w, kc.uid, ws) && OwnedListed(w, todo)
             else DesiredRoles(kc.spec) == {} || MayBind(w, kc, ws)
    ensures SafePc(State(w, NextDelete(kc, ws, todo, unprovision)))
  {
  }

  lemma ListedOwned(w: World, kc: Kubeconfig, ws: Workspace)
    requires OwnedOnlyIn(w, kc.uid, ws)
    ensures OwnedListed(w, SortedList(OwnedNames(w, kc.uid, ws)))
  {
    forall k | Owned(w, k)
      ensures k.name in SortedList(OwnedNames(w, kc.uid, ws))
    {
      OwnedNamesMember(w, kc.uid, k);
      assert k.name in Elements(SortedList(OwnedNames(w, kc.uid, ws)));
    }
  }

  lemma DeletedUnlisted(w: World, w': World, ws: Workspace, uid: Uid, todo: seq<string>)
    requires todo != [] && OwnedOnlyIn(w, uid, ws) && OwnedListed(w, todo)
    requires w' == w.(bindings := w.bindings - {Key(ws, todo[0])})
    ensures OwnedOnlyIn(w', uid, ws) && OwnedListed(w', todo[1..])
  {
    forall k | Owned(w', k)
      ensures w'.bindings[k].owner == Some(uid) && k.ws == ws && k.name in todo[1..]
    {
      assert Owned(w, k) && k != Key(ws, todo[0]);
    }
  }

  lemma CallKeepsSafe(s: State, outcome: Outcome)
    requires Safe(s)
    ensures Safe(Next(s, Call(outcome)))
  {
    if CanApply(s) && !outcome.Refused? {
      var w := Apply(s);
      match s.pc
      case Listing(kc, ws, unprovision) =>
        if unprovision {
          ListedOwned(w, kc, ws);
        }
        NextDeleteSafe(w, kc, ws, SortedList(if unprovision then OwnedNames(w, kc.uid, ws) else OverhangingNames(w, kc, ws)), unprovision);
      case Deleting(kc, ws, todo, unprovision) =>
        if unprovision {
          DeletedUnlisted(s.w, w, ws, kc.uid, todo);
        }
        NextDeleteSafe(w, kc, ws, todo[1..], unprovision);
      case _ =>
    }
  }

  lemma {:induction false} RunKeepsSafe(s: State, steps: seq<Step>)
    requires Safe(s)
    ensures Safe(Run(s, steps))
    decreases |steps|
  {
    if steps != [] {
      var before, step := Run(s, steps[..|steps| - 1]), steps[|steps| - 1];
      RunKeepsSafe(s, steps[..|steps| - 1]);
      match step
      case Get(kc) => GetKeepsSafe(before, kc);
      case Call(outcome) => CallKeepsSafe(before, outcome);
      case Env(e) => EnvKeepsSafe(before, e);
    }
  }

  lemma HarmlessStartsSafe(w: World, kc: Kubeconfig)
    requires WorldInv(w) && w.obj.Some? && kc.uid == w.obj.value.uid && !Harmful(w, kc)
    ensures Safe(State(w, Begin(kc)))
  {
  }

  // ----- Harmful snapshots: how a binding gets lost -----

  lemma RunTwo(s: State, a: Step, b: Step)
    ensures Run(s, [a, b]) == Next(Next(s, a), b)
  {
    assert [a, b][..1] == [a] && [a][..0] == [];
    assert Run(s, [a]) == Next(Run(s, []), a);
  }

  lemma {:induction false} RunConcat(s: State, first: seq<Step>, second: seq<Step>)
    ensures Run(s, first + second) == Run(Run(s, first), second)
    decreases |second|
  {
    if second == [] {
      assert first + second == first;
    } else {
      var n := |first + second|;
      assert (first + second)[..n - 1] == first + second[..|second| - 1];
      RunConcat(s, first, second[..|second| - 1]);
    }
  }

  /** A binding of the living object that nothing remembers: outside the recorded workspace, or without the finalizer. */
  ghost predicate Stray(w: World, k: Key) {
    && w.obj.Some? && k in w.bindings && w.bindings[k].owner == Some(w.obj.value.uid) && k.ws != ""
    && !(CLEANUP in w.obj.value.finalizers && w.obj.value.provisioned == Some(k.ws))
  }

  /** Every reconcile of the run starts from the object as it is stored at that moment. */
  ghost predicate ReadsStored(s: State, steps: seq<Step>) {
    forall i | 0 <= i < |steps| && steps[i].Get? :: Run(s, steps[..i]).w.obj == Some(steps[i].snapshot)
  }

  lemma ReadsStoredConcat(s: State, first: seq<Step>, second: seq<Step>)
    requires ReadsStored(s, first) && ReadsStored(Run(s, first), second)
    ensures ReadsStored(s, first + second)
  {
    var steps := first + second;
    forall i | 0 <= i < |steps| && steps[i].Get?
      ensures Run(s, steps[..i]).w.obj == Some(steps[i].snapshot)
    {
      if i < |first| {
        assert steps[..i] == first[..i];
      } else {
        assert steps[..i] == first + second[..i - |first|];
        RunConcat(s, first, second[..i - |first|]);
      }
    }
  }

  /** With the finalizer gone, the object only has to be deleted. */
  lemma UnprotectedCanLeak(w: World, k: Key) returns (steps: seq<Step>)
    requires Stray(w, k) && CLEANUP !in w.obj.value.finalizers
    ensures Leaked(Run(State(w, Idle), steps).w, k) && ReadsStored(State(w, Idle), steps)
  {
    steps := [Env(EditFinalizers({})), Env(DeleteObject)];
    RunTwo(State(w, Idle), steps[0], steps[1]);
  }

  /** A reconcile that takes the finalizer off, because its snapshot has no authorization and records no workspace. */
  lemma ReleaseCanLeak(w: World, k: Key, snapshot: Kubeconfig) returns (steps: seq<Step>)
    requires Stray(w, k) && CLEANUP in w.obj.value.finalizers && Admissible(snapshot, w.obj.value)
    requires snapshot.finalizers == {CLEANUP} && snapshot.spec.authorization.None? && snapshot.provisioned.GetOr("") == ""
    requires snapshot.deleting ==> snapshot.provisioned.Some?
    ensures Leaked(Run(State(w, Idle), steps).w, k)
    ensures w.obj == Some(snapshot) ==> ReadsStored(State(w, Idle), steps)
  {
    var s := State(w, Idle);
    var released := Next(State(w, RemovingFinalizer(snapshot)), Call(Done));
    assert Next(s, Get(snapshot)) == State(w, RemovingFinalizer(snapshot));
    assert snapshot.finalizers - {CLEANUP} == {};
    RunTwo(s, Get(snapshot), Call(Done));
    steps := [Get(snapshot), Call(Done)];
    assert w.obj == Some(snapshot) ==> ReadsStored(s, steps);
    if released.w.obj.Some? {
      var more := UnprotectedCanLeak(released.w, k);
      RunConcat(s, steps, more);
      if w.obj == Some(snapshot) {
        ReadsStoredConcat(s, steps, more);
      }
      steps := steps + more;
    }
  }

  function Bare(kc: Kubeconfig): Kubeconfig {
    kc.(spec := kc.spec.(authorization := None), finalizers := {CLEANUP})
  }

  /** The user takes the authorization away, and others their finalizers. */
  function Stripping(kc: Kubeconfig): seq<Step> {
    [Env(EditSpec(Bare(kc).spec)), Env(EditFinalizers({CLEANUP}))]
  }

  lemma StrippedIsBare(w: World)
    requires w.obj.Some? && CLEANUP in w.obj.value.finalizers
    ensures Run(State(w, Idle), Stripping(w.obj.value)) == State(w.(obj := Some(Bare(w.obj.value))), Idle)
    ensures ReadsStored(State(w, Idle), Stripping(w.obj.value))
  {
    var kc := Bare(w.obj.value);
    var edited := State(w.(obj := Some(w.obj.value.(spec := kc.spec))), Idle);
    assert Next(State(w, Idle), Env(EditSpec(kc.spec))) == edited;
    RunTwo(State(w, Idle), Env(EditSpec(kc.spec)), Env(EditFinalizers({CLEANUP})));
  }

  /** With no workspace recorded, a reconcile of an object without authorization takes the finalizer off. */
  lemma UnrecordedCanLeak(w: World, k: Key) returns (steps: seq<Step>)
    requires Stray(w, k) && CLEANUP in w.obj.value.finalizers && w.obj.value.provisioned.GetOr("") == ""
    requires w.obj.value.deleting ==> w.obj.value.provisioned.Some?
    ensures Leaked(Run(State(w, Idle), steps).w, k) && ReadsStored(State(w, Idle), steps)
  {
    var s, kc := State(w, Idle), Bare(w.obj.value);
    StrippedIsBare(w);
    var more := ReleaseCanLeak(w.(obj := Some(kc)), k, kc);
    steps := Stripping(w.obj.value) + more;
    RunConcat(s, Stripping(w.obj.value), more);
    ReadsStoredConcat(s, Stripping(w.obj.value), more);
  }

  lemma {:induction false} DrainIsRun(s: State) returns (steps: seq<Step>)
    ensures Run(s, steps) == Drain(s) && forall step | step in steps :: step.Call?
    decreases Rank(s.pc), Pending(s.pc)
  {
    if s.pc.Idle? {
      steps := [];
    } else {
      var rest := DrainIsRun(Next(s, Call(Done)));
      assert Run(s, [Call(Done)]) == Next(Run(s, [Call(Done)][..0]), Call(Done));
      RunConcat(s, [Call(Done)], rest);
      steps := [Call(Done)] + rest;
    }
  }

  /** With another workspace recorded, unprovisioning looks there and clears the record. */
  lemma UnprovisioningMisses(w: World, kc: Kubeconfig, ws: Workspace, k: Key)
    requires w.obj == Some(kc) && kc.provisioned == Some(ws) && ws != "" && kc.finalizers == {CLEANUP}
    requires Stray(w, k)
    ensures var s := Drain(State(w, Listing(kc, ws, true)));
      && s.pc == Idle
      && if kc.deleting then Leaked(s.w, k)
         else Stray(s.w, k) && s.w.obj == Some(kc.(provisioned := Some("")))
  {
    var cleared := kc.(provisioned := Some(""));
    var w' := World(Some(cleared), Emptied(w, kc, ws), w.retired);
    DrainUnprovision(w, kc, ws);
    assert k in Emptied(w, kc, ws);
    if kc.deleting {
      OneCallReconcile(w', RemovingFinalizer(cleared));
      assert cleared.finalizers - {CLEANUP} == {};
    }
  }

  lemma MisrecordedCanLeak(w: World, k: Key) returns (steps: seq<Step>)
    requires Stray(w, k) && CLEANUP in w.obj.value.finalizers && w.obj.value.provisioned.GetOr("") != ""
    ensures Leaked(Run(State(w, Idle), steps).w, k) && ReadsStored(State(w, Idle), steps)
  {
    var s, kc := State(w, Idle), Bare(w.obj.value);
    var w1 := w.(obj := Some(kc));
    StrippedIsBare(w);
    var more := BareCanLeak(w1, k);
    steps := Stripping(w.obj.value) + more;
    RunConcat(s, Stripping(w.obj.value), more);
    ReadsStoredConcat(s, Stripping(w.obj.value), more);
  }

  lemma BareCanLeak(w: World, k: Key) returns (steps: seq<Step>)
    requires Stray(w, k) && w.obj.value.finalizers == {CLEANUP} && w.obj.value.spec.authorization.None?
    requires w.obj.value.provisioned.GetOr("") != ""
    ensures Leaked(Run(State(w, Idle), steps).w, k) && ReadsStored(State(w, Idle), steps)
  {
    var s, kc := State(w, Idle), w.obj.value;
    var ws := kc.provisioned.value;
    var s1 := State(w, Listing(kc, ws, true));
    var calls := DrainIsRun(s1);
    UnprovisioningMisses(w, kc, ws, k);
    assert Next(s, Get(kc)) == s1;
    GetThenCalls(s, kc, calls);
    steps := [Get(kc)] + calls;
    if !kc.deleting {
      var more := UnrecordedCanLeak(Drain(s1).w, k);
      RunConcat(s, steps, more);
      ReadsStoredConcat(s, steps, more);
      steps := steps + more;
    }
  }

  lemma GetThenCalls(s: State, kc: Kubeconfig, calls: seq<Step>)
    requires s.w.obj == Some(kc) && s.pc.Idle? && forall step | step in calls :: step.Call?
    ensures Run(s, [Get(kc)] + calls) == Run(Next(s, Get(kc)), calls) && ReadsStored(s, [Get(kc)] + calls)
  {
    assert [Get(kc)][..0] == [];
    assert Run(s, [Get(kc)]) == Next(Run(s, []), Get(kc)) && ReadsStored(s, [Get(kc)]);
    RunConcat(s, [Get(kc)], calls);
    CallsReadNothing(Run(s, [Get(kc)]), calls);
    ReadsStoredConcat(s, [Get(kc)], calls);
  }

  lemma CallsReadNothing(s: State, calls: seq<Step>)
    requires forall step | step in calls :: step.Call?
    ensures ReadsStored(s, calls)
  {
    forall i | 0 <= i < |calls|
      ensures !calls[i].Get?
    {
      assert calls[i] in calls;
    }
  }

  /** Any such binding leaks on some run whose reconciles all read the stored object, unless its deletion is stuck. */
  lemma StrayCanLeak(w: World, k: Key) returns (steps: seq<Step>)
    requires Stray(w, k) && !(w.obj.value.deleting && w.obj.value.provisioned.None?)
    ensures Leaked(Run(State(w, Idle), steps).w, k) && ReadsStored(State(w, Idle), steps)
  {
    if CLEANUP !in w.obj.value.finalizers {
      steps := UnprotectedCanLeak(w, k);
    } else if w.obj.value.provisioned.GetOr("") == "" {
      steps := UnrecordedCanLeak(w, k);
    } else {
      steps := MisrecordedCanLeak(w, k);
    }
  }

  /** If it is stuck, it takes a reconcile that has not seen the deletion mark yet. */
  lemma StuckCanLeak(w: World, k: Key) returns (steps: seq<Step>)
    requires Stray(w, k) && w.obj.value.deleting && w.obj.value.provisioned.None?
    ensures Leaked(Run(State(w, Idle), steps).w, k)
  {
    if CLEANUP !in w.obj.value.finalizers {
      steps := UnprotectedCanLeak(w, k);
    } else {
      var s, kc := State(w, Idle), Bare(w.obj.value);
      StrippedIsBare(w);
      var more := ReleaseCanLeak(w.(obj := Some(kc)), k, kc.(deleting := false));
      RunConcat(s, Stripping(w.obj.value), more);
      steps := Stripping(w.obj.value) + more;
    }
  }

  /** The state a stale reconcile leaves when it breaks off: a stray binding, or one whose object is gone already. */
  ghost predicate Lost(s: State, k: Key) {
    s.pc == Idle && (Stray(s.w, k) || Leaked(s.w, k))
  }

  lemma EnsuringStrays(w: World, kc: Kubeconfig, ws: Workspace, todo: seq<string>)
    requires w.obj.Some? && kc.uid == w.obj.value.uid && ws != "" && todo != []
    requires !(CLEANUP in w.obj.value.finalizers && w.obj.value.provisioned == Some(ws))
    ensures Lost(Next(Next(State(w, Ensuring(kc, ws, todo)), Call(Done)), Call(Refused)), Key(ws, BindingName(kc.uid, todo[0])))
  {
  }

  lemma BindingLosesIt(w: World, kc: Kubeconfig, ws: Workspace) returns (steps: seq<Step>, k: Key)
    requires WorldInv(w) && w.obj.Some? && kc.uid == w.obj.value.uid && Harmful(w, kc) && Begin(kc) == Listing(kc, ws, false)
    ensures Lost(Run(State(w, Begin(kc)), steps), k)
  {
    var s, roles := State(w, Begin(kc)), SortedList(DesiredRoles(kc.spec));
    NothingOwnedThere(w, kc, ws);
    assert Next(s, Call(Done)) == State(w, Ensuring(kc, ws, roles));
    EnsuringStrays(w, kc, ws, roles);
    k := Key(ws, BindingName(kc.uid, roles[0]));
    steps := [Call(Done), Call(Done), Call(Refused)];
    RunThree(s, Call(Done), Call(Done), Call(Refused));
  }

  lemma UnprovisioningLosesIt(w: World, kc: Kubeconfig, ws: Workspace) returns (steps: seq<Step>, k: Key)
    requires WorldInv(w) && w.obj.Some? && kc.uid == w.obj.value.uid && Harmful(w, kc) && Begin(kc) == Listing(kc, ws, true)
    ensures Lost(Run(State(w, Begin(kc)), steps), k)
  {
    var s := State(w, Begin(kc));
    NothingOwnedThere(w, kc, ws);
    k :| k in w.bindings && w.bindings[k].owner == Some(kc.uid) && k.ws != ws;
    assert Next(s, Call(Done)) == State(w, ClearingStatus(kc));
    steps := [Call(Done), Call(Done), Call(Refused)];
    RunThree(s, Call(Done), Call(Done), Call(Refused));
  }

  lemma PatchingLosesIt(w: World, kc: Kubeconfig) returns (steps: seq<Step>, k: Key)
    requires WorldInv(w) && w.obj.Some? && kc.uid == w.obj.value.uid && Harmful(w, kc)
    requires Begin(kc).RecordingCluster? || Begin(kc).RemovingFinalizer?
    ensures Lost(Run(State(w, Begin(kc)), steps), k)
  {
    var s := State(w, Begin(kc));
    k :| k in w.bindings && w.bindings[k].owner == Some(kc.uid) && (Begin(kc).RecordingCluster? ==> k.ws != Begin(kc).ws);
    steps := [Call(Done), Call(Refused)];
    RunTwo(s, Call(Done), Call(Refused));
  }

  lemma HarmfulLosesIt(w: World, kc: Kubeconfig) returns (steps: seq<Step>, k: Key)
    requires WorldInv(w) && w.obj.Some? && kc.uid == w.obj.value.uid && Harmful(w, kc)
    ensures Lost(Run(State(w, Begin(kc)), steps), k)
  {
    match Begin(kc)
    case Listing(_, ws, unprovision) =>
      if unprovision {
        steps, k := UnprovisioningLosesIt(w, kc, ws);
      } else {
        steps, k := BindingLosesIt(w, kc, ws);
      }
    case _ => steps, k := PatchingLosesIt(w, kc);
  }

  lemma NothingOwnedThere(w: World, kc: Kubeconfig, ws: Workspace)
    requires WorldInv(w) && w.obj.Some? && kc.uid == w.obj.value.uid
    requires w.obj.value.provisioned != Some(ws) || CLEANUP !in w.obj.value.finalizers || BoundOutside(w, kc.uid, ws)
    ensures SortedList(OwnedNames(w, kc.uid, ws)) == [] && SortedList(OverhangingNames(w, kc, ws)) == []
  {
    assert OwnedNames(w, kc.uid, ws) == {};
    assert OverhangingNames(w, kc, ws) == {};
  }

  /** Some run that starts with a reconcile of this snapshot loses a binding. */
  ghost predicate CanLeak(w: World, kc: Kubeconfig) {
    exists steps, k :: Leaked(Run(State(w, Begin(kc)), steps).w, k)
  }

  /**
   Exactly the harmful snapshots leak: a reconcile that starts from any copy of the living object can leave a binding
   behind on some run if and only if its first steps would bind without record or finalizer, or forget a bound workspace.
   */
  lemma SnapshotLeaksIffHarmful(w: World, kc: Kubeconfig)
    requires WorldInv(w) && w.obj.Some? && kc.uid == w.obj.value.uid
    ensures CanLeak(w, kc) <==> Harmful(w, kc)
  {
    var s := State(w, Begin(kc));
    if Harmful(w, kc) {
      var first, k := HarmfulLosesIt(w, kc);
      if Stray(Run(s, first).w, k) {
        var more;
        if Run(s, first).w.obj.value.deleting && Run(s, first).w.obj.value.provisioned.None? {
          more := StuckCanLeak(Run(s, first).w, k);
        } else {
          more := StrayCanLeak(Run(s, first).w, k);
        }
        RunConcat(s, first, more);
        assert Leaked(Run(s, first + more).w, k);
      } else {
        assert Leaked(Run(s, first).w, k);
      }
    } else {
      HarmlessStartsSafe(w, kc);
      forall steps, k
        ensures !Leaked(Run(s, steps).w, k)
      {
        RunKeepsSafe(s, steps);
        SafeLeaksNothing(Run(s, steps).w, k);
      }
    }
  }

  lemma SafeLeaksNothing(w: World, k: Key)
    requires SafeWorld(w)
    ensures !Leaked(w, k)
  {
  }

  // ----- A harmful snapshot that was the stored object once -----

  /** The object after the two reconciles that set it up: finalizer and workspace are stored. */
  function SetUp(kc: Kubeconfig): Kubeconfig {
    kc.(finalizers := kc.finalizers + {CLEANUP}, provisioned := Some(DesiredWorkspace(kc.spec)))
  }

  lemma SetUpIsReached(s: State, kc: Kubeconfig) returns (steps: seq<Step>)
    requires Initial(s) && EnvAllowed(s.w, CreateObject(kc)) && kc.spec.authorization.Some?
    ensures Run(s, steps) == State(s.w.(obj := Some(SetUp(kc))), Idle)
  {
    var w, held := s.w.(obj := Some(kc)), kc.(finalizers := kc.finalizers + {CLEANUP});
    var w1 := s.w.(obj := Some(held));
    var first := [Env(CreateObject(kc)), Get(kc), Call(Done)];
    assert Next(s, Env(CreateObject(kc))) == State(w, Idle) && Next(State(w, Idle), Get(kc)) == State(w, AddingFinalizer(kc));
    assert Next(State(w, AddingFinalizer(kc)), Call(Done)) == State(w1, Idle);
    RunThree(s, Env(CreateObject(kc)), Get(kc), Call(Done));
    assert Next(State(w1, Idle), Get(held)) == State(w1, RecordingCluster(held, DesiredWorkspace(kc.spec)));
    RunTwo(State(w1, Idle), Get(held), Call(Done));
    RunConcat(s, first, [Get(held), Call(Done)]);
    steps := first + [Get(held), Call(Done)];
  }

  /** Taking the authorization away brings two reconciles that undo both. */
  lemma UndoneAgain(w: World, kc: Kubeconfig) returns (steps: seq<Step>)
    requires w.obj == Some(kc) && !kc.deleting && CLEANUP in kc.finalizers && kc.provisioned.GetOr("") != ""
    requires forall k | k in w.bindings :: w.bindings[k].owner != Some(kc.uid)
    ensures var s := Run(State(w, Idle), steps);
      s.pc == Idle && s.w.obj.Some? && s.w.obj.value.uid == kc.uid && CLEANUP !in s.w.obj.value.finalizers
  {
    var bare := kc.(spec := kc.spec.(authorization := None));
    var ws, cleared := kc.provisioned.value, bare.(provisioned := Some(""));
    var w1, w2 := w.(obj := Some(bare)), w.(obj := Some(cleared));
    assert OwnedNames(w1, kc.uid, ws) == {};
    var first, second, third := [Env(EditSpec(bare.spec)), Get(bare)], [Call(Done), Call(Done)], [Get(cleared), Call(Done)];
    assert Next(State(w, Idle), Env(EditSpec(bare.spec))) == State(w1, Idle);
    assert Next(State(w1, Idle), Get(bare)) == State(w1, Listing(bare, ws, true));
    RunTwo(State(w, Idle), first[0], first[1]);
    assert Next(State(w1, Listing(bare, ws, true)), Call(Done)) == State(w1, ClearingStatus(bare));
    RunTwo(State(w1, Listing(bare, ws, true)), Call(Done), Call(Done));
    assert Next(State(w2, Idle), Get(cleared)) == State(w2, RemovingFinalizer(cleared));
    RunTwo(State(w2, Idle), Get(cleared), Call(Done));
    RunConcat(State(w, Idle), first, second);
    RunConcat(State(w, Idle), first + second, third);
    steps := first + second + third;
  }

  /**
   Freshness is needed. Every Kubeconfig with roles to bind runs into it: from its creation on, `before` leads to a
   stored object that `after` replaces by a later version; a reconcile that then still starts from the earlier one can
   leave a binding behind.
   */
  lemma StaleSnapshotLeaks(s: State, kc: Kubeconfig) returns (before: seq<Step>, after: seq<Step>, snapshot: Kubeconfig)
    requires Initial(s) && EnvAllowed(s.w, CreateObject(kc))
    requires kc.spec.authorization.Some? && DesiredRoles(kc.spec) != {}
    ensures Run(s, before).w.obj == Some(snapshot)
    ensures var now := Run(s, before + after);
      && now.pc == Idle && now.w.obj.Some? && now.w.obj.value.uid == snapshot.uid
      && CanLeak(now.w, snapshot)
  {
    snapshot := SetUp(kc);
    before := SetUpIsReached(s, kc);
    var w := Run(s, before).w;
    DesiredWorkspaceNonEmpty(kc.spec);
    after := UndoneAgain(w, snapshot);
    RunConcat(s, before, after);
    var now := Run(s, before + after);
    InitialInv(s);
    RunKeepsInv(s, before + after);
    assert Begin(snapshot) == Listing(snapshot, DesiredWorkspace(kc.spec), false);
    SnapshotLeaksIffHarmful(now.w, snapshot);
  }
}
