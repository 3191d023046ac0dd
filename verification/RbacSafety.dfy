/** What holds in every state of every run of the RBAC protocol. */
module RbacSafety {
  import opened Wrappers
  import opened ApiCalls
  import opened Ordering
  import opened RbacModel

  /** Bindings of this Kubeconfig, past objects included, lie in the recorded workspace of the living object and carry its names. */
  ghost predicate BindingsRecorded(w: World) {
    forall k | k in w.bindings && w.bindings[k].owner.Some? && Ours(w, w.bindings[k].owner.value) ::
      && k.ws != "" && w.obj.Some?
      && w.bindings[k].owner.value == w.obj.value.uid && w.obj.value.provisioned == Some(k.ws)
      && k.name == BindingName(w.obj.value.uid, w.bindings[k].role)
  }

  ghost predicate WorldInv(w: World) {
    && BindingsRecorded(w)
    && (w.obj.Some? ==> w.obj.value.uid !in w.retired)
    && (w.obj.Some? && w.obj.value.provisioned.GetOr("") != "" ==> CLEANUP in w.obj.value.finalizers)
  }

  /** The snapshot still speaks of the stored object, and the finalizer keeps that object alive. */
  ghost predicate Holds(kc: Kubeconfig, w: World) {
    w.obj.Some? && Admissible(kc, w.obj.value) && CLEANUP in w.obj.value.finalizers
  }

  ghost predicate PcInv(s: State) {
    match s.pc
    case Idle => true
    case AddingFinalizer(kc) => CLEANUP !in kc.finalizers
    case Listing(kc, ws, _) => Holds(kc, s.w) && ws != "" && kc.provisioned == Some(ws)
    case Deleting(kc, ws, todo, unprovision) =>
      && Holds(kc, s.w) && ws != "" && kc.provisioned == Some(ws) && todo != []
      && (unprovision ==> OwnedNames(s.w, kc.uid, ws) <= Elements(todo))
    case ClearingStatus(kc) =>
      Holds(kc, s.w) && kc.provisioned.Some? && OwnedNames(s.w, kc.uid, kc.provisioned.value) == {}
    case RemovingFinalizer(kc) => Holds(kc, s.w) && kc.provisioned.GetOr("") == ""
    case RecordingCluster(kc, ws) => Holds(kc, s.w) && kc.provisioned.GetOr("") == "" && ws != ""
    case Ensuring(kc, ws, todo) => Holds(kc, s.w) && ws != "" && kc.provisioned == Some(ws) && todo != []
  }

  ghost predicate Inv(s: State) {
    WorldInv(s.w) && PcInv(s)
  }

  lemma GetKeepsInv(s: State, kc: Kubeconfig)
    requires Inv(s)
    ensures Inv(Next(s, Get(kc)))
  {
  }

  lemma OwnedNamesMember(w: World, uid: Uid, k: Key)
    requires k in w.bindings && w.bindings[k].owner == Some(uid)
    ensures k.name in OwnedNames(w, uid, k.ws)
  {
  }

  lemma EnvKeepsInv(s: State, e: EnvStep)
    requires Inv(s)
    ensures Inv(Next(s, Env(e)))
  {
  }

  lemma FollowDeletes(kc: Kubeconfig, ws: Workspace, todo: seq<string>, unprovision: bool, w: World)
    requires Holds(kc, w) && ws != "" && kc.provisioned == Some(ws)
    requires unprovision ==> OwnedNames(w, kc.uid, ws) <= Elements(todo)
    ensures PcInv(State(w, NextDelete(kc, ws, todo, unprovision)))
  {
  }

  lemma CallKeepsInv(s: State, outcome: Outcome)
    requires Inv(s)
    ensures Inv(Next(s, Call(outcome)))
  {
    if !outcome.Refused? && CanApply(s) {
      var w := s.w;
      var w' := Apply(s);
      match s.pc
      case Listing(kc, ws, unprovision) =>
        if outcome.Done? {
          FollowDeletes(kc, ws, SortedList(if unprovision then OwnedNames(w, kc.uid, ws) else OverhangingNames(w, kc, ws)), unprovision, w');
        }
      case Deleting(kc, ws, todo, unprovision) =>
        if unprovision {
          forall n | n in OwnedNames(w', kc.uid, ws)
            ensures n in Elements(todo[1..])
          {
            assert n in OwnedNames(w, kc.uid, ws) && n in todo;
          }
        }
        if outcome.Done? {
          FollowDeletes(kc, ws, todo[1..], unprovision, w');
        }
      case ClearingStatus(kc) =>
        forall k | k in w.bindings && w.bindings[k].owner.Some? && Ours(w, w.bindings[k].owner.value)
          ensures false
        {
          OwnedNamesMember(w, kc.uid, k);
        }
      case _ =>
    }
  }

  /** The invariant is inductive over every step: user, controller, failed call, crash. */
  lemma NextKeepsInv(s: State, step: Step)
    requires Inv(s)
    ensures Inv(Next(s, step))
  {
    match step
    case Get(kc) => GetKeepsInv(s, kc);
    case Call(outcome) => CallKeepsInv(s, outcome);
    case Env(e) => EnvKeepsInv(s, e);
  }

  lemma {:induction false} RunKeepsInv(s: State, steps: seq<Step>)
    requires Inv(s)
    ensures Inv(Run(s, steps))
    decreases |steps|
  {
    if steps != [] {
      RunKeepsInv(s, steps[..|steps| - 1]);
      NextKeepsInv(Run(s, steps[..|steps| - 1]), steps[|steps| - 1]);
    }
  }

  lemma InitialInv(s: State)
    requires Initial(s)
    requires forall k | k in s.w.bindings :: s.w.bindings[k].owner.None? || !Ours(s.w, s.w.bindings[k].owner.value)
    ensures Inv(s)
  {
  }

  /** A binding labelled with the UID of an object that no longer exists. */
  ghost predicate Leaked(w: World, k: Key) {
    k in w.bindings && w.bindings[k].owner.Some? && w.bindings[k].owner.value in w.retired
  }

  /**
   Main safety result. On every run, whatever was edited, deleted, lost or cut off in between:
   no binding survives its Kubeconfig, and every binding of the living one is in the single
   workspace its status names, under the protection of the finalizer.
   */
  lemma NoLeakOnAnyRun(s: State, steps: seq<Step>)
    requires Initial(s)
    ensures var w := Run(s, steps).w;
      && (forall k | k in w.bindings :: !Leaked(w, k))
      && (w.obj.Some? ==> forall k | k in w.bindings && w.bindings[k].owner == Some(w.obj.value.uid) ::
            w.obj.value.provisioned == Some(k.ws) && CLEANUP in w.obj.value.finalizers)
  {
    InitialInv(s);
    RunKeepsInv(s, steps);
  }

  // ----- Finalizers of others -----

  /** These finalizers are still there; when there are none to keep, the object may be gone, too. */
  ghost predicate Survive(w: World, finalizers: set<string>) {
    finalizers == {} || (w.obj.Some? && finalizers <= w.obj.value.finalizers)
  }

  /**
   Replacing the list wholesale brings back the snapshot's view of everybody's finalizers. Those of others survive the
   patch if and only if the snapshot already had them.
   */
  lemma ForeignFinalizersSurviveIff(s: State, outcome: Outcome)
    requires (s.pc.AddingFinalizer? || s.pc.RemovingFinalizer?) && CanApply(s) && !outcome.Refused?
    ensures var foreign, after := s.w.obj.value.finalizers - {CLEANUP}, Next(s, Call(outcome)).w;
      && (Survive(after, foreign) <==> foreign <= s.pc.kc.finalizers)
      && (after.obj.Some? ==> after.obj.value.finalizers - {CLEANUP} == s.pc.kc.finalizers - {CLEANUP})
  {
  }

  /** A finalizer put on between a reconcile's first read and its patch is lost. */
  lemma LateFinalizerIsLost(s: State, kc: Kubeconfig, finalizer: string) returns (steps: seq<Step>)
    requires Initial(s) && EnvAllowed(s.w, CreateObject(kc)) && kc.spec.authorization.Some?
    requires finalizer != CLEANUP && finalizer !in kc.finalizers
    ensures exists i | 0 <= i < |steps| :: steps[i] == Env(EditFinalizers(kc.finalizers + {finalizer}))
    ensures Run(s, steps).w.obj == Some(kc.(finalizers := kc.finalizers + {CLEANUP}))
  {
    var created := State(s.w.(obj := Some(kc)), Idle);
    var edited := State(s.w.(obj := Some(kc.(finalizers := kc.finalizers + {finalizer}))), AddingFinalizer(kc));
    steps := [Env(CreateObject(kc)), Get(kc), Env(EditFinalizers(kc.finalizers + {finalizer})), Call(Done)];
    assert Next(s, steps[0]) == created && Next(created, steps[1]) == created.(pc := AddingFinalizer(kc));
    assert Next(created.(pc := AddingFinalizer(kc)), steps[2]) == edited;
    RunThree(s, steps[0], steps[1], steps[2]);
    assert steps[..3] == [steps[0], steps[1], steps[2]];
  }

  lemma RunThree(s: State, a: Step, b: Step, c: Step)
    ensures Run(s, [a, b, c]) == Next(Next(Next(s, a), b), c)
  {
    assert [a, b, c][..2] == [a, b] && [a, b][..1] == [a] && [a][..0] == [];
    assert Run(s, [a]) == Next(Run(s, []), a);
    assert Run(s, [a, b]) == Next(Run(s, [a]), b);
  }
}
