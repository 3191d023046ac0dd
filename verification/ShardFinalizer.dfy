/**
 The finalizer protocol of a Shard as a step machine: the cleanup finalizer goes in before anything is created, and
 comes out once the kcp Shard object in the root workspace is gone. One step is one API call of the controller, one
 action of the outside world, or a crash; the run follows one Shard object from its creation on.
 */
module ShardFinalizer {
  import opened Wrappers
  import opened ApiCalls

  const CLEANUP: string := "operator.kcp.io/cleanup-shard"

  datatype Shard = Shard(finalizers: set<string>, deleting: bool)

  /**
   `rootShard`: the referenced RootShard exists. `registered`: the root workspace holds a kcp Shard object of this name.
   `children`: the Certificates, Secrets and the CompiledShard written for this object.
   */
  datatype World = World(shard: Option<Shard>, rootShard: bool, registered: bool, children: set<string>)

  datatype Pc =
    | Idle
    | AddingFinalizer(snap: Shard)
    | Fetching
    | Working
    | FetchingForCleanup(snap: Shard)
    | Connecting(snap: Shard)
    | Deregistering(snap: Shard)
    | RemovingFinalizer(snap: Shard)

  /**
   What happened so far. `placed`: the finalizer was stored. `cleaned`: deleting the kcp Shard object was answered with
   success or not-found. `skipped`: a cleanup went on without deleting it. `late`: since that answer the Shard, whose
   workload lives on until its objects are collected, has registered again.
   */
  datatype History = History(placed: bool, cleaned: bool, skipped: bool, late: bool)

  datatype State = State(w: World, pc: Pc, h: History)

  datatype EnvStep =
    | DeleteShard
    | EditFinalizers(finalizers: set<string>)
    | SetRootShard(present: bool)
    | Register
    | Deregister

  datatype Step =
    | Get(snap: Shard)
    | Call(outcome: Outcome)
    | Write(child: string, outcome: Outcome)
    | Crash
    | Env(e: EnvStep)

  predicate HasFinalizer(w: World) {
    w.shard.Some? && CLEANUP in w.shard.value.finalizers
  }

  function Begin(snap: Shard): Pc {
    if snap.deleting then
      if CLEANUP in snap.finalizers then FetchingForCleanup(snap) else Idle
    else
      if CLEANUP in snap.finalizers then Fetching else AddingFinalizer(snap)
  }

  /** The API server drops a deleted object with its last finalizer. */
  function Store(w: World, shard: Shard): World {
    w.(shard := if shard.deleting && shard.finalizers == {} then None else Some(shard))
  }

  /** A merge patch replaces the whole finalizer list. */
  predicate CanStore(w: World, finalizers: set<string>) {
    w.shard.Some? && AcceptsFinalizers(w.shard.value.deleting, w.shard.value.finalizers, finalizers)
  }

  function StoreFinalizers(w: World, finalizers: set<string>): World
    requires CanStore(w, finalizers)
  {
    Store(w, w.shard.value.(finalizers := finalizers))
  }

  function NextCall(s: State, outcome: Outcome): State {
    var idle := s.(pc := Idle);
    match s.pc
    case Idle => s
    case AddingFinalizer(snap) =>
      var finalizers := snap.finalizers + {CLEANUP};
      if outcome.Refused? || !CanStore(s.w, finalizers) then idle
      else idle.(w := StoreFinalizers(s.w, finalizers), h := s.h.(placed := true))
    case Fetching => s.(pc := if outcome.Done? && s.w.rootShard then Working else Idle)
    case Working => idle
    case FetchingForCleanup(snap) =>
      // Any failure to get the RootShard is taken for its absence.
      if outcome.Done? && s.w.rootShard then s.(pc := Connecting(snap))
      else s.(pc := RemovingFinalizer(snap), h := s.h.(skipped := true))
    case Connecting(snap) => s.(pc := if outcome.Done? then Deregistering(snap) else Idle)
    case Deregistering(snap) =>
      if outcome.Refused? then idle
      else if outcome.Lost? then idle.(w := s.w.(registered := false), h := s.h.(late := false))
      else State(s.w.(registered := false), RemovingFinalizer(snap), s.h.(cleaned := true, late := false))
    case RemovingFinalizer(snap) =>
      var finalizers := snap.finalizers - {CLEANUP};
      if outcome.Refused? || !CanStore(s.w, finalizers) then idle
      else idle.(w := StoreFinalizers(s.w, finalizers))
  }

  /**
   What the outside world may do. It leaves the cleanup finalizer alone. A workload that was ever rendered may register
   with kcp at any time.
   */
  predicate EnvAllowed(w: World, e: EnvStep) {
    match e
    case DeleteShard => w.shard.Some?
    case EditFinalizers(fs) => CanStore(w, fs) && (CLEANUP in fs <==> HasFinalizer(w))
    case SetRootShard(_) => true
    case Register => w.children != {}
    case Deregister => true
  }

  function EnvEffect(w: World, e: EnvStep): World {
    if !EnvAllowed(w, e) then w else
    match e
    case DeleteShard => Store(w, w.shard.value.(deleting := true))
    case EditFinalizers(fs) => StoreFinalizers(w, fs)
    case SetRootShard(b) => w.(rootShard := b)
    case Register => w.(registered := true)
    case Deregister => w.(registered := false)
  }

  /** The presence of the cleanup finalizer is current; other finalizers and the deletion mark may lag behind. */
  predicate Admissible(snap: Shard, obj: Shard) {
    (CLEANUP in snap.finalizers <==> CLEANUP in obj.finalizers) && (snap.deleting ==> obj.deleting)
  }

  predicate IsLate(s: State, e: EnvStep) {
    if e.Register? && EnvAllowed(s.w, e) then s.h.cleaned else s.h.late && !e.Deregister?
  }

  function Next(s: State, step: Step): State {
    match step
    case Get(snap) => if s.pc.Idle? && s.w.shard.Some? && Admissible(snap, s.w.shard.value) then s.(pc := Begin(snap)) else s
    case Call(outcome) => NextCall(s, outcome)
    case Write(child, outcome) =>
      if s.pc.Working? && !outcome.Refused? then s.(w := s.w.(children := s.w.children + {child})) else s
    case Crash => s.(pc := Idle)
    case Env(e) => s.(w := EnvEffect(s.w, e), h := s.h.(late := IsLate(s, e)))
  }

  function Run(s: State, steps: seq<Step>): State {
    if steps == [] then s
    else Next(Run(s, steps[..|steps| - 1]), steps[|steps| - 1])
  }

  /** The object was just created by a user. */
  ghost predicate Initial(s: State) {
    && s.pc == Idle && s.h == History(false, false, false, false)
    && s.w.shard.Some? && !s.w.shard.value.deleting && CLEANUP !in s.w.shard.value.finalizers
    && !s.w.registered && s.w.children == {}
  }

  // ----- The invariant -----

  ghost predicate HistoryInv(s: State) {
    && (!s.h.placed ==> s.w.children == {} && !s.w.registered && !HasFinalizer(s.w) && !s.h.cleaned && !s.h.skipped)
    && (s.h.placed && !HasFinalizer(s.w) ==> s.h.cleaned || s.h.skipped)
    && (s.h.cleaned ==> (s.w.registered <==> s.h.late) && (s.w.shard.Some? ==> s.w.shard.value.deleting))
    && (s.h.late ==> s.h.cleaned)
    && (s.h.skipped ==> (s.w.shard.Some? ==> s.w.shard.value.deleting))
  }

  ghost predicate PcInv(s: State) {
    match s.pc
    case Idle => true
    case AddingFinalizer(snap) => CLEANUP !in snap.finalizers && !HasFinalizer(s.w)
    case Fetching => HasFinalizer(s.w)
    case Working => HasFinalizer(s.w)
    case _ =>
      && HasFinalizer(s.w) && s.w.shard.value.deleting
      && (s.pc.RemovingFinalizer? ==> s.h.cleaned || s.h.skipped)
  }

  ghost predicate Inv(s: State) {
    HistoryInv(s) && PcInv(s)
  }

  lemma NextKeepsInv(s: State, step: Step)
    requires Inv(s)
    ensures Inv(Next(s, step))
  {
  }

  lemma {:induction false} RunKeepsInv(s: State, steps: seq<Step>)
    requires Initial(s)
    ensures Inv(Run(s, steps))
    decreases |steps|
  {
    if steps != [] {
      RunKeepsInv(s, steps[..|steps| - 1]);
      NextKeepsInv(Run(s, steps[..|steps| - 1]), steps[|steps| - 1]);
    }
  }

  // ----- Safety over whole runs -----

  /** Anything is created only while the finalizer is in place. */
  lemma NothingCreatedBeforeFinalizer(s: State, steps: seq<Step>, step: Step)
    requires Initial(s)
    ensures var now := Run(s, steps); var then_ := Next(now, step);
      then_.w.children != now.w.children ==> HasFinalizer(now.w)
    ensures Run(s, steps).w.children != {} ==> Run(s, steps).h.placed
  {
    RunKeepsInv(s, steps);
  }

  /** The finalizer goes away only after the kcp Shard was deleted or was not there, or the RootShard could not be fetched. */
  lemma RemovedOnlyAfterCleanup(s: State, steps: seq<Step>, step: Step)
    requires Initial(s)
    ensures var now := Run(s, steps); var then_ := Next(now, step);
      HasFinalizer(now.w) && !HasFinalizer(then_.w) ==>
        now.pc.RemovingFinalizer? && step.Call? && (now.h.cleaned || now.h.skipped)
  {
    RunKeepsInv(s, steps);
  }

  /**
   Once the object is gone, a kcp Shard is left behind only if some cleanup could not fetch the RootShard or the Shard
   registered again after its cleanup; and if no cleanup was skipped, exactly if it registered again.
   */
  lemma NoOrphanOnAnyRun(s: State, steps: seq<Step>)
    requires Initial(s)
    ensures var end := Run(s, steps);
      end.w.shard.None? ==>
        && (end.w.registered ==> end.h.skipped || end.h.late)
        && (!end.h.skipped ==> (end.w.registered <==> end.h.late))
  {
    RunKeepsInv(s, steps);
  }

  /** The finalizers of others survive a patch exactly if the snapshot had them; the patch adds and removes none but its own. */
  lemma ForeignFinalizersSurviveIff(s: State, outcome: Outcome)
    requires s.pc.AddingFinalizer? || s.pc.RemovingFinalizer?
    requires !outcome.Refused? && s.w.shard.Some?
    requires AcceptsFinalizers(s.w.shard.value.deleting, s.w.shard.value.finalizers,
               if s.pc.AddingFinalizer? then s.pc.snap.finalizers + {CLEANUP} else s.pc.snap.finalizers - {CLEANUP})
    ensures var foreign, after := s.w.shard.value.finalizers - {CLEANUP}, Next(s, Call(outcome)).w.shard;
      && (after.Some? ==> (after.value.finalizers - {CLEANUP} == s.pc.snap.finalizers - {CLEANUP}))
      && (after.Some? ==> (CLEANUP in after.value.finalizers <==> s.pc.AddingFinalizer?))
      && (foreign <= s.pc.snap.finalizers <==> foreign == {} || (after.Some? && foreign <= after.value.finalizers))
  {
  }

  // ----- Progress -----

  predicate AwaitsCleanup(w: World) {
    HasFinalizer(w) && w.shard.value.deleting
  }

  /** A reconcile of a deleted Shard in which at most the fetch of the RootShard fails. */
  function Cleanup(s: State, fetch: Outcome): State
    requires s.w.shard.Some?
  {
    var fetched := Next(Next(s, Get(s.w.shard.value)), Call(fetch));
    if fetched.pc.RemovingFinalizer? then Next(fetched, Call(Done))
    else Next(Next(Next(fetched, Call(Done)), Call(Done)), Call(Done))
  }

  /**
   From any state in which the Shard waits for its cleanup, one such reconcile takes the finalizer off. It leaves a kcp
   Shard behind exactly if there was one and the RootShard was not fetched, be it gone or only out of reach for a moment.
   */
  lemma OneReconcileReleases(s: State, fetch: Outcome)
    requires s.pc.Idle? && AwaitsCleanup(s.w)
    ensures var end := Cleanup(s, fetch);
      && end.pc.Idle? && !HasFinalizer(end.w)
      && (end.w.shard.None? <==> s.w.shard.value.finalizers == {CLEANUP})
      && (end.w.registered <==> s.w.registered && !(fetch.Done? && s.w.rootShard))
  {
  }

  /** A cleanup that cannot connect to kcp, or whose delete ends in an error, leaves the finalizer for the next attempt. */
  lemma FailedDeleteKeepsFinalizer(s: State, outcome: Outcome)
    requires Inv(s) && (s.pc.Connecting? || s.pc.Deregistering?) && !outcome.Done?
    ensures Next(s, Call(outcome)).pc.Idle? && AwaitsCleanup(Next(s, Call(outcome)).w)
    ensures Next(s, Call(outcome)).h == s.h.(late := Next(s, Call(outcome)).h.late)
  {
  }

  ghost predicate RootShardLeftAlone(steps: seq<Step>) {
    forall step | step in steps :: !step.Env? || !step.e.SetRootShard?
  }

  /** A Shard that came up, registered itself and was then deleted by its user. */
  lemma DeletedInService() returns (s: State, steps: seq<Step>)
    ensures Initial(s) && RootShardLeftAlone(steps) && forall step | step in steps && step.Call? :: step.outcome.Done?
    ensures Run(s, steps) ==
      State(World(Some(Shard({CLEANUP}, true)), true, true, {"compiled"}), Idle, History(true, false, false, false))
  {
    var created, held := Shard({}, false), Shard({CLEANUP}, false);
    s := State(World(Some(created), true, false, {}), Idle, History(false, false, false, false));
    steps := [Get(created), Call(Done)];
    assert [] + steps == steps;
    RunTwo(s, [], Get(created), Call(Done));
    assert created.finalizers + {CLEANUP} == {CLEANUP};
    assert Run(s, steps) == State(World(Some(held), true, false, {}), Idle, History(true, false, false, false));
    RunTwo(s, steps, Get(held), Call(Done));
    steps := steps + [Get(held), Call(Done)];
    assert Run(s, steps) == State(World(Some(held), true, false, {}), Working, History(true, false, false, false));
    RunTwo(s, steps, Write("compiled", Done), Call(Done));
    steps := steps + [Write("compiled", Done), Call(Done)];
    assert Run(s, steps) == State(World(Some(held), true, false, {"compiled"}), Idle, History(true, false, false, false));
    RunTwo(s, steps, Env(Register), Env(DeleteShard));
    steps := steps + [Env(Register), Env(DeleteShard)];
  }

  /** One failing read of a RootShard that is there all along loses the cleanup for good. */
  lemma TransientFailureOrphans() returns (s: State, steps: seq<Step>)
    ensures Initial(s) && RootShardLeftAlone(steps)
    ensures var end := Run(s, steps); end.w.shard.None? && end.w.rootShard && end.w.registered
  {
    s, steps := DeletedInService();
    var marked := Shard({CLEANUP}, true);
    RunTwo(s, steps, Get(marked), Call(Refused));
    steps := steps + [Get(marked), Call(Refused)];
    RunTwo(s, steps, Call(Done), Crash);
    steps := steps + [Call(Done)];
    assert {CLEANUP} - {CLEANUP} == {};
  }

  /** A workload that is still there registers between the delete and its own end: no failure is needed for an orphan. */
  lemma LateRegistrationOrphans() returns (s: State, steps: seq<Step>)
    ensures Initial(s) && forall step | step in steps && step.Call? :: step.outcome.Done?
    ensures var end := Run(s, steps); end.w.shard.None? && end.w.registered && !end.h.skipped
  {
    s, steps := DeletedInService();
    var held := Shard({CLEANUP}, true);
    var deleting := Run(s, steps);
    assert Next(deleting, Get(held)).pc == FetchingForCleanup(held);
    RunTwo(s, steps, Get(held), Call(Done));
    steps := steps + [Get(held), Call(Done)];
    assert Run(s, steps) == deleting.(pc := Connecting(held));
    RunTwo(s, steps, Call(Done), Call(Done));
    steps := steps + [Call(Done), Call(Done)];
    assert Run(s, steps).pc == RemovingFinalizer(held) && Run(s, steps).w == deleting.w.(registered := false);
    RunTwo(s, steps, Env(Register), Call(Done));
    steps := steps + [Env(Register), Call(Done)];
    assert {CLEANUP} - {CLEANUP} == {};
  }

  lemma RunTwo(s: State, steps: seq<Step>, a: Step, b: Step)
    ensures Run(s, steps + [a, b]) == Next(Next(Run(s, steps), a), b)
    ensures Run(s, steps + [a]) == Next(Run(s, steps), a)
  {
    assert (steps + [a, b])[..|steps| + 1] == steps + [a];
    assert (steps + [a])[..|steps|] == steps;
  }
}
