/**
 Left to themselves the controllers settle: in agreement after safe steps, and possibly in quiet disagreement after an
 unsafe one. So the conditions of `SafeStep` are exact.
 */
module ShardSettling {
  import opened Wrappers
  import opened ApiCalls
  import opened Ordering
  import opened ShardPropagation

  /** Work the controllers do on their own, without errors. */
  predicate Internal(step: Step) {
    match step
    case By(_, a) => InternalAction(a)
    case ByRoot(a) => InternalRootAction(a)
    case FinishRoot(outcome, otherChange, deaf) => outcome.Done? && !otherChange && deaf == {}
    case _ => false
  }

  predicate InternalAction(a: Action) {
    match a
    case Start => true
    case ReadShards => true
    case ReadGate => true
    case Finish(outcome, patched) => outcome.Done? && patched
    case _ => false
  }

  predicate InternalRootAction(a: RootAction) {
    match a
    case WakeRoot => false
    case RootCertificatesChange(_) => false
    case RootPublish(outcome) => outcome.Done?
    case _ => true
  }

  function One(b: bool): nat {
    if b then 1 else 0
  }

  /** How often a key will still publish something else than before: what it has read, and then what is current. */
  function Publications(read: Option<Names>, compiled: Option<Names>, current: Names): nat {
    if read.None? then One(compiled != Some(current)) else One(read != compiled) + One(read != Some(current))
  }

  function RootRead(r: Root): Option<Names> {
    if r.work.Building? then r.work.list else None
  }

  function RootReported(r: Root): Option<Names> {
    if r.work.Reporting? then r.work.status else None
  }

  /** The RootShard's writes that wake it again. */
  function RootWrites(s: State): nat {
    Publications(RootRead(s.root), s.root.compiled, Current(s)) + Publications(RootReported(s.root), Some(s.recorded), Current(s))
  }

  function RootWeight(r: Root): nat {
    6 * One(r.queued)
    + match r.work
      case RootOff => 0
      case Building(list, open) => 3 + One(list.None?) + One(open.None?)
      case Reporting(status) => 1 + One(status.None?)
  }

  function Weight(k: Consumer, current: Names): nat {
    var read := if k.work.Running? then k.work.list else None;
    10 * Publications(read, k.compiled, current) + 5 * One(k.noted) + 4 * One(k.queued)
    + match k.work
      case Off => 0
      case Running(list, open) => 1 + One(list.None?) + One(open.None?)
  }

  ghost function Total(m: map<string, Consumer>, current: Names): nat
    decreases |m|
  {
    if m == map[] then 0 else
    var c :| c in m;
    Weight(m[c], current) + Total(m - {c}, current)
  }

  lemma {:induction false} TotalOf(m: map<string, Consumer>, current: Names, c: string)
    requires c in m
    ensures Total(m, current) == Weight(m[c], current) + Total(m - {c}, current)
    decreases |m|
  {
    var d :| d in m && Total(m, current) == Weight(m[d], current) + Total(m - {d}, current);
    if d != c {
      TotalOf(m - {d}, current, c);
      TotalOf(m - {c}, current, d);
      assert m - {d} - {c} == m - {c} - {d};
    }
  }

  lemma TotalUpdate(m: map<string, Consumer>, current: Names, c: string, k: Consumer)
    requires c in m
    ensures Total(m[c := k], current) == Total(m, current) - Weight(m[c], current) + Weight(k, current)
  {
    TotalOf(m, current, c);
    TotalOf(m[c := k], current, c);
    assert m[c := k] - {c} == m - {c};
  }

  lemma ConsumerWeightDecreases(k: Consumer, a: Action, current: Names)
    requires InternalAction(a) && ConsumerEnabled(k, a)
    ensures Weight(NextConsumer(k, a, current), current) < Weight(k, current)
  {
  }

  lemma RootActionDecreases(s: State, a: RootAction)
    requires InternalRootAction(a) && RootEnabled(s.root, a)
    ensures var s' := s.(root := NextRoot(s.root, a, Current(s)));
      RootWrites(s') < RootWrites(s) || (RootWrites(s') == RootWrites(s) && RootWeight(s'.root) < RootWeight(s.root))
  {
  }

  lemma FinishingDecreases(s: State)
    requires Enabled(s, FinishRoot(Done, false, {}))
    ensures var s' := Next(s, FinishRoot(Done, false, {}));
      RootWrites(s') < RootWrites(s) || (RootWrites(s') == RootWrites(s) && RootWeight(s'.root) < RootWeight(s.root))
  {
    var s', status := Next(s, FinishRoot(Done, false, {})), s.root.work.status;
    assert RootRead(s.root) == None && RootRead(s'.root) == None && s'.root.compiled == s.root.compiled;
    assert RootReported(s.root) == status && RootReported(s'.root) == None && Some(s'.recorded) == status;
  }

  /** Every step of the controllers makes progress; the RootShard's work comes first, since it wakes the others. */
  lemma InternalStepsDecrease(s: State, step: Step)
    requires Internal(step) && Enabled(s, step)
    ensures var s' := Next(s, step);
      || RootWrites(s') < RootWrites(s)
      || (RootWrites(s') == RootWrites(s) && RootWeight(s'.root) < RootWeight(s.root))
      || (RootWrites(s') == RootWrites(s) && RootWeight(s'.root) == RootWeight(s.root)
          && Total(s'.consumers, Current(s')) < Total(s.consumers, Current(s)))
  {
    match step
    case By(c, a) =>
      ConsumerWeightDecreases(s.consumers[c], a, Current(s));
      TotalUpdate(s.consumers, Current(s), c, NextConsumer(s.consumers[c], a, Current(s)));
    case ByRoot(a) => RootActionDecreases(s, a);
    case _ => FinishingDecreases(s);
  }

  predicate RootBusy(s: State) {
    s.root.queued || !s.root.work.RootOff?
  }

  lemma SomethingToDo(s: State) returns (step: Step)
    requires !Quiescent(s)
    ensures Internal(step) && Enabled(s, step)
    ensures RootBusy(s) ==> !step.By?
  {
    match s.root.work
    case Building(list, open) =>
      step := ByRoot(if list.None? then RootReadShards else if open.None? then RootReadGate else RootPublish(Done));
    case Reporting(status) =>
      step := if status.None? then ByRoot(ListForStatus) else FinishRoot(Done, false, {});
    case RootOff =>
      if s.root.queued {
        step := ByRoot(StartRoot);
      } else {
        var c :| c in s.consumers && (s.consumers[c].queued || s.consumers[c].work.Running?);
        var work := s.consumers[c].work;
        step := By(c, if work.Off? then Start
                      else if work.list.None? then ReadShards
                      else if work.open.None? then ReadGate
                      else Finish(Done, true));
      }
  }

  /** From every state a safe run can reach, the controllers left to themselves come to rest in agreement. */
  lemma {:induction false} SettlesInAgreement(s: State) returns (steps: seq<Step>)
    requires Inv(s)
    ensures (forall step | step in steps :: Internal(step)) && Quiescent(Run(s, steps)) && Agreed(Run(s, steps))
    decreases RootWrites(s), RootWeight(s.root), Total(s.consumers, Current(s))
  {
    if Quiescent(s) {
      steps := [];
      AgreeAtRest(s);
    } else {
      var step := SomethingToDo(s);
      InternalStepsDecrease(s, step);
      StepKeepsInvIffSafe(s, step);
      var rest := SettlesInAgreement(Next(s, step));
      RunCons(s, step, rest);
      steps := [step] + rest;
    }
  }

  // ----- Unsafe steps -----

  /** Not queued, and holding or about to publish once more a list that is not the current one. */
  ghost predicate Stale(s: State, c: string) {
    && c in s.consumers && !s.consumers[c].queued && s.consumers[c].ready && GateOk(s.consumers[c])
    && s.recorded == Current(s) && !Fresh(s.consumers[c], Current(s))
    && (s.root.work.Reporting? ==> s.root.work.status.None? || s.root.work.status.value == s.recorded)
  }

  ghost predicate RootStale(s: State) {
    RootGateOk(s.root) && !RootOk(s, Current(s))
  }

  lemma InternalKeepsStale(s: State, step: Step, c: string)
    requires Stale(s, c) && Internal(step)
    ensures Stale(Next(s, step), c)
  {
  }

  lemma InternalKeepsRootStale(s: State, step: Step)
    requires RootStale(s) && Internal(step)
    ensures RootStale(Next(s, step))
  {
  }

  /** No further change of the shards, and no further read or wake-up gets lost. */
  predicate Undisturbed(steps: seq<Step>) {
    forall step | step in steps :: !Disturbance(step)
  }

  predicate Disturbance(step: Step) {
    step.ChangeShards? || (step.By? && step.action.FetchFails?) || (step.FinishRoot? && step.deaf != {})
  }

  /** Left to themselves, the controllers come to rest and nobody tells the stale one. */
  lemma {:induction false} StaleStaysStale(s: State, c: string) returns (steps: seq<Step>)
    requires Stale(s, c)
    ensures Undisturbed(steps) && Quiescent(Run(s, steps)) && Stale(Run(s, steps), c)
    decreases RootWrites(s), RootWeight(s.root), Total(s.consumers, Current(s))
  {
    if Quiescent(s) {
      steps := [];
    } else {
      var step := SomethingToDo(s);
      InternalStepsDecrease(s, step);
      InternalKeepsStale(s, step, c);
      var rest := StaleStaysStale(Next(s, step), c);
      RunCons(s, step, rest);
      steps := [step] + rest;
    }
  }

  lemma {:induction false} RootStaleStaysStale(s: State) returns (steps: seq<Step>)
    requires RootStale(s)
    ensures Undisturbed(steps) && Quiescent(Run(s, steps)) && RootStale(Run(s, steps))
    decreases RootWrites(s), RootWeight(s.root), Total(s.consumers, Current(s))
  {
    if Quiescent(s) {
      steps := [];
    } else {
      var step := SomethingToDo(s);
      InternalStepsDecrease(s, step);
      InternalKeepsRootStale(s, step);
      var rest := RootStaleStaysStale(Next(s, step));
      RunCons(s, step, rest);
      steps := [step] + rest;
    }
  }

  lemma FailureKeepsStale(s: State, c: string)
    requires GatesOk(s) && c in s.consumers && !ConsumerOk(s, s.consumers[c], Current(s))
    ensures s.root.work.RootOff? ==> Stale(s, c)
    ensures !s.root.work.RootOff? ==> Stale(Next(s, FinishRoot(Refused, false, {})), c)
  {
    assert GateOk(s.consumers[c]);
    if !s.root.work.RootOff? {
      assert Next(s, FinishRoot(Refused, false, {})) == s.(root := s.root.(work := RootOff, queued := true));
    }
  }

  /** If a consumer is not taken care of, a RootShard reconcile in progress fails, and the next one finds nothing new. */
  lemma NeglectedEndsStale(s: State, c: string) returns (steps: seq<Step>)
    requires GatesOk(s) && c in s.consumers && !ConsumerOk(s, s.consumers[c], Current(s))
    ensures Undisturbed(steps) && Quiescent(Run(s, steps)) && Stale(Run(s, steps), c)
  {
    FailureKeepsStale(s, c);
    if s.root.work.RootOff? {
      steps := StaleStaysStale(s, c);
    } else {
      var failure := FinishRoot(Refused, false, {});
      var rest := StaleStaysStale(Next(s, failure), c);
      RunCons(s, failure, rest);
      steps := [failure] + rest;
    }
  }

  lemma BrokenEndsInDisagreement(s: State) returns (steps: seq<Step>)
    requires GatesOk(s) && !Inv(s)
    ensures Undisturbed(steps) && Quiescent(Run(s, steps)) && !Agreed(Run(s, steps))
  {
    if !RootOk(s, Current(s)) {
      steps := RootStaleStaysStale(s);
    } else {
      var c :| c in s.consumers && !ConsumerOk(s, s.consumers[c], Current(s));
      steps := NeglectedEndsStale(s, c);
      assert Run(s, steps).consumers[c].work.Off?;
    }
  }

  /** Agreement is certain: however it goes on undisturbed, with or without errors, once all is quiet they agree. */
  ghost predicate SureToAgree(s: State) {
    forall steps | Undisturbed(steps) && Quiescent(Run(s, steps)) :: Agreed(Run(s, steps))
  }

  lemma {:induction false} UndisturbedKeepsInv(s: State, steps: seq<Step>)
    requires Inv(s) && Undisturbed(steps)
    ensures Inv(Run(s, steps))
    decreases |steps|
  {
    if steps != [] {
      var step := steps[|steps| - 1];
      UndisturbedKeepsInv(s, steps[..|steps| - 1]);
      assert !Disturbance(step);
      StepKeepsInvIffSafe(Run(s, steps[..|steps| - 1]), step);
    }
  }

  lemma SureIffInv(s: State)
    requires GatesOk(s)
    ensures SureToAgree(s) <==> Inv(s)
  {
    if Inv(s) {
      forall steps | Undisturbed(steps) && Quiescent(Run(s, steps))
        ensures Agreed(Run(s, steps))
      {
        UndisturbedKeepsInv(s, steps);
        AgreeAtRest(Run(s, steps));
      }
    } else {
      var steps := BrokenEndsInDisagreement(s);
      assert !Agreed(Run(s, steps));
    }
  }

  /**
   The conditions are exact. At any moment of a run of safe steps, a step is safe if and only if agreement is certain after
   it; an unsafe change of the shards, failing fetch or lost wake-up has a continuation that ends in quiet disagreement.
   */
  lemma AgreementCertainIffSafe(s0: State, steps: seq<Step>, step: Step)
    requires Initial(s0) && SafeRun(s0, steps)
    ensures SureToAgree(Next(Run(s0, steps), step)) <==> SafeStep(Run(s0, steps), step)
  {
    var s := Run(s0, steps);
    RunKeepsInv(s0, steps);
    StepKeepsInvIffSafe(s, step);
    StepKeepsGates(s, step);
    SureIffInv(Next(s, step));
  }
}
