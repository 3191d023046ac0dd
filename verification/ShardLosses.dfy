/**
 Runs of the propagation protocol: unchanged shards wake nobody, and agreement gets lost by a shard that comes and goes, by
 an event nobody hears, and by fetches that keep failing.
 */
module ShardLosses {
  import opened Wrappers
  import opened ApiCalls
  import opened Ordering
  import opened ShardPropagation
  import opened ShardSettling

  // ----- No wake-up loop -----

  const ROOT_RECONCILE: seq<Step> :=
    [ByRoot(StartRoot), ByRoot(RootReadShards)] + [ByRoot(RootReadGate), ByRoot(RootPublish(Done))] + [ByRoot(ListForStatus), FinishRoot(Done, false, {})]

  lemma RunByRoot(s: State, a: RootAction, b: RootAction)
    requires RootEnabled(s.root, a) && RootEnabled(NextRoot(s.root, a, Current(s)), b)
    ensures Run(s, [ByRoot(a), ByRoot(b)]) == s.(root := NextRoot(NextRoot(s.root, a, Current(s)), b, Current(s)))
  {
    RunTwo(s, ByRoot(a), ByRoot(b));
  }

  lemma NothingToWrite(s: State)
    requires s.root.work == Reporting(Some(s.recorded))
    ensures Next(s, FinishRoot(Done, false, {})) == s.(root := s.root.(work := RootOff))
  {
    assert !Writes(s, FinishRoot(Done, false, {}));
  }

  lemma RootReportsTheSame(s: State)
    requires s.root.work == Reporting(None) && s.recorded == Current(s)
    ensures Run(s, [ByRoot(ListForStatus), FinishRoot(Done, false, {})]) == s.(root := s.root.(work := RootOff))
  {
    var listed := s.(root := NextRoot(s.root, ListForStatus, Current(s)));
    RunTwo(s, ByRoot(ListForStatus), FinishRoot(Done, false, {}));
    NothingToWrite(listed);
    assert listed.root.(work := RootOff) == s.root.(work := RootOff);
  }

  lemma PublishesTheSame(r: Root, current: Names)
    requires r.work == Building(Some(current), None) && Published(r, current)
    ensures NextRoot(NextRoot(r, RootReadGate, current), RootPublish(Done), current) == r.(work := Reporting(None))
  {
  }

  /** A RootShard reconcile that finds everything as it left it writes nothing. */
  lemma RootFindsNothingNew(s: State)
    requires s.root.work.RootOff? && s.root.queued && s.recorded == Current(s) && Published(s.root, Current(s))
    ensures Run(s, ROOT_RECONCILE) == s.(root := s.root.(queued := false))
  {
    var looks, publishes, reports :=
      [ByRoot(StartRoot), ByRoot(RootReadShards)], [ByRoot(RootReadGate), ByRoot(RootPublish(Done))], [ByRoot(ListForStatus), FinishRoot(Done, false, {})];
    RunByRoot(s, StartRoot, RootReadShards);
    var s1 := Run(s, looks);
    PublishesTheSame(s1.root, Current(s));
    RunByRoot(s1, RootReadGate, RootPublish(Done));
    RunConcat(s, looks, publishes);
    RootReportsTheSame(Run(s, looks + publishes));
    RunConcat(s, looks + publishes, reports);
  }

  /** Waking the RootShard over unchanged shards changes nothing and wakes nobody: there is no wake-up loop. */
  lemma UnchangedShardsWakeNobody(s: State)
    requires Inv(s) && Quiescent(s)
    ensures Run(s, [ByRoot(WakeRoot)] + ROOT_RECONCILE) == s
  {
    AgreeAtRest(s);
    RunCons(s, ByRoot(WakeRoot), ROOT_RECONCILE);
    RootFindsNothingNew(Next(s, ByRoot(WakeRoot)));
    assert s.root.(queued := true).(queued := false) == s.root;
  }

  // ----- How agreement gets lost -----

  lemma {:induction false} RunKeepsGates(s: State, steps: seq<Step>)
    requires GatesOk(s)
    ensures GatesOk(Run(s, steps))
    decreases |steps|
  {
    if steps != [] {
      RunKeepsGates(s, steps[..|steps| - 1]);
      StepKeepsGates(Run(s, steps[..|steps| - 1]), steps[|steps| - 1]);
    }
  }

  /** A change that no handler hears leaves everybody with the old list at once. */
  lemma UnheardChangeGoesUnnoticed(s: State, x: string)
    requires Inv(s) && Quiescent(s) && x !in s.shards
    ensures var s' := Next(s, ChangeShards(s.shards + {x}, false)); Quiescent(s') && !Agreed(s')
  {
    AgreeAtRest(s);
    OtherShardsOtherList(s.shards, x);
  }

  lemma OtherShardsOtherList(shards: set<string>, x: string)
    requires x !in shards
    ensures SortedList(shards + {x}) != SortedList(shards)
  {
    assert Elements(SortedList(shards + {x})) != Elements(SortedList(shards));
  }

  function Looks(c: string): seq<Step> {
    [By(c, Start), By(c, ReadShards)] + [By(c, ReadGate), By(c, Finish(Done, true))]
  }

  lemma RunBy(s: State, c: string, a: Action, b: Action)
    requires c in s.consumers && ConsumerEnabled(s.consumers[c], a)
    requires ConsumerEnabled(NextConsumer(s.consumers[c], a, Current(s)), b)
    ensures Run(s, [By(c, a), By(c, b)]) == Put(s, c, NextConsumer(NextConsumer(s.consumers[c], a, Current(s)), b, Current(s)))
  {
    RunTwo(s, By(c, a), By(c, b));
    var once := NextConsumer(s.consumers[c], a, Current(s));
    assert Next(s, By(c, a)) == Put(s, c, once);
    assert Next(Put(s, c, once), By(c, b)) == Put(Put(s, c, once), c, NextConsumer(once, b, Current(s)));
  }

  lemma ReadsAndPublishes(k: Consumer, current: Names)
    requires k.ready && k.queued && k.work.Off?
    ensures var reading := NextConsumer(NextConsumer(k, Start, current), ReadShards, current);
      NextConsumer(NextConsumer(reading, ReadGate, current), Finish(Done, true), current)
      == k.(queued := k.noted || k.compiled != Some(current), noted := false, compiled := Some(current))
  {
  }

  /** A consumer publishes the shards it sees, and is woken by that if it was news. */
  lemma ConsumerPublishes(s: State, c: string)
    requires c in s.consumers && s.consumers[c].ready && s.consumers[c].queued && s.consumers[c].work.Off?
    ensures var k := s.consumers[c];
      Run(s, Looks(c)) == Put(s, c, k.(queued := k.noted || k.compiled != Some(Current(s)), noted := false, compiled := Some(Current(s))))
  {
    ReadsAndPublishes(s.consumers[c], Current(s));
    RunBy(s, c, Start, ReadShards);
    RunBy(Run(s, [By(c, Start), By(c, ReadShards)]), c, ReadGate, Finish(Done, true));
    RunConcat(s, [By(c, Start), By(c, ReadShards)], [By(c, ReadGate), By(c, Finish(Done, true))]);
  }

  /** After two looks it has published the current list and is done. */
  lemma ConsumerCatchesUp(s: State, c: string)
    requires c in s.consumers && s.consumers[c].ready && s.consumers[c].queued && s.consumers[c].work.Off?
    requires s.consumers[c].compiled != Some(Current(s))
    ensures Run(s, Looks(c) + Looks(c)) == Put(s, c, s.consumers[c].(queued := false, noted := false, compiled := Some(Current(s))))
  {
    ConsumerPublishes(s, c);
    ConsumerPublishes(Run(s, Looks(c)), c);
    RunConcat(s, Looks(c), Looks(c));
  }

  lemma {:induction false} UndisturbedKeepsShards(s: State, steps: seq<Step>)
    requires Undisturbed(steps)
    ensures Run(s, steps).shards == s.shards
    decreases |steps|
  {
    if steps != [] {
      UndisturbedKeepsShards(s, steps[..|steps| - 1]);
      assert !Disturbance(steps[|steps| - 1]);
    }
  }

  /** Nobody's read fails and no event is missed. */
  predicate NothingLost(steps: seq<Step>) {
    forall step | step in steps :: !(step.By? && step.action.FetchFails?) && (step.ChangeShards? ==> step.heard) && (step.FinishRoot? ==> step.deaf == {})
  }

  /** A shard comes, the consumer sees it, and the shard goes again. */
  function ComeAndGo(s: State, c: string, x: string): seq<Step> {
    [ChangeShards(s.shards + {x}, true), By(c, Wake)] + (Looks(c) + Looks(c)) + [ChangeShards(s.shards, true)]
  }

  lemma ComeAndGoEnds(s: State, c: string, x: string)
    requires !RootBusy(s) && c in s.consumers && s.consumers[c].ready && s.consumers[c].work.Off?
    requires s.consumers[c].compiled != Some(SortedList(s.shards + {x}))
    ensures var k := s.consumers[c].(queued := false, noted := false, compiled := Some(SortedList(s.shards + {x})));
      Run(s, ComeAndGo(s, c, x)) == Put(s.(root := s.root.(queued := true)), c, k)
  {
    var arrives := [ChangeShards(s.shards + {x}, true), By(c, Wake)];
    var k := s.consumers[c].(queued := true);
    var s1 := Put(s.(shards := s.shards + {x}, root := s.root.(queued := true)), c, k);
    RunTwo(s, arrives[0], arrives[1]);
    assert Run(s, arrives) == s1;
    ConsumerCatchesUp(s1, c);
    RunConcat(s, arrives, Looks(c) + Looks(c));
    RunSnoc(s, arrives + (Looks(c) + Looks(c)), ChangeShards(s.shards, true));
  }

  lemma ComeAndGoNeglects(s: State, c: string, x: string)
    requires Inv(s) && Quiescent(s) && x !in s.shards && c in s.consumers && s.consumers[c].ready
    ensures var s' := Run(s, ComeAndGo(s, c, x));
      && s'.shards == s.shards && GatesOk(s') && c in s'.consumers && !ConsumerOk(s', s'.consumers[c], Current(s'))
  {
    AgreeAtRest(s);
    OtherShardsOtherList(s.shards, x);
    ComeAndGoEnds(s, c, x);
    RunKeepsGates(s, ComeAndGo(s, c, x));
  }

  lemma NothingLostConcat(first: seq<Step>, second: seq<Step>)
    requires NothingLost(first) && Undisturbed(second)
    ensures NothingLost(first + second)
  {
    assert forall step | step in second :: !Disturbance(step);
  }

  /**
   Without the side condition on changes agreement is lost although nothing fails. From any settled state, let a shard come
   and go while only one consumer happens to look: in the end all is quiet, the recorded list is right, and that consumer's
   published list is not.
   */
  lemma ComeAndGoLeavesStale(s: State, c: string, x: string) returns (steps: seq<Step>)
    requires Inv(s) && Quiescent(s) && x !in s.shards && c in s.consumers && s.consumers[c].ready
    ensures NothingLost(steps)
    ensures var s' := Run(s, steps); s'.shards == s.shards && s'.recorded == Current(s') && Quiescent(s') && Stale(s', c)
  {
    var first := ComeAndGo(s, c, x);
    ComeAndGoNeglects(s, c, x);
    ComeAndGoLosesNothing(s, c, x);
    var rest := GoesOnStale(s, first, c);
    NothingLostConcat(first, rest);
    steps := first + rest;
  }

  lemma ComeAndGoLosesNothing(s: State, c: string, x: string)
    ensures NothingLost(ComeAndGo(s, c, x))
  {
  }

  /** A neglected consumer stays stale until all is quiet. */
  lemma GoesOnStale(s: State, first: seq<Step>, c: string) returns (rest: seq<Step>)
    requires var s' := Run(s, first); GatesOk(s') && c in s'.consumers && !ConsumerOk(s', s'.consumers[c], Current(s'))
    ensures Undisturbed(rest)
    ensures var end := Run(s, first + rest);
      end.shards == Run(s, first).shards && end.recorded == Current(end) && Quiescent(end) && Stale(end, c)
  {
    rest := NeglectedEndsStale(Run(s, first), c);
    UndisturbedKeepsShards(Run(s, first), rest);
    RunConcat(s, first, rest);
  }

  /** Like these consumers, but some of them queued in addition. */
  ghost predicate MoreQueued(before: map<string, Consumer>, after: map<string, Consumer>) {
    && after.Keys == before.Keys
    && forall c | c in before :: after[c] == before[c].(queued := after[c].queued) && (before[c].queued ==> after[c].queued)
  }

  ghost predicate AllQueued(consumers: map<string, Consumer>) {
    forall c | c in consumers :: consumers[c].queued
  }

  lemma RootStepQueues(s: State, step: Step)
    requires Internal(step) && !step.By? && Enabled(s, step)
    ensures var s' := Next(s, step);
      && s'.shards == s.shards && MoreQueued(s.consumers, s'.consumers)
      && (s'.recorded == s.recorded || AllQueued(s'.consumers))
  {
  }

  lemma MoreQueuedTransitive(a: map<string, Consumer>, b: map<string, Consumer>, c: map<string, Consumer>)
    requires MoreQueued(a, b) && MoreQueued(b, c)
    ensures MoreQueued(a, c) && (AllQueued(b) ==> AllQueued(c))
  {
  }

  /** The RootShard by itself records and publishes the current list, waking everybody if it was not recorded yet. */
  lemma {:induction false} RootSettles(s: State) returns (steps: seq<Step>)
    requires Inv(s)
    ensures Undisturbed(steps)
    ensures var s' := Run(s, steps);
      && !RootBusy(s') && s'.recorded == Current(s) && s'.shards == s.shards && MoreQueued(s.consumers, s'.consumers)
      && (s.recorded != Current(s) ==> AllQueued(s'.consumers))
    decreases RootWrites(s), RootWeight(s.root)
  {
    if !RootBusy(s) {
      steps := [];
    } else {
      var step := SomethingToDo(s);
      var s1 := Next(s, step);
      InternalStepsDecrease(s, step);
      StepKeepsInvIffSafe(s, step);
      RootStepQueues(s, step);
      var rest := RootSettles(s1);
      RunCons(s, step, rest);
      MoreQueuedTransitive(s.consumers, s1.consumers, Run(s1, rest).consumers);
      steps := [step] + rest;
    }
  }

  /** The only thing that goes wrong are fetches of the RootShard by this consumer. */
  predicate OnlyFetchesFail(steps: seq<Step>, c: string) {
    forall step | step in steps ::
      (step.By? && step.action.FetchFails? ==> step.c == c) && (step.ChangeShards? ==> step.heard) && (step.FinishRoot? ==> step.deaf == {})
  }

  function Misses(c: string): seq<Step> {
    [By(c, Start), By(c, FetchFails(Done))]
  }

  /** Failing until the condition says so, and once more. */
  function MissesFor(c: string, noted: bool): seq<Step> {
    Misses(c) + if noted then [] else Misses(c)
  }

  lemma MissesOnlyFetch(c: string, noted: bool)
    ensures OnlyFetchesFail(MissesFor(c, noted), c)
  {
  }

  lemma ConsumerMisses(s: State, c: string)
    requires c in s.consumers && s.consumers[c].queued && s.consumers[c].work.Off?
    ensures Run(s, Misses(c)) == Put(s, c, s.consumers[c].(queued := !s.consumers[c].noted, noted := true))
  {
    RunBy(s, c, Start, FetchFails(Done));
  }

  lemma ArrivalReachesAll(s: State, c: string, x: string) returns (steps: seq<Step>)
    requires Inv(s) && Quiescent(s) && x !in s.shards
    ensures OnlyFetchesFail(steps, c)
    ensures var s' := Run(s, steps);
      && s'.shards == s.shards + {x} && s'.recorded == Current(s') && !RootBusy(s') && GatesOk(s')
      && MoreQueued(s.consumers, s'.consumers) && AllQueued(s'.consumers)
  {
    var arrives := ChangeShards(s.shards + {x}, true);
    AgreeAtRest(s);
    OtherShardsOtherList(s.shards, x);
    assert SafeStep(s, arrives);
    StepKeepsInvIffSafe(s, arrives);
    var first := RootSettles(Next(s, arrives));
    RunCons(s, arrives, first);
    RunKeepsGates(s, [arrives] + first);
    steps := [arrives] + first;
    OnlyFetchesConcat([arrives], first, c);
  }

  lemma OnlyFetchesConcat(first: seq<Step>, second: seq<Step>, c: string)
    requires OnlyFetchesFail(first, c) && (OnlyFetchesFail(second, c) || Undisturbed(second))
    ensures OnlyFetchesFail(first + second, c)
  {
    if Undisturbed(second) {
      assert forall step | step in second :: !Disturbance(step);
    }
  }

  /**
   Fetches that fail twice in a row lose the wake-up. From any settled state, let a shard arrive and one consumer fail to
   fetch the RootShard until its condition says so already: all becomes quiet, and its published list is the old one.
   */
  lemma FailingFetchesLeaveStale(s: State, c: string, x: string) returns (steps: seq<Step>)
    requires Inv(s) && Quiescent(s) && x !in s.shards && c in s.consumers && s.consumers[c].ready
    ensures OnlyFetchesFail(steps, c)
    ensures var s' := Run(s, steps); s'.shards == s.shards + {x} && Quiescent(s') && Stale(s', c)
  {
    var first := ArrivalReachesAll(s, c, x);
    var misses := MissesFor(c, s.consumers[c].noted);
    MissingNeglects(s, first, misses, c, x);
    MissesOnlyFetch(c, s.consumers[c].noted);
    var rest := GoesOnStale(s, first + misses, c);
    OnlyFetchesConcat(first, misses, c);
    OnlyFetchesConcat(first + misses, rest, c);
    steps := first + misses + rest;
  }

  lemma MissingNeglects(s: State, first: seq<Step>, misses: seq<Step>, c: string, x: string)
    requires Inv(s) && Quiescent(s) && x !in s.shards && c in s.consumers && s.consumers[c].ready
    requires var s1 := Run(s, first);
      && s1.shards == s.shards + {x} && s1.recorded == Current(s1) && GatesOk(s1)
      && MoreQueued(s.consumers, s1.consumers) && AllQueued(s1.consumers)
    requires misses == MissesFor(c, s.consumers[c].noted)
    ensures var s2 := Run(s, first + misses);
      s2.shards == s.shards + {x} && GatesOk(s2) && c in s2.consumers && !ConsumerOk(s2, s2.consumers[c], Current(s2))
  {
    var s1 := Run(s, first);
    MissesUntilNoted(s1, c, misses);
    MissedIsNeglected(s, s1, c, x);
    RunKeepsGates(s1, misses);
    RunConcat(s, first, misses);
  }

  lemma MissedIsNeglected(s: State, s1: State, c: string, x: string)
    requires Inv(s) && Quiescent(s) && x !in s.shards && c in s.consumers && s.consumers[c].ready
    requires s1.shards == s.shards + {x} && s1.recorded == Current(s1) && MoreQueued(s.consumers, s1.consumers)
    ensures var s2 := Put(s1, c, s1.consumers[c].(queued := false, noted := true));
      !ConsumerOk(s2, s2.consumers[c], Current(s2))
  {
    AgreeAtRest(s);
    OtherShardsOtherList(s.shards, x);
  }

  lemma MissesUntilNoted(s: State, c: string, misses: seq<Step>)
    requires c in s.consumers && s.consumers[c].queued && s.consumers[c].work.Off?
    requires misses == MissesFor(c, s.consumers[c].noted)
    ensures Run(s, misses) == Put(s, c, s.consumers[c].(queued := false, noted := true))
  {
    ConsumerMisses(s, c);
    if s.consumers[c].noted {
      assert misses == Misses(c);
    } else {
      ConsumerMisses(Run(s, Misses(c)), c);
      RunConcat(s, Misses(c), Misses(c));
    }
  }
}
