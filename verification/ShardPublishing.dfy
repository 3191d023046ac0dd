/**
 What stands behind a published list on a run of ShardPropagation: the reconcile that published it read the gate while
 the certificates were ready, and read this very list from the cluster.
 */
module ShardPublishing {
  import opened Wrappers
  import opened ApiCalls
  import opened Ordering
  import opened ShardPropagation

  function At(s: State, steps: seq<Step>, i: nat): State
    requires i <= |steps|
  {
    Run(s, steps[..i])
  }

  /** No step after step `i` that had an effect is one of these. */
  ghost predicate NoneSince(s: State, steps: seq<Step>, i: nat, bounds: Step -> bool) {
    forall m | i < m < |steps| && Enabled(At(s, steps, m), steps[m]) :: !bounds(steps[m])
  }

  /** What holds at the end of a run and not at its start was switched on by some step, and not switched off since. */
  lemma {:induction false} SwitchedOn(s: State, steps: seq<Step>, on: State -> bool, bounds: Step -> bool) returns (i: nat)
    requires !on(s) && on(Run(s, steps))
    requires forall st, step | Enabled(st, step) && on(Next(st, step)) :: !bounds(step)
    ensures i < |steps| && !on(At(s, steps, i)) && on(Next(At(s, steps, i), steps[i]))
    ensures NoneSince(s, steps, i, bounds)
    decreases |steps|
  {
    var n := |steps| - 1;
    var front := steps[..n];
    if on(Run(s, front)) {
      i := SwitchedOn(s, front, on, bounds);
      assert front[..i] == steps[..i];
      forall m | i < m < |steps| && Enabled(At(s, steps, m), steps[m])
        ensures !bounds(steps[m])
      {
        if m < n {
          assert front[..m] == steps[..m];
        }
      }
    } else {
      i := n;
    }
  }

  // ----- One consumer -----

  /** Steps after which another reconcile of the consumer, or another consumer of that name, is spoken of. */
  predicate Bounds(step: Step, c: string) {
    match step
    case AddConsumer(d, _, _) => d == c
    case RemoveConsumer(d) => d == c
    case By(d, a) => d == c && (a.Start? || a.FetchFails? || a.Finish?)
    case _ => false
  }

  /** Step `i` was made by the consumer, in the reconcile that is still going on at the end. */
  ghost predicate DoneBy(s: State, steps: seq<Step>, i: nat, c: string, a: Action) {
    && i < |steps| && steps[i] == By(c, a) && Enabled(At(s, steps, i), steps[i])
    && NoneSince(s, steps, i, step => Bounds(step, c))
  }

  predicate SeenOpen(s: State, c: string) {
    c in s.consumers && s.consumers[c].work.Running? && s.consumers[c].work.open == Some(true)
  }

  predicate SeenList(s: State, c: string, list: Names) {
    c in s.consumers && s.consumers[c].work.Running? && s.consumers[c].work.list == Some(list)
  }

  lemma WorkAfter(s: State, step: Step, c: string)
    requires c in Next(s, step).consumers
    ensures var work := Next(s, step).consumers[c].work;
      if !Enabled(s, step) then c in s.consumers && work == s.consumers[c].work
      else match step
        case By(d, a) => c in s.consumers && work == (if d == c then NextConsumer(s.consumers[c], a, Current(s)) else s.consumers[c]).work
        case AddConsumer(d, _, _) => if d == c then work == Off else c in s.consumers && work == s.consumers[c].work
        case RemoveConsumer(d) => d != c && c in s.consumers && work == s.consumers[c].work
        case _ => c in s.consumers && work == s.consumers[c].work
  {
  }

  lemma ActionReads(k: Consumer, a: Action, current: Names, list: Names)
    requires ConsumerEnabled(k, a)
    ensures var work := NextConsumer(k, a, current).work;
      && (work.Running? && work.open == Some(true) ==> (k.work.Running? && k.work.open == Some(true)) || (a.ReadGate? && k.ready))
      && (work.Running? && work.list == Some(list) ==> (k.work.Running? && k.work.list == Some(list)) || (a.ReadShards? && list == current))
  {
  }

  lemma GateStep(s: State, step: Step, c: string)
    requires SeenOpen(Next(s, step), c)
    ensures SeenOpen(s, c) || (step == By(c, ReadGate) && Enabled(s, step) && s.consumers[c].ready)
    ensures Enabled(s, step) ==> !Bounds(step, c)
  {
    WorkAfter(s, step, c);
    if step.By? && step.c == c && Enabled(s, step) {
      ActionReads(s.consumers[c], step.action, Current(s), []);
    }
  }

  lemma ListStep(s: State, step: Step, c: string, list: Names)
    requires SeenList(Next(s, step), c, list)
    ensures SeenList(s, c, list) || (step == By(c, ReadShards) && Enabled(s, step) && list == Current(s))
  {
    WorkAfter(s, step, c);
    if step.By? && step.c == c && Enabled(s, step) {
      ActionReads(s.consumers[c], step.action, Current(s), list);
    }
  }

  lemma ListedWithinReconcile(s: State, step: Step, c: string, list: Names)
    requires SeenList(Next(s, step), c, list) && Enabled(s, step)
    ensures !Bounds(step, c)
  {
    WorkAfter(s, step, c);
  }

  lemma GateWasRead(s: State, steps: seq<Step>, c: string) returns (i: nat)
    requires Initial(s) && SeenOpen(Run(s, steps), c)
    ensures DoneBy(s, steps, i, c, ReadGate) && At(s, steps, i).consumers[c].ready
  {
    forall st, step | Enabled(st, step) && SeenOpen(Next(st, step), c)
      ensures !Bounds(step, c)
    {
      GateStep(st, step, c);
    }
    i := SwitchedOn(s, steps, st => SeenOpen(st, c), step => Bounds(step, c));
    GateStep(At(s, steps, i), steps[i], c);
  }

  lemma ListWasRead(s: State, steps: seq<Step>, c: string, list: Names) returns (j: nat)
    requires Initial(s) && SeenList(Run(s, steps), c, list)
    ensures DoneBy(s, steps, j, c, ReadShards) && list == SortedList(At(s, steps, j).shards)
  {
    forall st, step | Enabled(st, step) && SeenList(Next(st, step), c, list)
      ensures !Bounds(step, c)
    {
      ListedWithinReconcile(st, step, c, list);
    }
    j := SwitchedOn(s, steps, st => SeenList(st, c, list), step => Bounds(step, c));
    ListStep(At(s, steps, j), steps[j], c, list);
  }

  /**
   On every run, a step that changes what a consumer has published finishes a reconcile of that consumer which read the
   gate while the certificates were ready; and the new list is the one it read, sorted, from the shards of that moment.
   */
  lemma PublishedBehindOpenGate(s: State, steps: seq<Step>, step: Step, c: string) returns (i: nat, j: nat)
    requires Initial(s)
    requires var s0 := Run(s, steps); var s1 := Next(s0, step);
      c in s0.consumers && c in s1.consumers && s1.consumers[c].compiled != s0.consumers[c].compiled
    ensures step.By? && step.c == c && step.action.Finish? && !step.action.outcome.Refused?
    ensures DoneBy(s, steps, i, c, ReadGate) && At(s, steps, i).consumers[c].ready
    ensures DoneBy(s, steps, j, c, ReadShards)
    ensures Next(Run(s, steps), step).consumers[c].compiled == Some(SortedList(At(s, steps, j).shards))
  {
    var s0 := Run(s, steps);
    assert step.By? && step.c == c && step.action.Finish? && Enabled(s0, step);
    i := GateWasRead(s, steps, c);
    j := ListWasRead(s, steps, c, s0.consumers[c].work.list.value);
  }

  // ----- The RootShard -----

  predicate RootBounds(step: Step) {
    step.FinishRoot? || (step.ByRoot? && (step.rootAction.StartRoot? || step.rootAction.RootPublish?))
  }

  ghost predicate DoneByRoot(s: State, steps: seq<Step>, i: nat, a: RootAction) {
    && i < |steps| && steps[i] == ByRoot(a) && Enabled(At(s, steps, i), steps[i])
    && NoneSince(s, steps, i, RootBounds)
  }

  predicate RootSeenOpen(s: State) {
    s.root.work.Building? && s.root.work.open == Some(true)
  }

  predicate RootSeenList(s: State, list: Names) {
    s.root.work.Building? && s.root.work.list == Some(list)
  }

  predicate RootSeenStatus(s: State, list: Names) {
    s.root.work == Reporting(Some(list))
  }

  lemma RootWorkAfter(s: State, step: Step)
    ensures Next(s, step).root.work ==
      if !Enabled(s, step) then s.root.work
      else match step
        case ByRoot(a) => NextRoot(s.root, a, Current(s)).work
        case FinishRoot(_, _, _) => RootOff
        case _ => s.root.work
  {
  }

  lemma RootActionReads(r: Root, a: RootAction, current: Names, list: Names)
    requires RootEnabled(r, a)
    ensures var work := NextRoot(r, a, current).work;
      && (work.Building? && work.open == Some(true) ==> (r.work.Building? && r.work.open == Some(true)) || (a.RootReadGate? && r.ready))
      && (work.Building? && work.list == Some(list) ==> (r.work.Building? && r.work.list == Some(list)) || (a.RootReadShards? && list == current))
      && (work == Reporting(Some(list)) ==> r.work == work || (a.ListForStatus? && list == current))
  {
  }

  lemma RootGateStep(s: State, step: Step)
    requires RootSeenOpen(Next(s, step))
    ensures RootSeenOpen(s) || (step == ByRoot(RootReadGate) && Enabled(s, step) && s.root.ready)
    ensures Enabled(s, step) ==> !RootBounds(step)
  {
    RootWorkAfter(s, step);
    if step.ByRoot? && Enabled(s, step) {
      RootActionReads(s.root, step.rootAction, Current(s), []);
    }
  }

  lemma RootListStep(s: State, step: Step, list: Names)
    requires RootSeenList(Next(s, step), list)
    ensures RootSeenList(s, list) || (step == ByRoot(RootReadShards) && Enabled(s, step) && list == Current(s))
    ensures Enabled(s, step) ==> !RootBounds(step)
  {
    RootWorkAfter(s, step);
    if step.ByRoot? && Enabled(s, step) {
      RootActionReads(s.root, step.rootAction, Current(s), list);
    }
  }

  lemma RootStatusStep(s: State, step: Step, list: Names)
    requires RootSeenStatus(Next(s, step), list)
    ensures RootSeenStatus(s, list) || (step == ByRoot(ListForStatus) && Enabled(s, step) && list == Current(s))
    ensures Enabled(s, step) ==> !RootBounds(step)
  {
    RootWorkAfter(s, step);
    if step.ByRoot? && Enabled(s, step) {
      RootActionReads(s.root, step.rootAction, Current(s), list);
    }
  }

  lemma RootGateWasRead(s: State, steps: seq<Step>) returns (i: nat)
    requires Initial(s) && RootSeenOpen(Run(s, steps))
    ensures DoneByRoot(s, steps, i, RootReadGate) && At(s, steps, i).root.ready
  {
    forall st, step | Enabled(st, step) && RootSeenOpen(Next(st, step))
      ensures !RootBounds(step)
    {
      RootGateStep(st, step);
    }
    i := SwitchedOn(s, steps, RootSeenOpen, RootBounds);
    RootGateStep(At(s, steps, i), steps[i]);
  }

  lemma RootListWasRead(s: State, steps: seq<Step>, list: Names) returns (j: nat)
    requires Initial(s) && RootSeenList(Run(s, steps), list)
    ensures DoneByRoot(s, steps, j, RootReadShards) && list == SortedList(At(s, steps, j).shards)
  {
    forall st, step | Enabled(st, step) && RootSeenList(Next(st, step), list)
      ensures !RootBounds(step)
    {
      RootListStep(st, step, list);
    }
    j := SwitchedOn(s, steps, st => RootSeenList(st, list), RootBounds);
    RootListStep(At(s, steps, j), steps[j], list);
  }

  /** The same for the RootShard's own compiled object. */
  lemma RootPublishedBehindOpenGate(s: State, steps: seq<Step>, step: Step) returns (i: nat, j: nat)
    requires Initial(s) && Next(Run(s, steps), step).root.compiled != Run(s, steps).root.compiled
    ensures step.ByRoot? && step.rootAction.RootPublish? && !step.rootAction.outcome.Refused?
    ensures DoneByRoot(s, steps, i, RootReadGate) && At(s, steps, i).root.ready
    ensures DoneByRoot(s, steps, j, RootReadShards)
    ensures Next(Run(s, steps), step).root.compiled == Some(SortedList(At(s, steps, j).shards))
  {
    var s0 := Run(s, steps);
    assert step.ByRoot? && step.rootAction.RootPublish? && Enabled(s0, step);
    i := RootGateWasRead(s, steps);
    j := RootListWasRead(s, steps, s0.root.work.list.value);
  }

  /** And what the status records is what the second listing of the same reconcile found. */
  lemma RecordedWasListed(s: State, steps: seq<Step>, step: Step) returns (j: nat)
    requires Initial(s) && Next(Run(s, steps), step).recorded != Run(s, steps).recorded
    ensures step.FinishRoot? && !step.outcome.Refused?
    ensures DoneByRoot(s, steps, j, ListForStatus)
    ensures Next(Run(s, steps), step).recorded == SortedList(At(s, steps, j).shards)
  {
    var list := Run(s, steps).root.work.status.value;
    forall st, step | Enabled(st, step) && RootSeenStatus(Next(st, step), list)
      ensures !RootBounds(step)
    {
      RootStatusStep(st, step, list);
    }
    j := SwitchedOn(s, steps, st => RootSeenStatus(st, list), RootBounds);
    RootStatusStep(At(s, steps, j), steps[j], list);
  }

  // ----- Who is woken, and who may set and clear what -----

  /** A consumer hears of something: its object, its certificates, or a status write its controller can follow. */
  predicate Hears(s: State, step: Step, c: string)
    requires c in s.consumers
  {
    || (step.By? && step.c == c && (step.action.Wake? || step.action.Edit? || step.action.CertificatesChange?))
    || (Writes(s, step) && s.consumers[c].kind !in step.deaf)
  }

  /** A reconcile of the consumer ends in an error, or writes its object or its compiled object. */
  predicate EndsInEvent(s: State, step: Step, c: string)
    requires c in s.consumers
  {
    && step.By? && step.c == c && Enabled(s, step)
    && match step.action
       case FetchFails(_) => !s.consumers[c].noted
       case Finish(outcome, _) =>
         || !outcome.Done? || s.consumers[c].noted
         || (s.consumers[c].work.open == Some(true) && s.consumers[c].work.list != s.consumers[c].compiled)
       case _ => false
  }

  /** A key gets into the queue by these events and no others, and leaves it only when its reconcile starts. */
  lemma QueuedIff(s: State, step: Step, c: string)
    requires c in s.consumers && c in Next(s, step).consumers
    ensures Next(s, step).consumers[c].queued <==>
      Hears(s, step, c) || EndsInEvent(s, step, c)
      || (s.consumers[c].queued && !(step == By(c, Start) && Enabled(s, step)))
  {
  }

  /** The certificates alone decide readiness. */
  lemma OnlyCertificatesChangeReadiness(s: State, step: Step, c: string)
    requires c in s.consumers && c in Next(s, step).consumers
    ensures var k, k' := s.consumers[c], Next(s, step).consumers[c];
      k'.kind == k.kind && (k'.ready != k.ready ==> step == By(c, CertificatesChange(k'.ready)))
  {
    if Enabled(s, step) && step.By? {
      assert step.c != c ==> Next(s, step).consumers[c] == s.consumers[c];
    }
  }

  /**
   A failed fetch is noted by a patch that got through, and forgotten by an edit of the object or a patch of a reconcile
   that could fetch; nothing else touches the note.
   */
  lemma NotedIff(s: State, step: Step, c: string)
    requires c in s.consumers && c in Next(s, step).consumers
    ensures Next(s, step).consumers[c].noted <==>
      if step.By? && step.c == c && Enabled(s, step) then
        match step.action
        case FetchFails(patch) => s.consumers[c].noted || !patch.Refused?
        case Finish(_, patched) => s.consumers[c].noted && !patched
        case Edit => false
        case _ => s.consumers[c].noted
      else s.consumers[c].noted
  {
  }

  predicate Noted(s: State, c: string) {
    c in s.consumers && s.consumers[c].noted
  }

  /** What makes the controller forget: an edit of the object, a patched condition, another object of that name. */
  predicate Forgets(step: Step, c: string) {
    match step
    case AddConsumer(d, _, _) => d == c
    case RemoveConsumer(d) => d == c
    case By(d, a) => d == c && (a.Edit? || (a.Finish? && a.patched))
    case _ => false
  }

  lemma NotedStep(s: State, step: Step, c: string)
    requires Noted(Next(s, step), c) && Enabled(s, step)
    ensures !Forgets(step, c)
    ensures Noted(s, c) || (step.By? && step.c == c && step.action.FetchFails? && !step.action.patch.Refused?)
  {
    if c in s.consumers {
      NotedIff(s, step, c);
    }
  }

  /** Whenever a failed fetch counts as noted, a fetch has failed with its patch getting through, and nothing was forgotten since. */
  lemma NotedSinceFailure(s: State, steps: seq<Step>, c: string) returns (i: nat)
    requires !Noted(s, c) && Noted(Run(s, steps), c)
    ensures i < |steps| && Enabled(At(s, steps, i), steps[i]) && NoneSince(s, steps, i, step => Forgets(step, c))
    ensures steps[i].By? && steps[i].c == c && steps[i].action.FetchFails? && !steps[i].action.patch.Refused?
  {
    forall st, step | Enabled(st, step) && Noted(Next(st, step), c)
      ensures !Forgets(step, c)
    {
      NotedStep(st, step, c);
    }
    i := SwitchedOn(s, steps, st => Noted(st, c), step => Forgets(step, c));
    NotedStep(At(s, steps, i), steps[i], c);
  }
}
