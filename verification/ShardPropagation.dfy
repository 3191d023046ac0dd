/**
 How a change to the set of shards reaches every compiled object.

 A Shard event wakes only the RootShard. Its status write, which lists the shards, wakes the Shard and FrontProxy
 controllers, and each of those lists the shards again and publishes the list it saw. A key that is woken while it is
 being worked on is queued again; so is one whose own object or compiled object was changed by a write.

 Two kinds of failing reads go unnoticed. A handler that cannot look up whom to wake drops the event, and a consumer that
 cannot fetch the RootShard ends without an error; it is queued again only if that changed its RootShard condition.
 */
module ShardPropagation {
  import opened Wrappers
  import opened ApiCalls
  import opened Ordering

  type Names = seq<string>

  /** Which controller a consumer belongs to; each has one handler for RootShard events. */
  datatype Kind = ShardKind | FrontProxyKind

  /** A reconcile in progress: the list and the certificate gate are read in either order. */
  datatype Work = Off | Running(list: Option<Names>, open: Option<bool>)

  /** `noted`: the RootShard condition is false already, at this generation of the object. */
  datatype Consumer = Consumer(kind: Kind, ready: bool, queued: bool, noted: bool, work: Work, compiled: Option<Names>)

  /** The RootShard publishes a compiled object of its own first, and lists once more for its status. */
  datatype RootWork = RootOff | Building(list: Option<Names>, open: Option<bool>) | Reporting(status: Option<Names>)

  datatype Root = Root(ready: bool, queued: bool, work: RootWork, compiled: Option<Names>)

  /** `recorded` is the RootShard's Status.Shards. */
  datatype State = State(shards: set<string>, recorded: Names, root: Root, consumers: map<string, Consumer>)

  /** What happens to a consumer: the first three from outside, the others in its reconcile. */
  datatype Action =
    | Wake
    | Edit
    | CertificatesChange(ready: bool)
    | Start
    | FetchFails(patch: Outcome)
    | ReadShards
    | ReadGate
    | Finish(outcome: Outcome, patched: bool)

  datatype RootAction =
    | WakeRoot
    | RootCertificatesChange(ready: bool)
    | StartRoot
    | RootReadShards
    | RootReadGate
    | RootPublish(outcome: Outcome)
    | ListForStatus

  datatype Step =
    | ChangeShards(shards: set<string>, heard: bool)
    | AddConsumer(c: string, kind: Kind, ready: bool)
    | RemoveConsumer(c: string)
    | By(c: string, action: Action)
    | ByRoot(rootAction: RootAction)
    | FinishRoot(outcome: Outcome, otherChange: bool, deaf: set<Kind>)

  function Current(s: State): Names {
    SortedList(s.shards)
  }

  function WakeAllBut(consumers: map<string, Consumer>, deaf: set<Kind>): map<string, Consumer> {
    map c | c in consumers :: if consumers[c].kind in deaf then consumers[c] else consumers[c].(queued := true)
  }

  function Put(s: State, c: string, k: Consumer): State {
    s.(consumers := s.consumers[c := k])
  }

  predicate ConsumerEnabled(k: Consumer, a: Action) {
    match a
    case Start => k.queued && k.work.Off?
    case FetchFails(_) => k.work == Running(None, None)
    case ReadShards => k.work.Running? && k.work.list.None?
    case ReadGate => k.work.Running? && k.work.open.None?
    case Finish(outcome, _) => k.work.Running? && (outcome.Refused? || (k.work.list.Some? && k.work.open.Some?))
    case _ => true
  }

  predicate RootEnabled(r: Root, a: RootAction) {
    match a
    case StartRoot => r.queued && r.work.RootOff?
    case RootReadShards => r.work.Building? && r.work.list.None?
    case RootReadGate => r.work.Building? && r.work.open.None?
    case RootPublish(outcome) => r.work.Building? && (outcome.Refused? || (r.work.list.Some? && r.work.open.Some?))
    case ListForStatus => r.work == Reporting(None)
    case _ => true
  }

  predicate Enabled(s: State, step: Step) {
    match step
    case ChangeShards(_, _) => true
    case AddConsumer(c, _, _) => c !in s.consumers
    case RemoveConsumer(c) => c in s.consumers
    case By(c, a) => c in s.consumers && ConsumerEnabled(s.consumers[c], a)
    case ByRoot(a) => RootEnabled(s.root, a)
    case FinishRoot(outcome, _, _) =>
      if outcome.Refused? then !s.root.work.RootOff? else s.root.work.Reporting? && s.root.work.status.Some?
  }

  function NextConsumer(k: Consumer, a: Action, current: Names): Consumer
    requires ConsumerEnabled(k, a)
  {
    match a
    case Wake => k.(queued := true)
    case Edit => k.(queued := true, noted := false)
    case CertificatesChange(ready) => k.(ready := ready, queued := true)
    case Start => k.(queued := false, work := Running(None, None))
    case FetchFails(patch) =>
      // Without an error nothing requeues the key but the event of a status patch, if there is something to patch.
      k.(work := Off, queued := k.queued || !k.noted, noted := k.noted || !patch.Refused?)
    case ReadShards => k.(work := Running(Some(current), k.work.open))
    case ReadGate => k.(work := Running(k.work.list, Some(k.ready)))
    case Finish(outcome, patched) =>
      var publishes := !outcome.Refused? && k.work.open == Some(true);
      var compiled := if publishes then k.work.list else k.compiled;
      k.(work := Off, compiled := compiled, noted := k.noted && !patched,
         queued := k.queued || !outcome.Done? || k.noted || compiled != k.compiled)
  }

  function NextRoot(r: Root, a: RootAction, current: Names): Root
    requires RootEnabled(r, a)
  {
    match a
    case WakeRoot => r.(queued := true)
    case RootCertificatesChange(ready) => r.(ready := ready, queued := true)
    case StartRoot => r.(queued := false, work := Building(None, None))
    case RootReadShards => r.(work := Building(Some(current), r.work.open))
    case RootReadGate => r.(work := Building(r.work.list, Some(r.ready)))
    case RootPublish(outcome) =>
      var publishes := !outcome.Refused? && r.work.open == Some(true);
      var compiled := if publishes then r.work.list else r.compiled;
      r.(work := Reporting(None), compiled := compiled, queued := r.queued || !outcome.Done? || compiled != r.compiled)
    case ListForStatus => r.(work := Reporting(Some(current)))
  }

  /** The status is patched only when it differs; only a patch produces an event. */
  predicate Writes(s: State, step: Step) {
    step.FinishRoot? && Enabled(s, step) && !step.outcome.Refused? && (s.root.work.status.value != s.recorded || step.otherChange)
  }

  function Next(s: State, step: Step): State {
    if !Enabled(s, step) then s else
    match step
    case ChangeShards(shards, heard) => s.(shards := shards, root := s.root.(queued := s.root.queued || heard))
    case AddConsumer(c, kind, ready) => Put(s, c, Consumer(kind, ready, true, false, Off, None))
    case RemoveConsumer(c) => s.(consumers := s.consumers - {c})
    case By(c, a) => Put(s, c, NextConsumer(s.consumers[c], a, Current(s)))
    case ByRoot(a) => s.(root := NextRoot(s.root, a, Current(s)))
    case FinishRoot(outcome, _, deaf) =>
      var idle := s.(root := s.root.(work := RootOff, queued := s.root.queued || !outcome.Done? || Writes(s, step)));
      if Writes(s, step) then idle.(recorded := s.root.work.status.value, consumers := WakeAllBut(s.consumers, deaf)) else idle
  }

  function Run(s: State, steps: seq<Step>): State {
    if steps == [] then s
    else Next(Run(s, steps[..|steps| - 1]), steps[|steps| - 1])
  }

  // ----- The invariant -----

  /**
   A consumer whose certificates are ready has published the current list or, while at work, will: what it read is
   current, or it will be woken once more, by publishing something else than before or by correcting its condition.
   */
  ghost predicate Fresh(k: Consumer, current: Names) {
    match k.work
    case Off => k.ready ==> k.compiled == Some(current)
    case Running(list, _) => k.ready && list.Some? ==> list.value == current || k.compiled != list || k.noted
  }

  /** A change of the certificates queues the consumer, so one that is not queued has read the gate as it is. */
  ghost predicate GateOk(k: Consumer) {
    k.queued || (k.work.Running? && k.work.open.Some? ==> k.work.open.value == k.ready)
  }

  ghost predicate RootGateOk(r: Root) {
    r.queued || (r.work.Building? && r.work.open.Some? ==> r.work.open.value == r.ready)
  }

  ghost predicate GatesOk(s: State) {
    RootGateOk(s.root) && forall c | c in s.consumers :: GateOk(s.consumers[c])
  }

  ghost predicate Published(r: Root, current: Names) {
    r.ready ==> r.compiled == Some(current)
  }

  /** The RootShard has recorded and published the current list, or is going to, or going to wake itself by a write. */
  ghost predicate RootFresh(r: Root, recorded: Names, current: Names) {
    match r.work
    case RootOff => recorded == current && Published(r, current)
    case Building(list, _) => recorded != current || (r.ready && list.Some? ==> list.value == current || r.compiled != list)
    case Reporting(None) => recorded != current || Published(r, current)
    case Reporting(Some(status)) => status != recorded || (status == current && Published(r, current))
  }

  ghost predicate RootOk(s: State, current: Names) {
    s.root.queued || RootFresh(s.root, s.recorded, current)
  }

  /** A status write is due, or the consumer knows. */
  ghost predicate ConsumerOk(s: State, k: Consumer, current: Names) {
    k.queued || s.recorded != current || Fresh(k, current)
  }

  ghost predicate ConsumersOk(s: State, current: Names) {
    forall c | c in s.consumers :: ConsumerOk(s, s.consumers[c], current)
  }

  ghost predicate Inv(s: State) {
    GatesOk(s) && RootOk(s, Current(s)) && ConsumersOk(s, Current(s))
  }

  ghost predicate Quiescent(s: State) {
    && !s.root.queued && s.root.work.RootOff?
    && forall c | c in s.consumers :: !s.consumers[c].queued && s.consumers[c].work.Off?
  }

  /** The status and every published list whose certificates are ready equal the current shards. */
  ghost predicate Agreed(s: State) {
    && s.recorded == Current(s) && Published(s.root, Current(s))
    && forall c | c in s.consumers && s.consumers[c].ready :: s.consumers[c].compiled == Some(Current(s))
  }

  /**
   Steps that cannot lead to disagreement. A change of the shards must be heard by the RootShard, unless that is going to
   look anyway, and must not return to the recorded list while a consumer holds another one and nothing wakes it. A
   consumer may fail to fetch the RootShard if it is queued again for it, if a status write is due, or if it had nothing
   to do. A controller may miss the write of the current list only if its consumers know that list.
   */
  ghost predicate SafeStep(s: State, step: Step) {
    match step
    case ChangeShards(shards, heard) =>
      && (heard || RootOk(s, SortedList(shards)))
      && ConsumersOk(s, SortedList(shards))
    case By(c, FetchFails(_)) =>
      Enabled(s, step) ==>
        var k := s.consumers[c];
        !k.noted || k.queued || s.recorded != Current(s) || (k.ready ==> k.compiled == Some(Current(s)))
    case FinishRoot(_, _, deaf) =>
      Writes(s, step) && s.root.work.status.value == Current(s) ==>
        forall c | c in s.consumers && s.consumers[c].kind in deaf :: s.consumers[c].queued || Fresh(s.consumers[c], Current(s))
    case _ => true
  }

  lemma ConsumerKeepsGate(k: Consumer, a: Action, current: Names)
    requires GateOk(k) && ConsumerEnabled(k, a)
    ensures GateOk(NextConsumer(k, a, current))
  {
  }

  lemma RootKeepsGate(r: Root, a: RootAction, current: Names)
    requires RootGateOk(r) && RootEnabled(r, a)
    ensures RootGateOk(NextRoot(r, a, current))
  {
  }

  lemma StepKeepsGates(s: State, step: Step)
    requires GatesOk(s)
    ensures GatesOk(Next(s, step))
  {
    if Enabled(s, step) {
      match step
      case By(c, a) => ConsumerKeepsGate(s.consumers[c], a, Current(s));
      case ByRoot(a) => RootKeepsGate(s.root, a, Current(s));
      case _ =>
    }
  }

  lemma ConsumerStaysOk(s: State, k: Consumer, a: Action)
    requires ConsumerEnabled(k, a) && GateOk(k) && ConsumerOk(s, k, Current(s))
    requires a.FetchFails? ==>
      !k.noted || k.queued || s.recorded != Current(s) || (k.ready ==> k.compiled == Some(Current(s)))
    ensures ConsumerOk(s, NextConsumer(k, a, Current(s)), Current(s))
  {
  }

  lemma RootStaysOk(s: State, a: RootAction)
    requires RootEnabled(s.root, a) && RootGateOk(s.root) && RootOk(s, Current(s))
    ensures RootOk(s.(root := NextRoot(s.root, a, Current(s))), Current(s))
  {
  }

  lemma SafeStepKeepsInv(s: State, step: Step)
    requires Inv(s) && SafeStep(s, step)
    ensures Inv(Next(s, step))
  {
    StepKeepsGates(s, step);
    if Enabled(s, step) {
      match step
      case By(c, a) => ConsumerStaysOk(s, s.consumers[c], a);
      case ByRoot(a) => RootStaysOk(s, a);
      case _ =>
    }
  }

  /** Safe steps, and only those, keep the invariant. */
  lemma StepKeepsInvIffSafe(s: State, step: Step)
    requires Inv(s)
    ensures Inv(Next(s, step)) <==> SafeStep(s, step)
  {
    if SafeStep(s, step) {
      SafeStepKeepsInv(s, step);
    } else {
      UnsafeBreaksInv(s, step);
    }
  }

  lemma UnsafeBreaksInv(s: State, step: Step)
    requires Inv(s) && !SafeStep(s, step)
    ensures !Inv(Next(s, step))
  {
    var s' := Next(s, step);
    match step
    case ChangeShards(shards, heard) =>
      if c :| c in s.consumers && !ConsumerOk(s, s.consumers[c], SortedList(shards)) {
        assert !ConsumerOk(s', s'.consumers[c], Current(s'));
      }
    case By(c, FetchFails(_)) =>
      assert !ConsumerOk(s', s'.consumers[c], Current(s'));
    case FinishRoot(_, _, deaf) =>
      var c :| c in s.consumers && s.consumers[c].kind in deaf && !s.consumers[c].queued && !Fresh(s.consumers[c], Current(s));
      assert s'.consumers[c] == s.consumers[c];
      assert !ConsumerOk(s', s'.consumers[c], Current(s'));
  }

  /** Every step along the run was safe when it was made. */
  ghost predicate SafeRun(s: State, steps: seq<Step>)
    decreases |steps|
  {
    steps == [] ||
    var before := steps[..|steps| - 1];
    SafeRun(s, before) && SafeStep(Run(s, before), steps[|steps| - 1])
  }

  lemma {:induction false} RunKeepsInv(s: State, steps: seq<Step>)
    requires Inv(s) && SafeRun(s, steps)
    ensures Inv(Run(s, steps))
    decreases |steps|
  {
    if steps != [] {
      RunKeepsInv(s, steps[..|steps| - 1]);
      StepKeepsInvIffSafe(Run(s, steps[..|steps| - 1]), steps[|steps| - 1]);
    }
  }

  /** At start-up every existing key is queued and nothing is in progress. */
  ghost predicate Initial(s: State) {
    && s.root.queued && s.root.work.RootOff?
    && forall c | c in s.consumers :: s.consumers[c].queued && s.consumers[c].work.Off?
  }

  lemma AgreeAtRest(s: State)
    requires Inv(s) && Quiescent(s)
    ensures Agreed(s)
  {
    forall c | c in s.consumers && s.consumers[c].ready
      ensures s.consumers[c].compiled == Some(Current(s))
    {
      assert ConsumerOk(s, s.consumers[c], Current(s));
    }
  }

  /** Main result: on every run of safe steps, once nothing is queued or in progress, everybody agrees. */
  lemma QuiescenceImpliesAgreement(s: State, steps: seq<Step>)
    requires Initial(s) && SafeRun(s, steps) && Quiescent(Run(s, steps))
    ensures Agreed(Run(s, steps))
  {
    RunKeepsInv(s, steps);
    AgreeAtRest(Run(s, steps));
  }

  // ----- Runs -----

  lemma RunSnoc(s: State, steps: seq<Step>, step: Step)
    ensures Run(s, steps + [step]) == Next(Run(s, steps), step)
  {
  }

  lemma {:induction false} RunConcat(s: State, first: seq<Step>, second: seq<Step>)
    ensures Run(s, first + second) == Run(Run(s, first), second)
    decreases |second|
  {
    if second == [] {
      assert first + second == first;
    } else {
      var n := |first + second|;
      assert (first + second)[..n - 1] == first + second[..|second| - 1];
      RunConcat(s, first, second[..|second| - 1]);
    }
  }

  lemma RunCons(s: State, step: Step, rest: seq<Step>)
    ensures Run(s, [step] + rest) == Run(Next(s, step), rest)
  {
    RunSnoc(s, [], step);
    assert [] + [step] == [step];
    RunConcat(s, [step], rest);
  }

  lemma RunTwo(s: State, a: Step, b: Step)
    ensures Run(s, [a, b]) == Next(Next(s, a), b)
  {
    RunCons(s, a, [b]);
    RunCons(Next(s, a), b, []);
    assert [a] + [b] == [a, b] && [b] + [] == [b];
  }
}
