/**
 How status conditions are folded into an object. An update is dropped unless it brings a new type, another status or
 another generation; the transition time is meant to move only when the status does.
 */
module Conditions {
  import opened Wrappers

  /** `time` is the last transition time, 0 when it was never set. */
  datatype Condition = Condition(kind: string, status: string, generation: int, time: nat, reason: string, message: string)

  /** A condition to fold in, and the clock reading at that moment. */
  datatype Update = Update(condition: Condition, now: nat)

  function Find(conditions: seq<Condition>, kind: string): (r: Option<nat>)
    ensures r.Some? ==> r.value < |conditions| && conditions[r.value].kind == kind
    ensures r.Some? ==> forall i | 0 <= i < r.value :: conditions[i].kind != kind
    ensures r.None? ==> forall c | c in conditions :: c.kind != kind
    decreases |conditions|
  {
    if conditions == [] then None
    else if conditions[0].kind == kind then Some(0)
    else
      match Find(conditions[1..], kind)
      case None => None
      case Some(i) =>
        assert forall j | 0 < j <= i :: conditions[j] == conditions[1..][j - 1];
        Some(i + 1)
  }

  function Lookup(conditions: seq<Condition>, kind: string): Option<Condition> {
    match Find(conditions, kind)
    case None => None
    case Some(i) => Some(conditions[i])
  }

  /** The condition an update leaves behind, given the one that was there. */
  function Folded(before: Option<Condition>, u: Update): Condition {
    if before.None? then u.condition.(time := u.now)
    else
      var c := before.value;
      if c.status != u.condition.status then u.condition.(time := u.now)
      else if c.generation != u.condition.generation then u.condition.(time := c.time)
      else c
  }

  function Updated(conditions: seq<Condition>, u: Update): seq<Condition> {
    match Find(conditions, u.condition.kind)
    case None => conditions + [Folded(None, u)]
    case Some(i) => conditions[i := Folded(Some(conditions[i]), u)]
  }

  // ----- The code -----

  method FindStatusCondition(conditions: seq<Condition>, kind: string) returns (r: Option<nat>)
    ensures r == Find(conditions, kind)
  {
    for i := 0 to |conditions|
      invariant forall j | 0 <= j < i :: conditions[j].kind != kind
    {
      if conditions[i].kind == kind {
        FirstIsFound(conditions, i);
        return Some(i);
      }
    }
    r := None;
  }

  lemma FirstIsFound(conditions: seq<Condition>, i: nat)
    requires i < |conditions| && forall j | 0 <= j < i :: conditions[j].kind != conditions[i].kind
    ensures Find(conditions, conditions[i].kind) == Some(i)
  {
  }

  /** The library routine: it takes the caller's transition time only when the status changes. */
  method SetStatusCondition(conditions: seq<Condition>, condition: Condition, now: nat) returns (r: seq<Condition>)
    ensures match Find(conditions, condition.kind)
      case None => r == conditions + [condition.(time := if condition.time == 0 then now else condition.time)]
      case Some(i) =>
        r == conditions[i := condition.(time :=
          if conditions[i].status == condition.status then conditions[i].time
          else if condition.time == 0 then now else condition.time)]
  {
    var found := FindStatusCondition(conditions, condition.kind);
    if found.None? {
      var added := condition;
      if added.time == 0 {
        added := added.(time := now);
      }
      return conditions + [added];
    }
    var i := found.value;
    var c := conditions[i];
    if c.status != condition.status {
      c := c.(status := condition.status);
      c := c.(time := if condition.time != 0 then condition.time else now);
    }
    if c.reason != condition.reason {
      c := c.(reason := condition.reason);
    }
    if c.message != condition.message {
      c := c.(message := condition.message);
    }
    if c.generation != condition.generation {
      c := c.(generation := condition.generation);
    }
    r := conditions[i := c];
  }

  method UpdateCondition(conditions: seq<Condition>, condition: Condition, now: nat) returns (r: seq<Condition>)
    requires now != 0
    ensures r == Updated(conditions, Update(condition, now))
  {
    r := conditions;
    var found := FindStatusCondition(conditions, condition.kind);
    if found.None?
      || conditions[found.value].generation != condition.generation
      || conditions[found.value].status != condition.status
    {
      var transitionTime := now;
      if found.Some? && conditions[found.value].status == condition.status {
        transitionTime := conditions[found.value].time;
      }
      var stamped := condition.(time := transitionTime);
      r := SetStatusCondition(conditions, stamped, now);
    } else {
      assert r == conditions[found.value := conditions[found.value]];
    }
  }

  function At(updates: seq<Update>, generation: int): (r: seq<Update>)
    ensures |r| == |updates|
  {
    seq(|updates|, i requires 0 <= i < |updates| => updates[i].(condition := updates[i].condition.(generation := generation)))
  }

  /** The loop of every reconcileStatus: each condition is stamped with the generation it was computed for. */
  method UpdateAll(conditions: seq<Condition>, updates: seq<Update>, generation: int) returns (r: seq<Condition>)
    requires forall u | u in updates :: u.now != 0
    ensures r == After(conditions, At(updates, generation))
    ensures forall i | LastOfKind(updates, i) :: exists c | c in r ::
      && c.kind == updates[i].condition.kind && c.status == updates[i].condition.status && c.generation == generation
  {
    r := conditions;
    ghost var stampedAll := At(updates, generation);
    for i := 0 to |updates|
      invariant r == After(conditions, stampedAll[..i])
    {
      assert stampedAll[..i + 1][..i] == stampedAll[..i];
      assert updates[i] in updates;
      r := UpdateCondition(r, updates[i].condition.(generation := generation), updates[i].now);
    }
    assert stampedAll[..|updates|] == stampedAll;
    forall i | LastOfKind(updates, i)
      ensures exists c | c in r ::
        && c.kind == updates[i].condition.kind && c.status == updates[i].condition.status && c.generation == generation
    {
      assert stampedAll[i].condition == updates[i].condition.(generation := generation);
      LastGenerationCounts(conditions, stampedAll, i);
    }
  }

  /** No later update is for the same type. */
  ghost predicate LastOfKind(updates: seq<Update>, i: int) {
    0 <= i < |updates| && forall j | i < j < |updates| :: updates[j].condition.kind != updates[i].condition.kind
  }

  function After(conditions: seq<Condition>, updates: seq<Update>): seq<Condition> {
    if updates == [] then conditions
    else Updated(After(conditions, updates[..|updates| - 1]), updates[|updates| - 1])
  }

  // ----- One update -----

  ghost predicate OnePerKind(conditions: seq<Condition>) {
    forall i, j | 0 <= i < j < |conditions| :: conditions[i].kind != conditions[j].kind
  }

  lemma UpdateKeepsOnePerKind(conditions: seq<Condition>, u: Update)
    requires OnePerKind(conditions)
    ensures OnePerKind(Updated(conditions, u))
  {
  }

  /** Only the condition of the updated type is affected; the others keep their values and their places. */
  lemma OneUpdate(conditions: seq<Condition>, u: Update, kind: string)
    ensures Lookup(Updated(conditions, u), kind) ==
      if kind == u.condition.kind then Some(Folded(Lookup(conditions, kind), u)) else Lookup(conditions, kind)
    ensures forall i | 0 <= i < |conditions| && conditions[i].kind != u.condition.kind ::
      Updated(conditions, u)[i] == conditions[i]
  {
    var r := Updated(conditions, u);
    assert forall i | 0 <= i < |conditions| :: r[i].kind == conditions[i].kind;
    match Find(conditions, kind)
    case Some(i) =>
      FirstIsFound(r, i);
    case None =>
      assert forall i | 0 <= i < |conditions| :: conditions[i] in conditions;
      if kind == u.condition.kind {
        FirstIsFound(r, |conditions|);
      } else {
        assert forall c | c in r :: c.kind != kind;
      }
  }

  /**
   A new reason or message gets through exactly if the type is new, the status or the generation changed, or it was
   what stood there already: news about an unchanged status stays hidden until the object is edited.
   */
  lemma MessageShownIff(conditions: seq<Condition>, u: Update)
    ensures var c := Lookup(conditions, u.condition.kind); var r := Lookup(Updated(conditions, u), u.condition.kind);
      && r.Some? && r.value.status == u.condition.status && r.value.generation == u.condition.generation
      && (c.Some? && c.value.status == u.condition.status && c.value.generation == u.condition.generation ==> r == c)
      && (r.value.reason == u.condition.reason && r.value.message == u.condition.message <==>
          || c.None? || c.value.status != u.condition.status || c.value.generation != u.condition.generation
          || (c.value.reason == u.condition.reason && c.value.message == u.condition.message))
  {
    OneUpdate(conditions, u, u.condition.kind);
  }

  // ----- Any number of updates -----

  function StatusOf(conditions: seq<Condition>, kind: string): Option<string> {
    match Lookup(conditions, kind)
    case None => None
    case Some(c) => Some(c.status)
  }

  /** The status of `kind` before the first update, and after each of them. */
  function Statuses(conditions: seq<Condition>, updates: seq<Update>, kind: string): (r: seq<Option<string>>)
    ensures |r| == |updates| + 1
    ensures r[0] == StatusOf(conditions, kind) && r[|updates|] == StatusOf(After(conditions, updates), kind)
  {
    if updates == [] then [StatusOf(conditions, kind)]
    else Statuses(conditions, updates[..|updates| - 1], kind) + [StatusOf(After(conditions, updates), kind)]
  }

  /** Update `i` is the one that brought `kind` its present status: the last to insert or flip it. */
  ghost predicate LastTransition(statuses: seq<Option<string>>, updates: seq<Update>, kind: string, i: nat)
    requires |statuses| == |updates| + 1
  {
    && i < |updates| && updates[i].condition.kind == kind
    && statuses[i] != Some(updates[i].condition.status)
    && forall j | i < j <= |updates| :: statuses[j] == Some(updates[i].condition.status)
  }

  /** The transition time of `kind` is that of its last transition, or the original one if its status never changed. */
  ghost predicate TimeExplained(statuses: seq<Option<string>>, updates: seq<Update>, kind: string,
                                start: Option<nat>, time: Option<nat>)
    requires |statuses| == |updates| + 1
  {
    || ((forall j | 0 <= j <= |updates| :: statuses[j] == statuses[0]) && time == start)
    || exists i: nat :: LastTransition(statuses, updates, kind, i) && time == Some(updates[i].now)
  }

  function Time(c: Option<Condition>): Option<nat> {
    match c
    case None => None
    case Some(c) => Some(c.time)
  }

  /** However many updates come in, there is at most one condition per type. */
  lemma {:induction false} AnyUpdatesKeepOnePerKind(conditions: seq<Condition>, updates: seq<Update>)
    requires OnePerKind(conditions)
    ensures OnePerKind(After(conditions, updates))
    decreases |updates|
  {
    if updates != [] {
      AnyUpdatesKeepOnePerKind(conditions, updates[..|updates| - 1]);
      UpdateKeepsOnePerKind(After(conditions, updates[..|updates| - 1]), updates[|updates| - 1]);
    }
  }

  /** The status of a type is that of its last update, whatever was folded in for other types since. */
  lemma {:induction false} LastUpdateCounts(conditions: seq<Condition>, updates: seq<Update>, i: nat)
    requires i < |updates| && forall j | i < j < |updates| :: updates[j].condition.kind != updates[i].condition.kind
    ensures StatusOf(After(conditions, updates), updates[i].condition.kind) == Some(updates[i].condition.status)
    decreases |updates|
  {
    var n := |updates| - 1;
    OneStatus(After(conditions, updates[..n]), updates[n], updates[i].condition.kind);
    if i < n {
      LastUpdateCounts(conditions, updates[..n], i);
    }
  }

  /** So is its generation: the condition of a type shows the status and the generation its last update came with. */
  lemma {:induction false} LastGenerationCounts(conditions: seq<Condition>, updates: seq<Update>, i: int)
    requires LastOfKind(updates, i)
    ensures var c, last := Lookup(After(conditions, updates), updates[i].condition.kind), updates[i].condition;
      c.Some? && c.value.kind == last.kind && c.value.status == last.status && c.value.generation == last.generation
    decreases |updates|
  {
    var n := |updates| - 1;
    var before := After(conditions, updates[..n]);
    OneUpdate(before, updates[n], updates[i].condition.kind);
    if i < n {
      LastGenerationCounts(conditions, updates[..n], i);
    } else {
      MessageShownIff(before, updates[n]);
    }
  }

  /** What one update does to the status and transition time of a type. */
  lemma OneStatus(before: seq<Condition>, u: Update, kind: string)
    ensures var after := Updated(before, u);
      if kind == u.condition.kind && StatusOf(before, kind) != Some(u.condition.status)
      then StatusOf(after, kind) == Some(u.condition.status) && Time(Lookup(after, kind)) == Some(u.now)
      else StatusOf(after, kind) == StatusOf(before, kind) && Time(Lookup(after, kind)) == Time(Lookup(before, kind))
  {
    OneUpdate(before, u, kind);
  }

  /** An update that leaves the status of `kind` alone leaves the reason for its transition time alone. */
  lemma StillExplained(statuses: seq<Option<string>>, updates: seq<Update>, kind: string,
                       start: Option<nat>, time: Option<nat>, u: Update)
    requires |statuses| == |updates| + 1 && TimeExplained(statuses, updates, kind, start, time)
    ensures TimeExplained(statuses + [statuses[|updates|]], updates + [u], kind, start, time)
  {
    var longer := statuses + [statuses[|updates|]];
    if i: nat :| LastTransition(statuses, updates, kind, i) && time == Some(updates[i].now) {
      assert LastTransition(longer, updates + [u], kind, i);
    }
  }

  lemma NewlyExplained(statuses: seq<Option<string>>, updates: seq<Update>, start: Option<nat>, u: Update)
    requires |statuses| == |updates| + 1 && statuses[|updates|] != Some(u.condition.status)
    ensures TimeExplained(statuses + [Some(u.condition.status)], updates + [u], u.condition.kind, start, Some(u.now))
  {
    assert LastTransition(statuses + [Some(u.condition.status)], updates + [u], u.condition.kind, |updates|);
  }

  ghost predicate Accounted(conditions: seq<Condition>, updates: seq<Update>, kind: string) {
    TimeExplained(Statuses(conditions, updates, kind), updates, kind,
                  Time(Lookup(conditions, kind)), Time(Lookup(After(conditions, updates), kind)))
  }

  /** The transition time of a condition is the moment its present status came about, and never anything else. */
  lemma {:induction false} TimeOfLastTransition(conditions: seq<Condition>, updates: seq<Update>, kind: string)
    ensures Accounted(conditions, updates, kind)
    decreases |updates|
  {
    if updates == [] {
      assert Statuses(conditions, updates, kind) == [StatusOf(conditions, kind)];
    } else {
      TimeOfLastTransition(conditions, updates[..|updates| - 1], kind);
      OneUpdateMore(conditions, updates[..|updates| - 1], updates[|updates| - 1], kind);
      assert updates == updates[..|updates| - 1] + [updates[|updates| - 1]];
    }
  }

  lemma OneUpdateMore(conditions: seq<Condition>, front: seq<Update>, u: Update, kind: string)
    requires Accounted(conditions, front, kind)
    ensures Accounted(conditions, front + [u], kind)
  {
    var start, before, statuses := Time(Lookup(conditions, kind)), After(conditions, front), Statuses(conditions, front, kind);
    assert (front + [u])[..|front|] == front;
    OneStatus(before, u, kind);
    var status, time := StatusOf(Updated(before, u), kind), Time(Lookup(Updated(before, u), kind));
    assert Statuses(conditions, front + [u], kind) == statuses + [status];
    if u.condition.kind == kind && StatusOf(before, kind) != Some(u.condition.status) {
      NewlyExplained(statuses, front, start, u);
    } else {
      StillExplained(statuses, front, kind, start, time, u);
    }
  }
}
