/**
 The kubeconfig-rbac controller as it is written: methods that patch an object in place, loop over
 listed bindings and return early. Each method is proved to perform a run of the step machine, so
 everything proved about runs holds of it, and an undisturbed Reconcile computes `Reconciled`.
 */
module RbacController {
  import opened Wrappers
  import opened ApiCalls
  import opened Ordering
  import opened RbacModel
  import opened RbacSafety
  import opened RbacConvergence

  datatype Item = Item(name: string, role: string)

  function Names(items: seq<Item>): (r: seq<string>)
    ensures |r| == |items|
  {
    if items == [] then [] else [items[0].name] + Names(items[1..])
  }

  /** The names of the listed bindings that are to go. */
  function Overhang(items: seq<Item>, desired: set<string>): seq<string> {
    if items == [] then []
    else (if items[0].role in desired then [] else [items[0].name]) + Overhang(items[1..], desired)
  }

  lemma {:induction false} OverhangMembers(items: seq<Item>, desired: set<string>)
    ensures forall n :: n in Overhang(items, desired) <==> exists it | it in items :: it.name == n && it.role !in desired
    decreases |items|
  {
    if items != [] {
      OverhangMembers(items[1..], desired);
      assert forall it :: it in items <==> it == items[0] || it in items[1..];
    } else {
      assert Overhang(items, desired) == [];
    }
  }

  lemma {:induction false} OverhangSorted(items: seq<Item>, desired: set<string>)
    requires Distinct(Names(items)) && Sorted(Names(items))
    ensures Distinct(Overhang(items, desired)) && Sorted(Overhang(items, desired))
    decreases |items|
  {
    if items != [] {
      var names, rest := Names(items), Names(items[1..]);
      assert names[1..] == rest && forall i | 0 <= i < |rest| :: rest[i] == names[i + 1];
      OverhangSorted(items[1..], desired);
      var tail := Overhang(items[1..], desired);
      forall j | 0 <= j < |tail|
        ensures tail[j] != names[0] && LessEq(names[0], tail[j])
      {
        OverhangMembers(items[1..], desired);
        assert tail[j] in tail;
        var it :| it in items[1..] && it.name == tail[j];
        NamesMember(items[1..], it);
        var i :| 0 <= i < |rest| && rest[i] == tail[j];
        assert names[i + 1] == tail[j];
      }
    }
  }

  lemma {:induction false} NamesMember(items: seq<Item>, it: Item)
    requires it in items
    ensures it.name in Names(items)
    decreases |items|
  {
    if it != items[0] {
      NamesMember(items[1..], it);
    }
  }

  /** The items of a List in one workspace: every owned binding once, in name order. */
  function Listed(w: World, uid: Uid, ws: Workspace, names: seq<string>): (r: seq<Item>)
    requires forall n | n in names :: Key(ws, n) in w.bindings
    ensures |r| == |names|
    ensures forall i | 0 <= i < |r| :: r[i] == Item(names[i], w.bindings[Key(ws, names[i])].role)
    ensures Names(r) == names
  {
    if names == [] then []
    else
      [Item(names[0], w.bindings[Key(ws, names[0])].role)] + Listed(w, uid, ws, names[1..])
  }

  lemma OwnedNamesListed(w: World, uid: Uid, ws: Workspace)
    ensures forall n | n in SortedList(OwnedNames(w, uid, ws)) :: Key(ws, n) in w.bindings && w.bindings[Key(ws, n)].owner == Some(uid)
  {
    forall n | n in SortedList(OwnedNames(w, uid, ws))
      ensures Key(ws, n) in w.bindings && w.bindings[Key(ws, n)].owner == Some(uid)
    {
      assert n in Elements(SortedList(OwnedNames(w, uid, ws)));
    }
  }

  /** Each item stands for the binding of that name in the workspace. */
  ghost predicate ItemsOf(w: World, ws: Workspace, names: seq<string>, items: seq<Item>) {
    && |items| == |names|
    && forall i | 0 <= i < |names| :: Key(ws, names[i]) in w.bindings && items[i] == Item(names[i], w.bindings[Key(ws, names[i])].role)
  }

  lemma OverhangIsOverhanging(w: World, kc: Kubeconfig, ws: Workspace, names: seq<string>, items: seq<Item>)
    requires ItemsOf(w, ws, names, items) && forall n | n in names :: n in OwnedNames(w, kc.uid, ws)
    ensures forall it | it in items && it.role !in DesiredRoles(kc.spec) :: it.name in OverhangingNames(w, kc, ws)
  {
    forall it | it in items && it.role !in DesiredRoles(kc.spec)
      ensures it.name in OverhangingNames(w, kc, ws)
    {
      var i :| 0 <= i < |items| && items[i] == it;
      assert names[i] in names;
      var k :| k in w.bindings && k.ws == ws && w.bindings[k].owner == Some(kc.uid) && k.name == names[i];
      assert k == Key(ws, names[i]);
    }
  }

  lemma OverhangingIsOverhang(w: World, kc: Kubeconfig, ws: Workspace, names: seq<string>, items: seq<Item>)
    requires ItemsOf(w, ws, names, items) && forall n | n in OwnedNames(w, kc.uid, ws) :: n in names
    ensures forall n | n in OverhangingNames(w, kc, ws) :: exists it | it in items :: it.name == n && it.role !in DesiredRoles(kc.spec)
  {
    forall n | n in OverhangingNames(w, kc, ws)
      ensures exists it | it in items :: it.name == n && it.role !in DesiredRoles(kc.spec)
    {
      var k :| k in w.bindings && k.ws == ws && w.bindings[k].owner == Some(kc.uid)
            && w.bindings[k].role !in DesiredRoles(kc.spec) && k.name == n;
      assert n in OwnedNames(w, kc.uid, ws);
      var i :| 0 <= i < |names| && names[i] == n;
      assert items[i] in items && k == Key(ws, n);
    }
  }

  /** Skipping the desired roles while looping over the list visits exactly the overhanging names, in order. */
  lemma OverhangOfListed(w: World, kc: Kubeconfig, ws: Workspace, items: seq<Item>)
    requires (OwnedNamesListed(w, kc.uid, ws); items == Listed(w, kc.uid, ws, SortedList(OwnedNames(w, kc.uid, ws))))
    ensures Overhang(items, DesiredRoles(kc.spec)) == SortedList(OverhangingNames(w, kc, ws))
  {
    OwnedNamesListed(w, kc.uid, ws);
    var names := SortedList(OwnedNames(w, kc.uid, ws));
    OverhangElements(w, kc, ws, names, items);
    OverhangSorted(items, DesiredRoles(kc.spec));
    SortedListUnique(Overhang(items, DesiredRoles(kc.spec)));
  }

  lemma OverhangElements(w: World, kc: Kubeconfig, ws: Workspace, names: seq<string>, items: seq<Item>)
    requires ItemsOf(w, ws, names, items) && Elements(names) == OwnedNames(w, kc.uid, ws)
    ensures Elements(Overhang(items, DesiredRoles(kc.spec))) == OverhangingNames(w, kc, ws)
  {
    assert forall n | n in names :: n in OwnedNames(w, kc.uid, ws) by {
      assert forall n | n in names :: n in Elements(names);
    }
    OverhangMembers(items, DesiredRoles(kc.spec));
    OverhangIsOverhanging(w, kc, ws, names, items);
    OverhangingIsOverhang(w, kc, ws, names, items);
  }

  class ApiServer {
    var world: World
    var turn: nat
    const script: nat -> Turn<EnvStep>

    ghost const start: State
    ghost var steps: seq<Step>
    ghost var pc: Pc

    constructor (world: World, script: nat -> Turn<EnvStep>)
      requires Initial(State(world, Idle))
      ensures Valid() && pc == Idle && this.world == world && this.script == script && turn == 0 && steps == []
    {
      this.world, this.script, turn := world, script, 0;
      start, steps, pc := State(world, Idle), [], Idle;
    }

    ghost predicate Valid()
      reads this
    {
      Initial(start) && Run(start, steps) == State(world, pc)
    }

    ghost function Current(): State
      reads this
    {
      State(world, pc)
    }

    /** From now on nothing interferes and every call succeeds. */
    ghost predicate Quiet()
      reads this
    {
      forall i :: i >= turn ==> script(i) == Turn([], Done)
    }

    ghost method Record(step: Step)
      requires Valid()
      modifies this`steps, this`pc
      ensures Run(start, steps) == Next(old(Current()), step) && pc == Run(start, steps).pc && steps == old(steps) + [step]
    {
      steps := steps + [step];
      assert steps[..|steps| - 1] == old(steps);
      pc := Run(start, steps).pc;
    }

    /** The outside world's actions before a call, and how that call will end. */
    method TakeTurn() returns (outcome: Outcome)
      requires Valid()
      modifies this
      ensures Valid() && pc == old(pc) && old(steps) <= steps
      ensures turn == old(turn) + 1 && (old(Quiet()) ==> Quiet() && outcome == Done && world == old(world))
    {
      var t := script(turn);
      for i := 0 to |t.before|
        invariant Valid() && pc == old(pc) && old(steps) <= steps && turn == old(turn)
        invariant i == 0 ==> world == old(world)
      {
        Record(Env(t.before[i]));
        world := EnvEffect(world, t.before[i]);
      }
      outcome := t.outcome;
      turn := turn + 1;
    }

    /** Fetches the object; no snapshot when it does not exist or the call fails. */
    method GetKubeconfig() returns (r: Option<Kubeconfig>)
      requires Valid() && pc == Idle
      modifies this
      ensures Valid() && old(steps) <= steps && (old(Quiet()) ==> Quiet() && world == old(world))
      ensures r.None? ==> pc == Idle
      ensures r.Some? ==> world.obj == r && pc == Begin(r.value)
      ensures old(Quiet()) ==> r == old(world).obj
    {
      var outcome := TakeTurn();
      r := if outcome.Done? then world.obj else None;
      if r.Some? {
        Record(Get(r.value));
      }
    }

    /** What every call promises: it is one step of the machine after some steps of the outside world. */
    ghost predicate Answered(before: State, wasQuiet: bool, ok: bool)
      reads this
    {
      && Valid()
      && (!ok ==> pc == Idle)
      && (ok ==> pc == Follow(before.pc, world))
      && (wasQuiet ==> Quiet() && Current() == Next(before, Call(Done)))
    }

    method ListBindings(ws: Workspace, uid: Uid) returns (ok: bool, items: seq<Item>)
      requires Valid() && pc.Listing? && pc.ws == ws && pc.kc.uid == uid
      modifies this
      ensures Answered(old(Current()), old(Quiet()), ok) && old(steps) <= steps
      ensures ok ==> (OwnedNamesListed(world, uid, ws); items == Listed(world, uid, ws, SortedList(OwnedNames(world, uid, ws))))
    {
      var outcome := TakeTurn();
      ok := outcome.Done?;
      items := [];
      if ok {
        OwnedNamesListed(world, uid, ws);
        items := Listed(world, uid, ws, SortedList(OwnedNames(world, uid, ws)));
      }
      Record(Call(outcome));
    }

    method DeleteBinding(ws: Workspace, name: string) returns (ok: bool)
      requires Valid() && pc.Deleting? && pc.ws == ws && pc.todo != [] && pc.todo[0] == name
      modifies this
      ensures Answered(old(Current()), old(Quiet()), ok) && old(steps) <= steps
    {
      var outcome := TakeTurn();
      ok := outcome.Done? && Key(ws, name) in world.bindings;
      Record(Call(outcome));
      if !outcome.Refused? {
        world := world.(bindings := world.bindings - {Key(ws, name)});
      }
    }

    method EnsureBinding(ws: Workspace, name: string, b: Binding) returns (ok: bool)
      requires Valid() && pc.Ensuring? && pc.ws == ws && pc.todo != []
      requires name == BindingName(pc.kc.uid, pc.todo[0]) && b == BindingFor(pc.kc, pc.todo[0])
      modifies this
      ensures Answered(old(Current()), old(Quiet()), ok) && old(steps) <= steps
    {
      var outcome := TakeTurn();
      ok := outcome.Done?;
      Record(Call(outcome));
      if !outcome.Refused? {
        world := world.(bindings := world.bindings[Key(ws, name) := b]);
      }
    }

    /** A status patch; on success the response is the stored object. */
    method PatchProvisionedCluster(value: Workspace) returns (ok: bool, response: Option<Kubeconfig>)
      requires Valid()
      requires (pc.ClearingStatus? && value == "") || (pc.RecordingCluster? && value == pc.ws)
      modifies this
      ensures Answered(old(Current()), old(Quiet()), ok) && old(steps) <= steps
      ensures ok ==> response.Some? && world.obj == response
    {
      var outcome := TakeTurn();
      ok := outcome.Done? && world.obj.Some?;
      Record(Call(outcome));
      if !outcome.Refused? && world.obj.Some? {
        world := world.(obj := Some(world.obj.value.(provisioned := Some(value))));
      }
      response := world.obj;
    }

    /** A merge patch that replaces the finalizer list; the API server may reject it. */
    method PatchFinalizers(finalizers: set<string>) returns (ok: bool)
      requires Valid()
      requires (pc.AddingFinalizer? && finalizers == pc.kc.finalizers + {CLEANUP})
            || (pc.RemovingFinalizer? && finalizers == pc.kc.finalizers - {CLEANUP})
      modifies this
      ensures Answered(old(Current()), old(Quiet()), ok) && old(steps) <= steps
    {
      var outcome := TakeTurn();
      var accepted := !outcome.Refused? && CanStore(world, finalizers);
      ok := outcome.Done? && accepted;
      Record(Call(outcome));
      if accepted {
        world := Store(world, world.obj.value.(finalizers := finalizers));
      }
    }
  }

  /** How a method of the controller ends; a panic is the nil dereference of Status.Authorization. */
  datatype Verdict = Fine | Failed | Panicked

  class KubeconfigRbacReconciler {
    const api: ApiServer
    var kc: Kubeconfig

    constructor (api: ApiServer, kc: Kubeconfig)
      ensures this.api == api && this.kc == kc
    {
      this.api := api;
      this.kc := kc;
    }

    /** A sub-step keeps the run going: `before` and now lead to the same end if left undisturbed. */
    twostate predicate Continues()
      reads this, api
    {
      && api.Valid() && old(api.steps) <= api.steps
      && (old(api.Quiet()) ==> api.Quiet() && Drain(api.Current()) == Drain(old(api.Current())))
    }

    method RemoveFinalizer() returns (v: Verdict)
      requires api.Valid() && api.pc == StartRemoval(kc)
      modifies this, api
      ensures Continues() && api.pc == Idle && !v.Panicked?
    {
      if CLEANUP !in kc.finalizers {
        return Fine;
      }
      var finalizers := kc.finalizers - {CLEANUP};
      var ok := api.PatchFinalizers(finalizers);
      v := if ok then Fine else Failed;
    }

    method EnsureFinalizer() returns (updated: bool, v: Verdict)
      requires api.Valid() && (CLEANUP !in kc.finalizers ==> api.pc == AddingFinalizer(kc))
      modifies this, api
      ensures Continues() && !v.Panicked? && kc == old(kc)
      ensures updated == (v.Fine? && CLEANUP !in kc.finalizers)
      ensures if CLEANUP in kc.finalizers then v.Fine? && api.Current() == old(api.Current()) else api.pc == Idle
    {
      if CLEANUP in kc.finalizers {
        return false, Fine;
      }
      var ok := api.PatchFinalizers(kc.finalizers + {CLEANUP});
      updated := ok;
      v := if ok then Fine else Failed;
    }

    method PatchProvisionedCluster(value: Workspace) returns (updated: bool, v: Verdict)
      requires api.Valid()
      requires kc.provisioned != Some(value) ==>
        if value == "" then api.pc == ClearingStatus(kc) else api.pc == RecordingCluster(kc, value)
      modifies this, api
      ensures Continues() && !v.Panicked?
      ensures updated == (old(kc).provisioned != Some(value))
      ensures !updated ==> v.Fine? && kc == old(kc) && api.Current() == old(api.Current())
      ensures updated && !v.Fine? ==> api.pc == Idle
      ensures updated && v.Fine? ==> Some(kc) == api.world.obj && api.pc == Follow(old(api.pc), api.world)
    {
      if kc.provisioned == Some(value) {
        return false, Fine;
      }
      updated := true;
      kc := kc.(provisioned := Some(value));
      var ok, response := api.PatchProvisionedCluster(value);
      if ok {
        kc := response.value;
      }
      v := if ok then Fine else Failed;
    }

    /** The delete loop of unprovisionCluster; it stops at the first error. */
    method DeleteAll(ws: Workspace, items: seq<Item>) returns (ok: bool)
      requires api.Valid() && api.pc == NextDelete(kc, ws, Names(items), true)
      modifies api
      ensures Continues()
      ensures api.pc == if ok then NextDelete(kc, ws, [], true) else Idle
    {
      ok := true;
      assert items[0..] == items;
      for i := 0 to |items|
        invariant Continues()
        invariant api.pc == NextDelete(kc, ws, Names(items[i..]), true)
      {
        assert items[i..][0] == items[i] && items[i..][1..] == items[i + 1..];
        assert Names(items[i..])[1..] == Names(items[i + 1..]);
        ok := api.DeleteBinding(ws, items[i].name);
        if !ok {
          return;
        }
      }
    }

    /** The delete loop of reconcileBindings, which skips the bindings of desired roles. */
    method DeleteOverhanging(ws: Workspace, items: seq<Item>, desired: set<string>) returns (ok: bool)
      requires api.Valid() && api.pc == NextDelete(kc, ws, Overhang(items, desired), false)
      modifies api
      ensures Continues()
      ensures api.pc == if ok then NextDelete(kc, ws, [], false) else Idle
    {
      ok := true;
      assert items[0..] == items;
      for i := 0 to |items|
        invariant Continues()
        invariant api.pc == NextDelete(kc, ws, Overhang(items[i..], desired), false)
      {
        assert items[i..][0] == items[i] && items[i..][1..] == items[i + 1..];
        if items[i].role !in desired {
          assert Overhang(items[i..], desired)[1..] == Overhang(items[i + 1..], desired);
          ok := api.DeleteBinding(ws, items[i].name);
          if !ok {
            return;
          }
        }
      }
    }

    method EnsureAll(ws: Workspace, roles: seq<string>) returns (ok: bool)
      requires api.Valid() && api.pc == NextEnsure(kc, ws, roles)
      modifies api
      ensures Continues() && api.pc == Idle
    {
      ok := true;
      assert roles[0..] == roles;
      for i := 0 to |roles|
        invariant Continues()
        invariant api.pc == NextEnsure(kc, ws, roles[i..])
      {
        assert roles[i..][1..] == roles[i + 1..];
        ok := api.EnsureBinding(ws, BindingName(kc.uid, roles[i]), BindingFor(kc, roles[i]));
        if !ok {
          return;
        }
      }
    }

    method EmptyWorkspace(ws: Workspace) returns (ok: bool)
      requires api.Valid() && api.pc == Listing(kc, ws, true)
      modifies api
      ensures Continues()
      ensures api.pc == if ok then ClearingStatus(kc) else Idle
    {
      var items;
      ok, items := api.ListBindings(ws, kc.uid);
      if ok {
        assert api.pc == NextDelete(kc, ws, Names(items), true);
        ok := DeleteAll(ws, items);
      }
    }

    method UnprovisionCluster() returns (v: Verdict)
      requires api.Valid()
      requires match kc.provisioned
               case None => api.pc == Idle
               case Some(ws) => if ws == "" then kc.deleting && api.pc == StartRemoval(kc) else api.pc == Listing(kc, ws, true)
      modifies this, api
      ensures Continues()
      ensures v.Panicked? <==> old(kc).provisioned.None?
      ensures !v.Fine? ==> api.pc == Idle
      ensures v.Fine? ==> api.pc == if old(kc).deleting then StartRemoval(kc) else Idle
    {
      if kc.provisioned.None? {
        return Panicked;
      }
      var ws := kc.provisioned.value;
      if ws == "" {
        return Fine;
      }
      var ok := EmptyWorkspace(ws);
      if !ok {
        return Failed;
      }
      var _, patched := PatchProvisionedCluster("");
      v := patched;
    }

    method HandleDeletion() returns (v: Verdict)
      requires api.Valid() && kc.deleting && api.pc == Begin(kc)
      modifies this, api
      ensures Continues() && api.pc == Idle
      ensures v.Panicked? <==> CLEANUP in old(kc).finalizers && old(kc).provisioned.None?
    {
      if CLEANUP !in kc.finalizers {
        return Fine;
      }
      v := UnprovisionCluster();
      if !v.Fine? {
        return;
      }
      v := RemoveFinalizer();
    }

    method ReconcileBindings() returns (v: Verdict)
      requires api.Valid() && api.pc == Listing(kc, RbacTargetWorkspace(kc.spec), false)
      modifies this, api
      ensures Continues() && api.pc == Idle && !v.Panicked?
    {
      var ws := RbacTargetWorkspace(kc.spec);
      var ok, items := api.ListBindings(ws, kc.uid);
      if !ok {
        return Failed;
      }
      var desired := DesiredRoles(kc.spec);
      OverhangOfListed(api.world, kc, ws, items);
      assert api.pc == NextDelete(kc, ws, Overhang(items, desired), false) && Continues();
      ok := DeleteOverhanging(ws, items, desired);
      if !ok {
        return Failed;
      }
      assert api.pc == NextEnsure(kc, ws, SortedList(desired)) && Continues();
      ok := EnsureAll(ws, SortedList(desired));
      v := if ok then Fine else Failed;
    }

    method ReconcileSnapshot() returns (v: Verdict)
      requires api.Valid() && api.pc == Begin(kc)
      modifies this, api
      ensures Continues() && api.pc == Idle
      ensures v.Panicked? <==> old(kc).deleting && CLEANUP in old(kc).finalizers && old(kc).provisioned.None?
    {
      if kc.deleting {
        v := HandleDeletion();
        return;
      }
      var oldCluster, newCluster := "", "";
      if kc.provisioned.Some? {
        oldCluster := kc.provisioned.value;
      }
      if kc.spec.authorization.Some? {
        newCluster := RbacTargetWorkspace(kc.spec);
      }
      if oldCluster != "" && newCluster != oldCluster {
        v := UnprovisionCluster();
        return;
      }
      if newCluster == "" {
        v := RemoveFinalizer();
        return;
      }
      var updated;
      updated, v := EnsureFinalizer();
      if !v.Fine? || updated {
        return;
      }
      updated, v := PatchProvisionedCluster(newCluster);
      if !v.Fine? || updated {
        return;
      }
      v := ReconcileBindings();
    }

    /**
     One reconcile against any behaviour of the API server and the outside world. It extends the run of the
     machine, so no binding is leaked at any of its calls; undisturbed, it computes `Reconciled`.
     */
    method Reconcile() returns (v: Verdict)
      requires api.Valid() && api.pc == Idle
      modifies this, api
      ensures api.Valid() && api.pc == Idle && old(api.steps) <= api.steps
      ensures forall k | k in api.world.bindings :: !Leaked(api.world, k)
      ensures old(api.Quiet()) ==> api.world == Reconciled(old(api.world))
      ensures old(api.Quiet()) ==> (v.Panicked? <==> AwaitsCleanup(old(api.world)) && old(api.world).obj.value.provisioned.None?)
    {
      var config := api.GetKubeconfig();
      if config.None? {
        v := Fine;
      } else {
        kc := config.value;
        v := ReconcileSnapshot();
      }
      NoLeakOnAnyRun(api.start, api.steps);
    }
  }
}
