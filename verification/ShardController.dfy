/**
 The Shard controller as it is written: methods that patch the object in place, collect errors and return early. Each
 method performs a run of the step machine of ShardFinalizer, so everything proved about runs holds of it.
 */
module ShardController {
  import opened Wrappers
  import opened ApiCalls
  import opened Ordering
  import opened ShardFinalizer

  class ApiServer {
    var world: World
    var turn: nat
    const script: nat -> Turn<EnvStep>

    ghost const start: State
    ghost var steps: seq<Step>
    ghost var pc: Pc
    ghost var h: History

    constructor (world: World, script: nat -> Turn<EnvStep>)
      requires Initial(State(world, Idle, History(false, false, false, false)))
      ensures Valid() && pc == Idle && this.world == world && this.script == script && turn == 0 && steps == []
    {
      this.world, this.script, turn := world, script, 0;
      start := State(world, Idle, History(false, false, false, false));
      steps, pc, h := [], Idle, History(false, false, false, false);
    }

    ghost predicate Valid()
      reads this
    {
      Initial(start) && Run(start, steps) == Current()
    }

    ghost function Current(): State
      reads this
    {
      State(world, pc, h)
    }

    /** The run has gone on since `from`, and nothing was created meanwhile. */
    ghost predicate OnlyReadSince(from: seq<Step>)
      reads this
    {
      from <= steps && forall i | |from| <= i < |steps| :: !steps[i].Write?
    }

    /** Whatever was written since `from` is one of these, and nothing else was created. */
    ghost predicate WroteOnly(from: seq<Step>, before: set<string>, allowed: set<string>)
      reads this
    {
      && from <= steps && before <= world.children <= before + allowed
      && forall i | |from| <= i < |steps| && steps[i].Write? :: steps[i].child in allowed
    }

    ghost predicate Tried(from: seq<Step>, child: string)
      reads this
    {
      exists i | |from| <= i < |steps| :: steps[i].Write? && steps[i].child == child
    }

    ghost predicate EveryWriteDone(from: seq<Step>)
      reads this
    {
      forall i | |from| <= i < |steps| && steps[i].Write? :: steps[i].outcome.Done?
    }

    /** Every group was tried, the CompiledShard only behind an open gate; success means that all of it exists now. */
    ghost predicate DidWork(from: seq<Step>, before: set<string>, groups: seq<seq<string>>, compiled: string, gate: bool, ok: bool)
      reads this
    {
      && WroteOnly(from, before, Listed(groups) + if gate then {compiled} else {})
      && (forall g | g in groups && g != [] :: Tried(from, g[0]))
      && (gate ==> Tried(from, compiled))
      && (ok <==> EveryWriteDone(from))
      && (ok ==> Listed(groups) <= world.children && (gate ==> compiled in world.children))
    }

    ghost method Record(step: Step)
      requires Valid()
      modifies this`steps, this`pc, this`h
      ensures Run(start, steps) == Next(old(Current()), step)
      ensures pc == Run(start, steps).pc && h == Run(start, steps).h && steps == old(steps) + [step]
    {
      steps := steps + [step];
      assert steps[..|steps| - 1] == old(steps);
      pc, h := Run(start, steps).pc, Run(start, steps).h;
    }

    /** The outside world's actions before a call, and how that call will end. */
    method TakeTurn() returns (outcome: Outcome)
      requires Valid()
      modifies this`world, this`turn, this`steps, this`pc, this`h
      ensures Valid() && pc == old(pc) && h == old(h).(late := h.late) && OnlyReadSince(old(steps))
      ensures world.children == old(world.children)
    {
      var t := script(turn);
      for i := 0 to |t.before|
        invariant Valid() && pc == old(pc) && h == old(h).(late := h.late) && OnlyReadSince(old(steps))
        invariant world.children == old(world.children)
      {
        Record(Env(t.before[i]));
        world := EnvEffect(world, t.before[i]);
      }
      outcome := t.outcome;
      turn := turn + 1;
    }

    /** Fetches the object; no snapshot when it does not exist or the call fails. */
    method GetShard() returns (r: Option<Shard>)
      requires Valid() && pc == Idle
      modifies this`world, this`turn, this`steps, this`pc, this`h
      ensures Valid() && OnlyReadSince(old(steps)) && world.children == old(world.children)
      ensures pc == if r.Some? then Begin(r.value) else Idle
      ensures r.Some? ==> world.shard == r
    {
      var outcome := TakeTurn();
      r := if outcome.Done? then world.shard else None;
      if r.Some? {
        Record(Get(r.value));
      }
    }

    /** The RootShard, or nothing: a missing reference, a missing object and any other error all look alike. */
    method FetchRootShard() returns (found: bool)
      requires Valid() && (pc.Fetching? || pc.FetchingForCleanup?)
      modifies this`world, this`turn, this`steps, this`pc, this`h
      ensures Valid() && OnlyReadSince(old(steps)) && world.children == old(world.children)
      ensures old(pc).Fetching? ==> pc == if found then Working else Idle
      ensures old(pc).FetchingForCleanup? ==> pc == if found then Connecting(old(pc).snap) else RemovingFinalizer(old(pc).snap)
      ensures |steps| > |old(steps)| && steps[|steps| - 1].Call?
      ensures found <==> steps[|steps| - 1].outcome.Done? && world.rootShard
    {
      var outcome := TakeTurn();
      found := outcome.Done? && world.rootShard;
      Record(Call(outcome));
    }

    method ConnectToRootShard() returns (ok: bool)
      requires Valid() && pc.Connecting?
      modifies this`world, this`turn, this`steps, this`pc, this`h
      ensures Valid() && OnlyReadSince(old(steps)) && world.children == old(world.children)
      ensures pc == if ok then Deregistering(old(pc).snap) else Idle
    {
      var outcome := TakeTurn();
      ok := outcome.Done?;
      Record(Call(outcome));
    }

    /** Deletes the kcp Shard object; not-found is as good as success. */
    method DeleteKcpShard() returns (ok: bool)
      requires Valid() && pc.Deregistering?
      modifies this`world, this`turn, this`steps, this`pc, this`h
      ensures Valid() && OnlyReadSince(old(steps)) && world.children == old(world.children)
      ensures pc == if ok then RemovingFinalizer(old(pc).snap) else Idle
      ensures ok ==> !world.registered
    {
      var outcome := TakeTurn();
      ok := outcome.Done?;
      Record(Call(outcome));
      if !outcome.Refused? {
        world := world.(registered := false);
      }
    }

    /** A merge patch that replaces the finalizer list; the API server may reject it. */
    method PatchFinalizers(finalizers: set<string>) returns (ok: bool)
      requires Valid()
      requires (pc.AddingFinalizer? && finalizers == pc.snap.finalizers + {CLEANUP})
            || (pc.RemovingFinalizer? && finalizers == pc.snap.finalizers - {CLEANUP})
      modifies this`world, this`turn, this`steps, this`pc, this`h
      ensures Valid() && OnlyReadSince(old(steps)) && world.children == old(world.children)
      ensures pc == Idle && (old(pc).RemovingFinalizer? ==> h == old(h).(late := h.late))
      ensures ok ==> (HasFinalizer(world) <==> CLEANUP in finalizers)
    {
      var outcome := TakeTurn();
      var accepted := !outcome.Refused? && CanStore(world, finalizers);
      ok := outcome.Done? && accepted;
      Record(Call(outcome));
      if accepted {
        world := StoreFinalizers(world, finalizers);
      }
    }

    /** Creates or updates one dependent object. */
    method EnsureChild(child: string) returns (ok: bool)
      requires Valid() && pc.Working?
      modifies this`world, this`turn, this`steps, this`pc, this`h
      ensures Valid() && pc.Working? && WroteOnly(old(steps), old(world.children), {child}) && Tried(old(steps), child)
      ensures (ok ==> child in world.children) && (ok <==> EveryWriteDone(old(steps)))
    {
      var outcome := TakeTurn();
      ok := outcome.Done?;
      Record(Write(child, outcome));
      if !outcome.Refused? {
        world := world.(children := world.children + {child});
      }
    }

    lemma RunIsSafe()
      requires Valid()
      ensures Inv(Current()) && (world.shard.None? && world.registered ==> h.skipped || h.late)
    {
      RunKeepsInv(start, steps);
      NoOrphanOnAnyRun(start, steps);
    }

    /** The work on the dependent objects is over. */
    ghost method EndWork()
      requires Valid() && pc.Working?
      modifies this`steps, this`pc, this`h
      ensures Valid() && pc == Idle && HasFinalizer(world)
      ensures steps == old(steps) + [Call(Done)]
    {
      RunKeepsInv(start, steps);
      Record(Call(Done));
    }
  }

  class ShardReconciler {
    const api: ApiServer
    var s: Shard

    constructor (api: ApiServer, s: Shard)
      ensures this.api == api && this.s == s
    {
      this.api := api;
      this.s := s;
    }

    method EnsureFinalizer() returns (updated: bool, ok: bool)
      requires api.Valid() && !s.deleting && api.pc == Begin(s)
      modifies this, api
      ensures api.Valid() && api.OnlyReadSince(old(api.steps)) && api.world.children == old(api.world.children)
      ensures updated ==> ok
      ensures updated || !ok <==> CLEANUP !in old(s).finalizers
      ensures updated ==> HasFinalizer(api.world)
      ensures api.pc == if CLEANUP in old(s).finalizers then Fetching else Idle
    {
      if CLEANUP in s.finalizers {
        return false, true;
      }
      s := s.(finalizers := s.finalizers + {CLEANUP});
      ok := api.PatchFinalizers(s.finalizers);
      updated := ok;
    }

    method RemoveFinalizer() returns (ok: bool)
      requires api.Valid() && CLEANUP in s.finalizers && api.pc == RemovingFinalizer(s)
      modifies this, api
      ensures api.Valid() && api.OnlyReadSince(old(api.steps)) && api.world.children == old(api.world.children)
      ensures api.pc == Idle && api.h == old(api.h).(late := api.h.late) && (ok ==> !HasFinalizer(api.world))
    {
      s := s.(finalizers := s.finalizers - {CLEANUP});
      ok := api.PatchFinalizers(s.finalizers);
    }

    method HandleDeletion() returns (ok: bool)
      requires api.Valid() && s.deleting && api.pc == Begin(s)
      modifies this, api
      ensures api.Valid() && api.OnlyReadSince(old(api.steps)) && api.world.children == old(api.world.children)
      ensures api.pc == Idle
      ensures CLEANUP !in old(s).finalizers ==> ok && api.Current() == old(api.Current())
      ensures CLEANUP in old(s).finalizers && ok ==> !HasFinalizer(api.world) && (api.h.cleaned || api.h.skipped)
    {
      if CLEANUP !in s.finalizers {
        return true;
      }
      var found := api.FetchRootShard();
      if !found {
        RunKeepsInv(api.start, api.steps);
        ok := RemoveFinalizer();
        return;
      }
      ok := api.ConnectToRootShard();
      if !ok {
        return;
      }
      ok := api.DeleteKcpShard();
      if !ok {
        return;
      }
      RunKeepsInv(api.start, api.steps);
      ok := RemoveFinalizer();
    }

    /** Ensures a list of objects, stopping at the first error. */
    method EnsureAll(children: seq<string>) returns (ok: bool)
      requires api.Valid() && api.pc.Working?
      modifies api
      ensures api.Valid() && api.pc.Working?
      ensures api.WroteOnly(old(api.steps), old(api.world.children), Elements(children))
      ensures children != [] ==> api.Tried(old(api.steps), children[0])
      ensures ok ==> forall child | child in children :: child in api.world.children
      ensures ok <==> api.EveryWriteDone(old(api.steps))
    {
      for i := 0 to |children|
        invariant api.Valid() && api.pc.Working?
        invariant api.WroteOnly(old(api.steps), old(api.world.children), Elements(children))
        invariant i > 0 ==> api.Tried(old(api.steps), children[0])
        invariant forall j | 0 <= j < i :: children[j] in api.world.children
        invariant api.EveryWriteDone(old(api.steps))
      {
        ghost var before := api.steps;
        ok := api.EnsureChild(children[i]);
        assert ok || !api.EveryWriteDone(old(api.steps)) by {
          if !ok {
            var j :| |before| <= j < |api.steps| && api.steps[j].Write? && !api.steps[j].outcome.Done?;
          }
        }
        if !ok {
          return;
        }
      }
      ok := true;
    }

    /** Every group is tried, whatever became of the ones before. */
    method EnsureGroups(groups: seq<seq<string>>) returns (errs: nat)
      requires api.Valid() && api.pc.Working?
      modifies api
      ensures api.Valid() && api.pc.Working?
      ensures api.WroteOnly(old(api.steps), old(api.world.children), Listed(groups))
      ensures errs == 0 ==> Listed(groups) <= api.world.children
      ensures forall g | g in groups && g != [] :: api.Tried(old(api.steps), g[0])
      ensures errs == 0 ==> forall g, child | g in groups && child in g :: child in api.world.children
      ensures errs == 0 <==> api.EveryWriteDone(old(api.steps))
    {
      errs := 0;
      for i := 0 to |groups|
        invariant api.Valid() && api.pc.Working?
        invariant api.WroteOnly(old(api.steps), old(api.world.children), Listed(groups))
        invariant forall j | 0 <= j < i && groups[j] != [] :: api.Tried(old(api.steps), groups[j][0])
        invariant errs == 0 ==> forall j, child | 0 <= j < i && child in groups[j] :: child in api.world.children
        invariant errs == 0 <==> api.EveryWriteDone(old(api.steps))
      {
        ghost var before := api.steps;
        var ok := EnsureAll(groups[i]);
        assert ok || !api.EveryWriteDone(old(api.steps)) by {
          if !ok {
            var j :| |before| <= j < |api.steps| && api.steps[j].Write? && !api.steps[j].outcome.Done?;
          }
        }
        if !ok {
          errs := errs + 1;
        }
      }
    }

    /**
     One reconcile against any behaviour of the API server and the outside world. `groups` are the certificates and the
     groups of Secrets, `gate` tells whether the CompiledShard may be published.
     */
    method Reconcile(groups: seq<seq<string>>, compiled: string, gate: bool) returns (snapshot: Option<Shard>, worked: bool, ok: bool)
      requires api.Valid() && api.pc == Idle
      modifies this, api
      ensures api.Valid() && api.pc == Idle && old(api.steps) <= api.steps
      ensures Inv(api.Current())
      ensures !worked ==> api.OnlyReadSince(old(api.steps)) && api.world.children == old(api.world.children)
      ensures worked ==> snapshot.Some? && !snapshot.value.deleting && CLEANUP in snapshot.value.finalizers && HasFinalizer(api.world)
      // A live Shard with the finalizer is worked on unless its RootShard was not to be had; one without it gets it.
      ensures snapshot.Some? && !snapshot.value.deleting && CLEANUP in snapshot.value.finalizers && !worked ==>
        ok && |api.steps| > |old(api.steps)| && var last := api.steps[|api.steps| - 1];
        last.Call? && !(last.outcome.Done? && api.world.rootShard)
      ensures snapshot.Some? && !snapshot.value.deleting && CLEANUP !in snapshot.value.finalizers && ok ==> HasFinalizer(api.world)
      // What is written: the groups, and the CompiledShard only behind an open gate.
      ensures forall i | |old(api.steps)| <= i < |api.steps| && api.steps[i].Write? ::
        (exists g | g in groups :: api.steps[i].child in g) || (gate && api.steps[i].child == compiled)
      ensures forall child | child in api.world.children - old(api.world.children) ::
        (exists g | g in groups :: child in g) || (gate && child == compiled)
      ensures !gate && compiled !in old(api.world.children) && (forall g | g in groups :: compiled !in g) ==>
        compiled !in api.world.children
      ensures worked ==> forall g | g in groups && g != [] :: api.Tried(old(api.steps), g[0])
      ensures worked && gate ==> api.Tried(old(api.steps), compiled)
      ensures worked ==> (ok <==> api.EveryWriteDone(old(api.steps)))
      ensures worked && ok ==> forall g, child | g in groups && child in g :: child in api.world.children
      ensures worked && ok && gate ==> compiled in api.world.children
      ensures snapshot.Some? && snapshot.value.deleting && CLEANUP in snapshot.value.finalizers && ok ==>
        !HasFinalizer(api.world) && (api.h.cleaned || api.h.skipped)
      ensures api.world.shard.None? && api.world.registered ==> api.h.skipped || api.h.late
    {
      snapshot := api.GetShard();
      worked, ok := false, true;
      if snapshot.Some? {
        s := snapshot.value;
        if s.deleting {
          ok := HandleDeletion();
        } else {
          worked, ok := ReconcileLive(groups, compiled, gate);
        }
      }
      api.RunIsSafe();
    }

    method ReconcileLive(groups: seq<seq<string>>, compiled: string, gate: bool) returns (worked: bool, ok: bool)
      requires api.Valid() && !s.deleting && api.pc == Begin(s)
      modifies this, api
      ensures api.Valid() && api.pc == Idle && old(api.steps) <= api.steps
      ensures !worked ==> api.OnlyReadSince(old(api.steps)) && api.world.children == old(api.world.children)
      ensures CLEANUP in old(s).finalizers && !worked ==>
        ok && |api.steps| > |old(api.steps)| && var last := api.steps[|api.steps| - 1];
        last.Call? && !(last.outcome.Done? && api.world.rootShard)
      ensures CLEANUP !in old(s).finalizers ==> !worked && (ok ==> HasFinalizer(api.world))
      ensures worked ==> HasFinalizer(api.world) && api.DidWork(old(api.steps), old(api.world.children), groups, compiled, gate, ok)
    {
      var updated;
      worked := false;
      updated, ok := EnsureFinalizer();
      if ok && !updated {
        worked, ok := WorkOnRootShard(groups, compiled, gate);
      }
    }

    /** Looks up the RootShard; without it there is nothing to do, and that is no error. */
    method WorkOnRootShard(groups: seq<seq<string>>, compiled: string, gate: bool) returns (worked: bool, ok: bool)
      requires api.Valid() && api.pc.Fetching?
      modifies api
      ensures api.Valid() && api.pc == Idle && old(api.steps) <= api.steps
      ensures !worked ==> api.OnlyReadSince(old(api.steps)) && api.world.children == old(api.world.children)
      ensures !worked ==> ok && |api.steps| > |old(api.steps)| && var last := api.steps[|api.steps| - 1];
        last.Call? && !(last.outcome.Done? && api.world.rootShard)
      ensures worked ==> HasFinalizer(api.world) && api.DidWork(old(api.steps), old(api.world.children), groups, compiled, gate, ok)
    {
      ok := true;
      worked := api.FetchRootShard();
      if worked {
        ok := Work(groups, compiled, gate);
      }
    }

    method Work(groups: seq<seq<string>>, compiled: string, gate: bool) returns (ok: bool)
      requires api.Valid() && api.pc.Working?
      modifies api
      ensures api.Valid() && api.pc == Idle
      ensures HasFinalizer(api.world) && api.DidWork(old(api.steps), old(api.world.children), groups, compiled, gate, ok)
    {
      var errs := EnsureGroups(groups);
      var published := Publish(compiled, gate);
      ok := errs == 0 && published;
    }

    /** The last write of the work: the CompiledShard, and only behind an open gate. */
    method Publish(compiled: string, gate: bool) returns (ok: bool)
      requires api.Valid() && api.pc.Working?
      modifies api
      ensures api.Valid() && api.pc == Idle && HasFinalizer(api.world)
      ensures api.WroteOnly(old(api.steps), old(api.world.children), if gate then {compiled} else {})
      ensures gate ==> api.Tried(old(api.steps), compiled)
      ensures ok <==> api.EveryWriteDone(old(api.steps))
      ensures ok && gate ==> compiled in api.world.children
    {
      ok := true;
      if gate {
        ok := api.EnsureChild(compiled);
      }
      api.EndWork();
    }
  }

  /** All objects of all groups. */
  function Listed(groups: seq<seq<string>>): set<string> {
    set g, child | g in groups && child in g :: child
  }
}
