/**
 Resource requirements of rendered containers. The defaults live in package-level maps, every container
 is built with references to them, and applying an override copies into the referenced maps. Overrides
 therefore add up over all renders of the process, and every container of a pod shows the sum.
 */
module ResourceOverrides {
  import opened Wrappers

  type ResourceList = map<string, string>

  datatype Override = Override(limits: ResourceList, requests: ResourceList)

  /** A Go map of resource quantities. */
  class ResourceMap {
    var entries: ResourceList

    constructor (entries: ResourceList)
      ensures this.entries == entries
    {
      this.entries := entries;
    }
  }

  datatype Requirements = Requirements(limits: ResourceMap?, requests: ResourceMap?)
  datatype Container = Container(name: string, resources: Requirements)

  // ----- What a history of overrides leaves in a map -----

  function Overlay(base: ResourceList, history: seq<ResourceList>): ResourceList {
    if history == [] then base
    else Overlay(base, history[..|history| - 1]) + history[|history| - 1]
  }

  lemma OverlaySnoc(base: ResourceList, history: seq<ResourceList>, last: ResourceList)
    ensures Overlay(base, history + [last]) == Overlay(base, history) + last
  {
  }

  /** Override j is the last of the history that writes key k. */
  ghost predicate LastWriter(history: seq<ResourceList>, k: string, j: int) {
    0 <= j < |history| && k in history[j] && forall i | j < i < |history| :: k !in history[i]
  }

  ghost predicate Unwritten(history: seq<ResourceList>, k: string) {
    forall i | 0 <= i < |history| :: k !in history[i]
  }

  lemma {:induction false} UnwrittenKeepsBase(base: ResourceList, history: seq<ResourceList>, k: string)
    requires Unwritten(history, k)
    ensures k in Overlay(base, history) <==> k in base
    ensures k in base ==> Overlay(base, history)[k] == base[k]
    decreases |history|
  {
    if history != [] {
      var front := history[..|history| - 1];
      assert forall i | 0 <= i < |front| :: front[i] == history[i];
      UnwrittenKeepsBase(base, front, k);
      assert k !in history[|history| - 1];
    }
  }

  lemma {:induction false} LastWriterWins(base: ResourceList, history: seq<ResourceList>, k: string, j: int)
    requires LastWriter(history, k, j)
    ensures k in Overlay(base, history) && Overlay(base, history)[k] == history[j][k]
    decreases |history|
  {
    var n := |history| - 1;
    if j < n {
      assert history[..n][j] == history[j];
      LastWriterWins(base, history[..n], k, j);
      assert k !in history[n];
    }
  }

  lemma {:induction false} SomeLastWriter(history: seq<ResourceList>, k: string)
    ensures Unwritten(history, k) || exists j :: LastWriter(history, k, j)
    decreases |history|
  {
    if history != [] {
      var front, n := history[..|history| - 1], |history| - 1;
      SomeLastWriter(front, k);
      if k in history[n] {
        assert LastWriter(history, k, n);
      } else if !Unwritten(front, k) {
        var j :| LastWriter(front, k, j);
        assert LastWriter(history, k, j);
      }
    }
  }

  /** What the override of one container is meant to achieve. */
  function Intended(base: ResourceList, own: ResourceList): ResourceList {
    base + own
  }

  /** No other override that had the last word on a key left a value the container was not meant to have. */
  ghost predicate Undisturbed(base: ResourceList, history: seq<ResourceList>, own: nat)
    requires own < |history|
  {
    forall k, j | LastWriter(history, k, j) && j != own ::
      k in Intended(base, history[own]) && Intended(base, history[own])[k] == history[j][k]
  }

  /**
   The container of override `own` gets its defaults plus its own override if and only if no other override of
   the history left a different value behind.
   */
  lemma IntendedIffUndisturbed(base: ResourceList, history: seq<ResourceList>, own: nat)
    requires own < |history|
    ensures Overlay(base, history) == Intended(base, history[own]) <==> Undisturbed(base, history, own)
  {
    var actual, intended := Overlay(base, history), Intended(base, history[own]);
    if Undisturbed(base, history, own) {
      forall k
        ensures k in actual <==> k in intended
        ensures k in actual ==> actual[k] == intended[k]
      {
        SomeLastWriter(history, k);
        if Unwritten(history, k) {
          UnwrittenKeepsBase(base, history, k);
        } else {
          var j :| LastWriter(history, k, j);
          LastWriterWins(base, history, k, j);
        }
      }
      assert actual == intended;
    }
    if actual == intended {
      forall k, j | LastWriter(history, k, j) && j != own
        ensures k in intended && intended[k] == history[j][k]
      {
        LastWriterWins(base, history, k, j);
      }
    }
  }

  /** An init container that overrides a key differently decides that key for the server container, too. */
  lemma LaterOverrideWins(base: ResourceList, history: seq<ResourceList>, own: nat, later: nat, k: string)
    requires own < later < |history| && LastWriter(history, k, later)
    requires k !in Intended(base, history[own]) || Intended(base, history[own])[k] != history[later][k]
    ensures Overlay(base, history) != Intended(base, history[own])
    ensures k in Overlay(base, history) && Overlay(base, history)[k] == history[later][k]
  {
  }

  // ----- The renderer -----

  function LimitsOf(o: Option<Override>): ResourceList {
    if o.Some? then o.value.limits else map[]
  }

  function RequestsOf(o: Option<Override>): ResourceList {
    if o.Some? then o.value.requests else map[]
  }

  function AllLimits(os: seq<Option<Override>>): (r: seq<ResourceList>)
    ensures |r| == |os|
  {
    seq(|os|, i requires 0 <= i < |os| => LimitsOf(os[i]))
  }

  function AllRequests(os: seq<Option<Override>>): (r: seq<ResourceList>)
    ensures |r| == |os|
  {
    seq(|os|, i requires 0 <= i < |os| => RequestsOf(os[i]))
  }

  /** Copies the override into the maps the container refers to; only missing maps are created. */
  method ApplyResources(container: Container, o: Option<Override>) returns (r: Container)
    requires container.resources.limits != null ==> container.resources.limits != container.resources.requests
    modifies container.resources.limits, container.resources.requests
    ensures r.name == container.name
    ensures o.None? ==> r == container
    ensures container.resources.limits != null ==>
      && r.resources.limits == container.resources.limits
      && r.resources.limits.entries == old(container.resources.limits.entries) + if o.Some? then o.value.limits else map[]
    ensures container.resources.requests != null ==>
      && r.resources.requests == container.resources.requests
      && r.resources.requests.entries == old(container.resources.requests.entries) + if o.Some? then o.value.requests else map[]
    ensures o.Some? && container.resources.limits == null ==>
      r.resources.limits != null && fresh(r.resources.limits) && r.resources.limits.entries == o.value.limits
    ensures o.Some? && container.resources.requests == null ==>
      r.resources.requests != null && fresh(r.resources.requests) && r.resources.requests.entries == o.value.requests
  {
    r := container;
    if o.None? {
      return;
    }
    if r.resources.limits == null {
      var limits := new ResourceMap(map[]);
      r := r.(resources := r.resources.(limits := limits));
    }
    if r.resources.requests == null {
      var requests := new ResourceMap(map[]);
      r := r.(resources := r.resources.(requests := requests));
    }
    r.resources.limits.entries := r.resources.limits.entries + o.value.limits;
    r.resources.requests.entries := r.resources.requests.entries + o.value.requests;
  }

  /** A rendering package with its defaultResourceRequirements, and the overrides it has applied so far. */
  class Package {
    const limits: ResourceMap
    const requests: ResourceMap
    ghost const baseLimits: ResourceList
    ghost const baseRequests: ResourceList
    ghost var history: seq<Option<Override>>

    constructor (defaultLimits: ResourceList, defaultRequests: ResourceList)
      ensures Valid() && history == [] && baseLimits == defaultLimits && baseRequests == defaultRequests
      ensures fresh(limits) && fresh(requests)
    {
      limits := new ResourceMap(defaultLimits);
      requests := new ResourceMap(defaultRequests);
      baseLimits, baseRequests := defaultLimits, defaultRequests;
      history := [];
    }

    ghost predicate Valid()
      reads this, limits, requests
    {
      && limits != requests
      && limits.entries == Overlay(baseLimits, AllLimits(history))
      && requests.entries == Overlay(baseRequests, AllRequests(history))
    }

    ghost predicate Shared(c: Container)
      reads this
    {
      c.resources == Requirements(limits, requests)
    }

    /** Builds one container on the package defaults and applies its override. */
    method RenderContainer(name: string, o: Option<Override>) returns (c: Container)
      requires Valid()
      modifies this`history, limits, requests
      ensures Valid() && history == old(history) + [o] && Shared(c) && c.name == name
    {
      c := Container(name, Requirements(limits, requests));
      c := ApplyResources(c, o);
      history := history + [o];
      assert AllLimits(history) == AllLimits(old(history)) + [LimitsOf(o)];
      assert AllRequests(history) == AllRequests(old(history)) + [RequestsOf(o)];
      OverlaySnoc(baseLimits, AllLimits(old(history)), LimitsOf(o));
      OverlaySnoc(baseRequests, AllRequests(old(history)), RequestsOf(o));
    }

    /**
     The containers of a virtual-workspace pod: the server container first, then the init containers. When the
     pod is written out, every one of them shows the defaults overlaid by the package's whole history.
     */
    method RenderPod(server: Option<Override>, inits: seq<(string, Option<Override>)>) returns (containers: seq<Container>)
      requires Valid()
      modifies this`history, limits, requests
      ensures Valid()
      ensures history == old(history) + [server] + seq(|inits|, i requires 0 <= i < |inits| => inits[i].1)
      ensures |containers| == 1 + |inits| && forall i | 0 <= i < |containers| :: Shared(containers[i])
    {
      var c := RenderContainer("kcp", server);
      containers := [c];
      for i := 0 to |inits|
        invariant Valid() && |containers| == 1 + i && forall j | 0 <= j < |containers| :: Shared(containers[j])
        invariant history == old(history) + [server] + seq(i, j requires 0 <= j < i => inits[j].1)
      {
        c := RenderContainer(inits[i].0, inits[i].1);
        containers := containers + [c];
        assert seq(i + 1, j requires 0 <= j < i + 1 => inits[j].1) == seq(i, j requires 0 <= j < i => inits[j].1) + [inits[i].1];
      }
    }

    /**
     Whether a container rendered at position `own` of the history has the limits it was meant to have: exactly if
     whoever else was the last to set a limit set what this container was meant to have.
     */
    lemma LimitsAsIntended(c: Container, own: nat)
      requires Valid() && Shared(c) && own < |history|
      ensures var intended := baseLimits + if history[own].Some? then history[own].value.limits else map[];
        c.resources.limits.entries == intended <==>
          forall k, j | LastLimit(history, k, j) && j != own :: k in intended && intended[k] == history[j].value.limits[k]
    {
      IntendedIffUndisturbed(baseLimits, AllLimits(history), own);
      forall k, j
        ensures LastLimit(history, k, j) <==> LastWriter(AllLimits(history), k, j)
        ensures LastLimit(history, k, j) ==> AllLimits(history)[j] == history[j].value.limits
      {
        LastLimitWrites(history, k, j);
      }
    }

    /** The same for its requests, which live in a map of their own. */
    lemma RequestsAsIntended(c: Container, own: nat)
      requires Valid() && Shared(c) && own < |history|
      ensures var intended := baseRequests + if history[own].Some? then history[own].value.requests else map[];
        c.resources.requests.entries == intended <==>
          forall k, j | LastRequest(history, k, j) && j != own :: k in intended && intended[k] == history[j].value.requests[k]
    {
      IntendedIffUndisturbed(baseRequests, AllRequests(history), own);
      forall k, j
        ensures LastRequest(history, k, j) <==> LastWriter(AllRequests(history), k, j)
        ensures LastRequest(history, k, j) ==> AllRequests(history)[j] == history[j].value.requests
      {
        LastRequestWrites(history, k, j);
      }
    }
  }

  /** Override j is the last of the history to limit k. */
  ghost predicate LastLimit(history: seq<Option<Override>>, k: string, j: int) {
    && 0 <= j < |history| && history[j].Some? && k in history[j].value.limits
    && forall i | j < i < |history| && history[i].Some? :: k !in history[i].value.limits
  }

  ghost predicate LastRequest(history: seq<Option<Override>>, k: string, j: int) {
    && 0 <= j < |history| && history[j].Some? && k in history[j].value.requests
    && forall i | j < i < |history| && history[i].Some? :: k !in history[i].value.requests
  }

  lemma LastLimitWrites(history: seq<Option<Override>>, k: string, j: int)
    ensures LastLimit(history, k, j) <==> LastWriter(AllLimits(history), k, j)
    ensures LastLimit(history, k, j) ==> AllLimits(history)[j] == history[j].value.limits
  {
    forall i | 0 <= i < |history|
      ensures k in AllLimits(history)[i] <==> history[i].Some? && k in history[i].value.limits
    {
    }
  }

  lemma LastRequestWrites(history: seq<Option<Override>>, k: string, j: int)
    ensures LastRequest(history, k, j) <==> LastWriter(AllRequests(history), k, j)
    ensures LastRequest(history, k, j) ==> AllRequests(history)[j] == history[j].value.requests
  {
    forall i | 0 <= i < |history|
      ensures k in AllRequests(history)[i] <==> history[i].Some? && k in history[i].value.requests
    {
    }
  }
}
