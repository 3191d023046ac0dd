/** What undisturbed reconciles achieve, and where deletion gets stuck. */
module RbacConvergence {
  import opened Wrappers
  import opened ApiCalls
  import opened Ordering
  import opened RbacModel
  import opened RbacSafety

  function Rank(pc: Pc): nat {
    match pc
    case Idle => 0
    case Listing(_, _, _) => 4
    case Deleting(_, _, _, _) => 3
    case ClearingStatus(_) => 2
    case Ensuring(_, _, _) => 2
    case _ => 1
  }

  function Pending(pc: Pc): nat {
    if pc.Deleting? || pc.Ensuring? then |pc.todo| else 0
  }

  /** The rest of a reconcile when every call succeeds and nothing interferes. */
  ghost function Drain(s: State): State
    decreases Rank(s.pc), Pending(s.pc)
  {
    if s.pc.Idle? then s else Drain(Next(s, Call(Done)))
  }

  /** One undisturbed reconcile of the current object. */
  ghost function Reconciled(w: World): World {
    if w.obj.None? then w else Drain(State(w, Begin(w.obj.value))).w
  }

  ghost function Without(b: map<Key, Binding>, ws: Workspace, names: seq<string>): map<Key, Binding> {
    map k | k in b && !(k.ws == ws && k.name in names) :: b[k]
  }

  lemma {:induction false} DrainDeletes(w: World, kc: Kubeconfig, ws: Workspace, todo: seq<string>, unprovision: bool)
    requires Distinct(todo) && forall n | n in todo :: Key(ws, n) in w.bindings
    ensures Drain(State(w, NextDelete(kc, ws, todo, unprovision)))
         == Drain(State(w.(bindings := Without(w.bindings, ws, todo)), NextDelete(kc, ws, [], unprovision)))
    decreases |todo|
  {
    if todo == [] {
      assert Without(w.bindings, ws, todo) == w.bindings;
    } else {
      var w1 := w.(bindings := w.bindings - {Key(ws, todo[0])});
      var s := State(w, Deleting(kc, ws, todo, unprovision));
      assert Next(s, Call(Done)) == State(w1, NextDelete(kc, ws, todo[1..], unprovision));
      DrainDeletes(w1, kc, ws, todo[1..], unprovision);
      assert Without(w1.bindings, ws, todo[1..]) == Without(w.bindings, ws, todo);
    }
  }

  ghost function With(b: map<Key, Binding>, kc: Kubeconfig, ws: Workspace, roles: seq<string>): map<Key, Binding>
    decreases |roles|
  {
    if roles == [] then b
    else With(b[Key(ws, BindingName(kc.uid, roles[0])) := BindingFor(kc, roles[0])], kc, ws, roles[1..])
  }

  lemma {:induction false} DrainEnsures(w: World, kc: Kubeconfig, ws: Workspace, todo: seq<string>)
    ensures Drain(State(w, NextEnsure(kc, ws, todo))) == State(w.(bindings := With(w.bindings, kc, ws, todo)), Idle)
    decreases |todo|
  {
    if todo != [] {
      var w1 := w.(bindings := w.bindings[Key(ws, BindingName(kc.uid, todo[0])) := BindingFor(kc, todo[0])]);
      assert Next(State(w, Ensuring(kc, ws, todo)), Call(Done)) == State(w1, NextEnsure(kc, ws, todo[1..]));
      DrainEnsures(w1, kc, ws, todo[1..]);
    }
  }

  ghost predicate DesiredKey(kc: Kubeconfig, ws: Workspace, roles: seq<string>, k: Key) {
    k.ws == ws && exists r | r in roles :: k.name == BindingName(kc.uid, r)
  }

  lemma BindingNameRole(uid: Uid, r1: string, r2: string)
    requires BindingName(uid, r1) == BindingName(uid, r2)
    ensures r1 == r2
  {
    assert r1 == BindingName(uid, r1)[|uid| + 1..];
    assert r2 == BindingName(uid, r2)[|uid| + 1..];
  }

  lemma {:induction false} WithContents(b: map<Key, Binding>, kc: Kubeconfig, ws: Workspace, roles: seq<string>, k: Key)
    ensures var r := With(b, kc, ws, roles);
      && (k in r <==> k in b || DesiredKey(kc, ws, roles, k))
      && (DesiredKey(kc, ws, roles, k) ==> r[k] == BindingFor(kc, r[k].role) && k.name == BindingName(kc.uid, r[k].role) && r[k].role in roles)
      && (k in b && !DesiredKey(kc, ws, roles, k) ==> r[k] == b[k])
    decreases |roles|
  {
    if roles != [] {
      var k0 := Key(ws, BindingName(kc.uid, roles[0]));
      WithContents(b[k0 := BindingFor(kc, roles[0])], kc, ws, roles[1..], k);
      assert forall r :: r in roles <==> r == roles[0] || r in roles[1..];
    }
  }

  lemma {:induction false} WithAbsorbs(b: map<Key, Binding>, kc: Kubeconfig, ws: Workspace, roles: seq<string>)
    requires forall r | r in roles :: var k := Key(ws, BindingName(kc.uid, r)); k in b && b[k] == BindingFor(kc, r)
    ensures With(b, kc, ws, roles) == b
    decreases |roles|
  {
    if roles != [] {
      var k := Key(ws, BindingName(kc.uid, roles[0]));
      assert roles[0] in roles && b[k := BindingFor(kc, roles[0])] == b;
      WithAbsorbs(b, kc, ws, roles[1..]);
    }
  }

  /** Exactly the configured roles are bound, and only in the configured workspace. */
  ghost predicate ExactlyConfigured(w: World, kc: Kubeconfig) {
    && (forall k | k in w.bindings && w.bindings[k].owner == Some(kc.uid) ::
          && k.ws == DesiredWorkspace(kc.spec) && w.bindings[k] == BindingFor(kc, w.bindings[k].role)
          && w.bindings[k].role in DesiredRoles(kc.spec) && k.name == BindingName(kc.uid, w.bindings[k].role))
    && (forall r | r in DesiredRoles(kc.spec) ::
          var k := Key(DesiredWorkspace(kc.spec), BindingName(kc.uid, r)); k in w.bindings && w.bindings[k] == BindingFor(kc, r))
  }

  ghost predicate Recorded(kc: Kubeconfig) {
    CLEANUP in kc.finalizers && kc.provisioned == Some(DesiredWorkspace(kc.spec)) && DesiredWorkspace(kc.spec) != ""
  }

  /** Nothing left to do for this object. */
  ghost predicate AtRest(w: World, kc: Kubeconfig) {
    && ExactlyConfigured(w, kc)
    && (kc.spec.authorization.Some? ==> Recorded(kc))
    && (kc.spec.authorization.None? ==> CLEANUP !in kc.finalizers)
  }

  /** A List names existing bindings, so an undisturbed delete loop removes exactly those. */
  lemma DrainListing(w: World, kc: Kubeconfig, ws: Workspace, unprovision: bool)
    ensures var names := if unprovision then OwnedNames(w, kc.uid, ws) else OverhangingNames(w, kc, ws);
      Drain(State(w, Listing(kc, ws, unprovision)))
      == Drain(State(w.(bindings := Without(w.bindings, ws, SortedList(names))), NextDelete(kc, ws, [], unprovision)))
  {
    var names := if unprovision then OwnedNames(w, kc.uid, ws) else OverhangingNames(w, kc, ws);
    var todo := SortedList(names);
    forall n | n in todo
      ensures Key(ws, n) in w.bindings
    {
      assert n in Elements(todo);
    }
    assert Next(State(w, Listing(kc, ws, unprovision)), Call(Done)) == State(w, NextDelete(kc, ws, todo, unprovision));
    DrainDeletes(w, kc, ws, todo, unprovision);
  }

  ghost function Emptied(w: World, kc: Kubeconfig, ws: Workspace): map<Key, Binding> {
    Without(w.bindings, ws, SortedList(OwnedNames(w, kc.uid, ws)))
  }

  lemma EmptiedOwnsNothing(w: World, kc: Kubeconfig, ws: Workspace)
    requires WorldInv(w) && w.obj == Some(kc) && kc.provisioned == Some(ws)
    ensures forall k | k in Emptied(w, kc, ws) :: w.bindings[k].owner != Some(kc.uid)
  {
    forall k | k in w.bindings && w.bindings[k].owner == Some(kc.uid)
      ensures k !in Emptied(w, kc, ws)
    {
      OwnedNamesMember(w, kc.uid, k);
      assert k.name in Elements(SortedList(OwnedNames(w, kc.uid, ws)));
    }
  }

  /** Unprovisioning removes every owned binding and clears the record; the finalizer is left to what follows. */
  lemma DrainUnprovision(w: World, kc: Kubeconfig, ws: Workspace)
    requires w.obj == Some(kc)
    ensures var kc' := kc.(provisioned := Some(""));
      Drain(State(w, Listing(kc, ws, true)))
      == Drain(State(World(Some(kc'), Emptied(w, kc, ws), w.retired), if kc.deleting then StartRemoval(kc') else Idle))
  {
    DrainListing(w, kc, ws, true);
    var kc' := kc.(provisioned := Some(""));
    var s := State(w.(bindings := Emptied(w, kc, ws)), ClearingStatus(kc));
    var s' := State(World(Some(kc'), Emptied(w, kc, ws), w.retired), if kc.deleting then StartRemoval(kc') else Idle);
    assert Apply(s) == s'.w;
    assert Next(s, Call(Done)) == s';
  }

  ghost function Trimmed(w: World, kc: Kubeconfig): map<Key, Binding> {
    var ws := DesiredWorkspace(kc.spec);
    Without(w.bindings, ws, SortedList(OverhangingNames(w, kc, ws)))
  }

  ghost function Rebound(w: World, kc: Kubeconfig): map<Key, Binding> {
    With(Trimmed(w, kc), kc, DesiredWorkspace(kc.spec), SortedList(DesiredRoles(kc.spec)))
  }

  lemma DrainConverge(w: World, kc: Kubeconfig)
    requires w.obj == Some(kc) && !kc.deleting && Recorded(kc)
    ensures Reconciled(w) == w.(bindings := Rebound(w, kc))
  {
    var ws := DesiredWorkspace(kc.spec);
    assert Begin(kc) == Listing(kc, ws, false);
    DrainListing(w, kc, ws, false);
    DrainEnsures(w.(bindings := Trimmed(w, kc)), kc, ws, SortedList(DesiredRoles(kc.spec)));
  }

  lemma TrimmedIsDesired(w: World, kc: Kubeconfig, k: Key)
    requires WorldInv(w) && w.obj == Some(kc) && Recorded(kc)
    requires k in Trimmed(w, kc) && w.bindings[k].owner == Some(kc.uid)
    ensures DesiredKey(kc, DesiredWorkspace(kc.spec), SortedList(DesiredRoles(kc.spec)), k)
  {
    var ws, r := DesiredWorkspace(kc.spec), w.bindings[k].role;
    assert k.ws == ws && k.name == BindingName(kc.uid, r);
    assert k.name !in Elements(SortedList(OverhangingNames(w, kc, ws)));
    assert r in Elements(SortedList(DesiredRoles(kc.spec)));
  }

  lemma ReboundIsOwnedExactly(w: World, kc: Kubeconfig, k: Key)
    requires WorldInv(w) && w.obj == Some(kc) && Recorded(kc)
    requires k in Rebound(w, kc) && Rebound(w, kc)[k].owner == Some(kc.uid)
    ensures var b := Rebound(w, kc)[k];
      && k.ws == DesiredWorkspace(kc.spec) && b == BindingFor(kc, b.role)
      && b.role in DesiredRoles(kc.spec) && k.name == BindingName(kc.uid, b.role)
  {
    var ws, roles := DesiredWorkspace(kc.spec), SortedList(DesiredRoles(kc.spec));
    WithContents(Trimmed(w, kc), kc, ws, roles, k);
    if k in Trimmed(w, kc) && w.bindings[k].owner == Some(kc.uid) {
      TrimmedIsDesired(w, kc, k);
    }
    assert Rebound(w, kc)[k].role in Elements(roles);
  }

  lemma ReboundHasEveryRole(w: World, kc: Kubeconfig, r: string)
    requires r in DesiredRoles(kc.spec)
    ensures var k := Key(DesiredWorkspace(kc.spec), BindingName(kc.uid, r));
      k in Rebound(w, kc) && Rebound(w, kc)[k] == BindingFor(kc, r)
  {
    var ws, roles := DesiredWorkspace(kc.spec), SortedList(DesiredRoles(kc.spec));
    var k := Key(ws, BindingName(kc.uid, r));
    assert r in Elements(roles);
    WithContents(Trimmed(w, kc), kc, ws, roles, k);
    BindingNameRole(kc.uid, Rebound(w, kc)[k].role, r);
  }

  lemma ExactStaysPut(w: World, kc: Kubeconfig)
    requires ExactlyConfigured(w, kc)
    ensures Rebound(w, kc) == w.bindings
  {
    assert OverhangingNames(w, kc, DesiredWorkspace(kc.spec)) == {};
    assert Trimmed(w, kc) == w.bindings;
    var roles := SortedList(DesiredRoles(kc.spec));
    forall r | r in roles
      ensures r in DesiredRoles(kc.spec)
    {
      assert r in Elements(roles);
    }
    WithAbsorbs(w.bindings, kc, DesiredWorkspace(kc.spec), roles);
  }

  /** With finalizer and record in place, one reconcile makes the bindings exact; if they were, it changes nothing. */
  lemma BindingsBecomeExact(w: World, kc: Kubeconfig)
    requires WorldInv(w) && w.obj == Some(kc) && !kc.deleting && Recorded(kc)
    ensures Reconciled(w).obj == w.obj && ExactlyConfigured(Reconciled(w), kc)
    ensures ExactlyConfigured(w, kc) ==> Reconciled(w) == w
  {
    DrainConverge(w, kc);
    forall k | k in Rebound(w, kc) && Rebound(w, kc)[k].owner == Some(kc.uid) {
      ReboundIsOwnedExactly(w, kc, k);
    }
    forall r | r in DesiredRoles(kc.spec) {
      ReboundHasEveryRole(w, kc, r);
    }
    if ExactlyConfigured(w, kc) {
      ExactStaysPut(w, kc);
    }
  }

  /** Two worlds that differ only in one binding of the first, which the second lacks or has handed to somebody else. */
  ghost predicate LostOne(w: World, damaged: World, kc: Kubeconfig, k: Key) {
    && damaged.obj == w.obj && damaged.retired == w.retired
    && k in w.bindings && w.bindings[k].owner == Some(kc.uid)
    && (k in damaged.bindings ==> damaged.bindings[k].owner != Some(kc.uid))
    && (forall x | x != k :: (x in w.bindings <==> x in damaged.bindings) && (x in w.bindings ==> damaged.bindings[x] == w.bindings[x]))
  }

  lemma HealedAt(w: World, damaged: World, kc: Kubeconfig, k: Key, roles: seq<string>, x: Key)
    requires ExactlyConfigured(w, kc) && LostOne(w, damaged, kc, k) && forall r :: r in roles <==> r in DesiredRoles(kc.spec)
    ensures var r := With(damaged.bindings, kc, DesiredWorkspace(kc.spec), roles);
      (x in r <==> x in w.bindings) && (x in w.bindings ==> r[x] == w.bindings[x])
  {
    var ws := DesiredWorkspace(kc.spec);
    WithContents(damaged.bindings, kc, ws, roles, x);
    if DesiredKey(kc, ws, roles, x) {
      var r :| r in roles && x.name == BindingName(kc.uid, r);
      assert x == Key(ws, BindingName(kc.uid, r)) && w.bindings[x] == BindingFor(kc, r);
      BindingNameRole(kc.uid, With(damaged.bindings, kc, ws, roles)[x].role, r);
    }
  }

  lemma ReboundHeals(w: World, damaged: World, kc: Kubeconfig, k: Key)
    requires ExactlyConfigured(w, kc) && LostOne(w, damaged, kc, k)
    ensures Rebound(damaged, kc) == w.bindings
  {
    var roles := SortedList(DesiredRoles(kc.spec));
    assert forall r :: r in roles <==> r in Elements(roles);
    assert OverhangingNames(damaged, kc, DesiredWorkspace(kc.spec)) == {};
    assert Trimmed(damaged, kc) == damaged.bindings;
    forall x
      ensures x in Rebound(damaged, kc) <==> x in w.bindings
      ensures x in w.bindings ==> Rebound(damaged, kc)[x] == w.bindings[x]
    {
      HealedAt(w, damaged, kc, k, roles, x);
    }
  }

  /** Self-healing: a binding that others delete or take over is put back by one undisturbed reconcile, which restores the world. */
  lemma LostBindingComesBack(w: World, kc: Kubeconfig, k: Key, b: Binding)
    requires w.obj == Some(kc) && !kc.deleting && Recorded(kc) && ExactlyConfigured(w, kc)
    requires k in w.bindings && w.bindings[k].owner == Some(kc.uid)
    ensures Reconciled(EnvEffect(w, DropBinding(k))) == w && k !in EnvEffect(w, DropBinding(k)).bindings
    ensures EnvAllowed(w, PutBinding(k, b)) ==> Reconciled(EnvEffect(w, PutBinding(k, b))) == w && EnvEffect(w, PutBinding(k, b)).bindings[k] == b
  {
    var dropped := EnvEffect(w, DropBinding(k));
    ReboundHeals(w, dropped, kc, k);
    DrainConverge(dropped, kc);
    if EnvAllowed(w, PutBinding(k, b)) {
      var taken := EnvEffect(w, PutBinding(k, b));
      ReboundHeals(w, taken, kc, k);
      DrainConverge(taken, kc);
    }
  }

  /** A binding of this object in this workspace whose role the spec does not ask for. */
  ghost predicate Superfluous(w: World, kc: Kubeconfig, ws: Workspace, name: string) {
    && Key(ws, name) in w.bindings && w.bindings[Key(ws, name)].owner == Some(kc.uid)
    && (kc.spec.authorization.Some? ==> w.bindings[Key(ws, name)].role !in kc.spec.authorization.value.clusterRoles)
  }

  /**
   What a listing marks for deletion: everything owned when the workspace is given up, otherwise just what is
   superfluous; a role that is asked for and already bound is never unbound in between.
   */
  lemma ListingMarks(s: State, name: string)
    requires s.pc.Listing?
    ensures var next := Next(s, Call(Done)).pc;
      (next.Deleting? && name in next.todo) <==>
        if s.pc.unprovision then Key(s.pc.ws, name) in s.w.bindings && s.w.bindings[Key(s.pc.ws, name)].owner == Some(s.pc.kc.uid)
        else Superfluous(s.w, s.pc.kc, s.pc.ws, name)
  {
    var kc, ws := s.pc.kc, s.pc.ws;
    var names := if s.pc.unprovision then OwnedNames(s.w, kc.uid, ws) else OverhangingNames(s.w, kc, ws);
    assert name in names <==> name in Elements(SortedList(names));
    NamesBelong(s.w, kc, ws, name);
  }

  lemma NamesBelong(w: World, kc: Kubeconfig, ws: Workspace, name: string)
    ensures name in OwnedNames(w, kc.uid, ws) <==> Key(ws, name) in w.bindings && w.bindings[Key(ws, name)].owner == Some(kc.uid)
    ensures name in OverhangingNames(w, kc, ws) <==> Superfluous(w, kc, ws, name)
  {
    assert Key(ws, name).ws == ws && Key(ws, name).name == name;
    forall k: Key | k.ws == ws && k.name == name
      ensures k == Key(ws, name)
    {
    }
  }

  /** How many undisturbed reconciles an object is away from rest. */
  ghost function Distance(w: World): nat {
    if w.obj.None? then 0 else
    var kc := w.obj.value;
    var current, desired := kc.provisioned.GetOr(""), DesiredWorkspace(kc.spec);
    if AtRest(w, kc) then 0
    else if desired == "" then (if current != "" then 2 else 1)
    else if current != "" && current != desired then 3
    else if CLEANUP !in kc.finalizers then 3
    else if kc.provisioned != Some(desired) then 2
    else 1
  }

  lemma DesiredWorkspaceNonEmpty(spec: Spec)
    ensures DesiredWorkspace(spec) != "" <==> spec.authorization.Some?
  {
  }

  lemma OneCallReconcile(w: World, pc: Pc)
    requires pc.RemovingFinalizer? || pc.AddingFinalizer? || pc.RecordingCluster?
    requires CanApply(State(w, pc))
    ensures Drain(State(w, pc)) == State(Apply(State(w, pc)), Idle)
  {
  }

  /**
   Each undisturbed reconcile of a living object gets strictly closer, keeps the spec, and rest is a fixed point. One
   that ends short of rest has changed the stored object, which is what queues the key again.
   */
  lemma ReconcileGetsCloser(w: World)
    requires WorldInv(w) && w.obj.Some? && !w.obj.value.deleting
    ensures var w' := Reconciled(w);
      && w'.obj.Some? && !w'.obj.value.deleting && w'.obj.value.spec == w.obj.value.spec
      && w'.obj.value.uid == w.obj.value.uid && w'.obj.value.name == w.obj.value.name
      && (Distance(w) == 0 ==> w' == w) && (Distance(w) > 0 ==> Distance(w') < Distance(w))
      && (Distance(w') > 0 ==> w'.obj != w.obj)
  {
    var kc := w.obj.value;
    var current, desired := kc.provisioned.GetOr(""), DesiredWorkspace(kc.spec);
    DesiredWorkspaceNonEmpty(kc.spec);
    if current != "" && desired != current {
      DrainUnprovision(w, kc, current);
      EmptiedOwnsNothing(w, kc, current);
    } else if desired == "" {
      if CLEANUP in kc.finalizers {
        OneCallReconcile(w, RemovingFinalizer(kc));
      }
    } else if CLEANUP !in kc.finalizers {
      OneCallReconcile(w, AddingFinalizer(kc));
    } else if kc.provisioned != Some(desired) {
      OneCallReconcile(w, RecordingCluster(kc, desired));
    } else {
      BindingsBecomeExact(w, kc);
    }
  }

  lemma {:induction false} DrainKeepsInv(s: State)
    requires Inv(s)
    ensures Inv(Drain(s)) && Drain(s).pc == Idle
    decreases Rank(s.pc), Pending(s.pc)
  {
    if !s.pc.Idle? {
      NextKeepsInv(s, Call(Done));
      DrainKeepsInv(Next(s, Call(Done)));
    }
  }

  lemma ReconciledKeepsInv(w: World)
    requires WorldInv(w)
    ensures WorldInv(Reconciled(w))
  {
    if w.obj.Some? {
      GetKeepsInv(State(w, Idle), w.obj.value);
      DrainKeepsInv(State(w, Begin(w.obj.value)));
    }
  }

  /**
   Main convergence result. From the world of any state of any run, three undisturbed reconciles of an object
   that is not being deleted reach rest, with the spec as it was, and further reconciles change nothing.
   */
  lemma ThreeReconcilesReachRest(s: State, steps: seq<Step>)
    requires Initial(s)
    requires var w := Run(s, steps).w; w.obj.Some? && !w.obj.value.deleting
    ensures var w := Run(s, steps).w;
      var w3 := Reconciled(Reconciled(Reconciled(w)));
      && w3.obj.Some? && w3.obj.value.spec == w.obj.value.spec
      && AtRest(w3, w3.obj.value) && Reconciled(w3) == w3
  {
    InitialInv(s);
    RunKeepsInv(s, steps);
    var w0 := Run(s, steps).w;
    var w1 := Reconciled(w0);
    var w2 := Reconciled(w1);
    var w3 := Reconciled(w2);
    ReconcileGetsCloser(w0);
    ReconciledKeepsInv(w0);
    ReconcileGetsCloser(w1);
    ReconciledKeepsInv(w1);
    ReconcileGetsCloser(w2);
    ReconciledKeepsInv(w2);
    ReconcileGetsCloser(w3);
    assert Distance(w3) == 0;
  }

  /** The object's roles are bound in one workspace and nowhere else, and the status says so. */
  ghost predicate BoundExactlyIn(w: World, kc: Kubeconfig, ws: Workspace, roles: seq<string>) {
    && kc.provisioned == Some(ws)
    && (forall k | k in w.bindings && w.bindings[k].owner == Some(kc.uid) ::
          && k.ws == ws && w.bindings[k].role in roles && k.name == kc.uid + ":" + w.bindings[k].role
          && w.bindings[k].group == "kubeconfig:" + kc.name)
    && (forall r | r in roles ::
          var k := Key(ws, kc.uid + ":" + r);
          k in w.bindings && w.bindings[k] == Binding(Some(kc.uid), r, "kubeconfig:" + kc.name))
  }

  ghost predicate Unbound(w: World, kc: Kubeconfig) {
    kc.provisioned.GetOr("") == "" && forall k | k in w.bindings :: w.bindings[k].owner != Some(kc.uid)
  }

  lemma RestIsUnbound(w: World, kc: Kubeconfig)
    requires WorldInv(w) && w.obj == Some(kc) && !kc.deleting && kc.spec.authorization.None?
    requires AtRest(w, kc) && Reconciled(w) == w
    ensures Unbound(w, kc)
  {
    var current := kc.provisioned.GetOr("");
    if current != "" {
      DrainUnprovision(w, kc, current);
    }
  }

  /**
   The same outcome told from the fields of the spec: the roles of the list are bound in the target workspace if one is
   named, else in the cluster of the authorization, else in root; without an authorization nothing is bound.
   */
  lemma ThreeReconcilesBindWhereAsked(s: State, steps: seq<Step>)
    requires Initial(s)
    requires var w := Run(s, steps).w; w.obj.Some? && !w.obj.value.deleting
    ensures var asked := Run(s, steps).w.obj.value;
      var w3 := Reconciled(Reconciled(Reconciled(Run(s, steps).w)));
      && w3.obj.Some? && w3.obj.value.uid == asked.uid && w3.obj.value.name == asked.name
      && match asked.spec
         case Spec(_, None) => Unbound(w3, w3.obj.value) && CLEANUP !in w3.obj.value.finalizers
         case Spec(target, Some(Authorization(cluster, roles))) =>
           && CLEANUP in w3.obj.value.finalizers
           && (target != "" ==> BoundExactlyIn(w3, w3.obj.value, target, roles))
           && (target == "" && cluster != "" ==> BoundExactlyIn(w3, w3.obj.value, cluster, roles))
           && (target == "" && cluster == "" ==> BoundExactlyIn(w3, w3.obj.value, "root", roles))
  {
    ThreeReconcilesReachRest(s, steps);
    InitialInv(s);
    RunKeepsInv(s, steps);
    var w0 := Run(s, steps).w;
    var w1, w2 := Reconciled(w0), Reconciled(Reconciled(w0));
    ReconcileGetsCloser(w0);
    ReconciledKeepsInv(w0);
    ReconcileGetsCloser(w1);
    ReconciledKeepsInv(w1);
    ReconcileGetsCloser(w2);
    ReconciledKeepsInv(w2);
    var w3 := Reconciled(w2);
    if w3.obj.value.spec.authorization.None? {
      RestIsUnbound(w3, w3.obj.value);
    } else {
      RestBindsRoles(w3, w3.obj.value);
    }
  }

  lemma RestBindsRoles(w: World, kc: Kubeconfig)
    requires AtRest(w, kc) && kc.spec.authorization.Some?
    ensures BoundExactlyIn(w, kc, RbacTargetWorkspace(kc.spec), kc.spec.authorization.value.clusterRoles)
  {
    forall r | r in kc.spec.authorization.value.clusterRoles
      ensures var k := Key(RbacTargetWorkspace(kc.spec), kc.uid + ":" + r);
        k in w.bindings && w.bindings[k] == Binding(Some(kc.uid), r, "kubeconfig:" + kc.name)
    {
      assert r in DesiredRoles(kc.spec);
      assert BindingName(kc.uid, r) == kc.uid + ":" + r;
    }
  }

  /** Two are not always enough: a new object with roles to bind has none of them bound after two. */
  lemma TwoReconcilesAreNotEnough(w: World)
    requires WorldInv(w) && w.obj.Some? && !w.obj.value.deleting
    requires w.obj.value.provisioned.None? && CLEANUP !in w.obj.value.finalizers && DesiredRoles(w.obj.value.spec) != {}
    ensures var w2 := Reconciled(Reconciled(w)); w2.obj.Some? && !AtRest(w2, w2.obj.value)
  {
    var kc := w.obj.value;
    var desired := DesiredWorkspace(kc.spec);
    OneCallReconcile(w, AddingFinalizer(kc));
    var kc1 := kc.(finalizers := kc.finalizers + {CLEANUP});
    var w1 := w.(obj := Some(kc1));
    assert Reconciled(w) == w1;
    OneCallReconcile(w1, RecordingCluster(kc1, desired));
    var w2 := Reconciled(w1);
    assert w2.bindings == w.bindings;
    var r :| r in DesiredRoles(kc.spec);
  }

  /** An object in deletion that is still held by this controller's finalizer. */
  ghost predicate AwaitsCleanup(w: World) {
    w.obj.Some? && w.obj.value.deleting && CLEANUP in w.obj.value.finalizers
  }

  /**
   Deletion progress: one undisturbed reconcile releases the object, with no binding left behind, if and only if
   Status.Authorization is not nil.
   */
  lemma DeletionProgressesIffStatusSet(s: State, steps: seq<Step>)
    requires Initial(s) && AwaitsCleanup(Run(s, steps).w)
    ensures var w := Run(s, steps).w; var w' := Reconciled(w);
      && (!AwaitsCleanup(w') <==> w.obj.value.provisioned.Some?)
      && (!AwaitsCleanup(w') ==> forall k | k in w'.bindings :: w'.bindings[k].owner != Some(w.obj.value.uid))
  {
    InitialInv(s);
    RunKeepsInv(s, steps);
    var w := Run(s, steps).w;
    var kc := w.obj.value;
    if kc.provisioned.Some? {
      var ws := kc.provisioned.value;
      if ws == "" {
        OneCallReconcile(w, RemovingFinalizer(kc));
      } else {
        DrainUnprovision(w, kc, ws);
        EmptiedOwnsNothing(w, kc, ws);
        var kc' := kc.(provisioned := Some(""));
        OneCallReconcile(World(Some(kc'), Emptied(w, kc, ws), w.retired), RemovingFinalizer(kc'));
      }
    }
  }

  /** Deleted between the reconcile that adds the finalizer and the one that records the workspace. */
  ghost predicate Stuck(s: State) {
    s.pc == Idle && AwaitsCleanup(s.w) && s.w.obj.value.provisioned.None?
  }

  /** Every Kubeconfig with authorization can get there, by being deleted right after its first reconcile. */
  lemma EarlyDeletionGetsStuck(s: State, kc: Kubeconfig) returns (steps: seq<Step>)
    requires Initial(s) && EnvAllowed(s.w, CreateObject(kc)) && kc.spec.authorization.Some?
    ensures Stuck(Run(s, steps))
  {
    var s1 := Next(s, Env(CreateObject(kc)));
    var s2 := Next(s1, Get(kc));
    var s3 := Next(s2, Call(Done));
    steps := [Env(CreateObject(kc)), Get(kc), Call(Done), Env(DeleteObject)];
    RunThree(s, steps[0], steps[1], steps[2]);
    assert steps[..3] == [steps[0], steps[1], steps[2]];
    assert Run(s, steps) == Next(s3, Env(DeleteObject));
  }

  /** No run leaves that state again, as long as reconciles see the deletion mark. */
  lemma {:induction false} StuckForever(s: State, steps: seq<Step>)
    requires Stuck(s) && forall step | step in steps && step.Get? :: step.snapshot.deleting
    ensures Stuck(Run(s, steps))
    decreases |steps|
  {
    if steps != [] {
      StuckForever(s, steps[..|steps| - 1]);
    }
  }
}
