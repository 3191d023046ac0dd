/**
 The RBAC provisioning protocol of a Kubeconfig as a step machine.

 One step is one API call of the controller, one action of the outside world (the user, other
 controllers), or a crash. A reconcile holds the snapshot it read at its start; the object and
 the bindings may change between any two of its calls.
 */
module RbacModel {
  import opened Wrappers
  import opened ApiCalls
  import opened Ordering

  const CLEANUP: string := "operator.kcp.io/cleanup-rbac"

  type Uid = string
  type Workspace = string

  datatype Authorization = Authorization(cluster: Workspace, clusterRoles: seq<string>)
  datatype Spec = Spec(targetWorkspace: Workspace, authorization: Option<Authorization>)

  /** `provisioned` is Status.Authorization: None for a nil pointer, else its ProvisionedCluster. */
  datatype Kubeconfig = Kubeconfig(
    name: string, uid: Uid, spec: Spec, finalizers: set<string>, deleting: bool, provisioned: Option<Workspace>)

  /** `owner` is the value of the operator.kcp.io/kubeconfig label, if there is one. */
  datatype Binding = Binding(owner: Option<Uid>, role: string, group: string)
  datatype Key = Key(ws: Workspace, name: string)

  /** `retired` remembers the UIDs of earlier objects of the same name; the API server has no such field. */
  datatype World = World(obj: Option<Kubeconfig>, bindings: map<Key, Binding>, retired: set<Uid>)

  function RbacTargetWorkspace(spec: Spec): Workspace {
    if spec.targetWorkspace != "" then spec.targetWorkspace
    else if spec.authorization.Some? && spec.authorization.value.cluster != "" then spec.authorization.value.cluster
    else "root"
  }

  /** The workspace the spec asks for; empty when authorization is not configured. */
  function DesiredWorkspace(spec: Spec): Workspace {
    if spec.authorization.Some? then RbacTargetWorkspace(spec) else ""
  }

  function DesiredRoles(spec: Spec): set<string> {
    if spec.authorization.Some? then Elements(spec.authorization.value.clusterRoles) else {}
  }

  function BindingName(uid: Uid, role: string): string {
    uid + ":" + role
  }

  function Group(kc: Kubeconfig): string {
    "kubeconfig:" + kc.name
  }

  function BindingFor(kc: Kubeconfig, role: string): Binding {
    Binding(Some(kc.uid), role, Group(kc))
  }

  /** The names a label-selecting List returns in one workspace. */
  function OwnedNames(w: World, uid: Uid, ws: Workspace): set<string> {
    set k | k in w.bindings && k.ws == ws && w.bindings[k].owner == Some(uid) :: k.name
  }

  function OverhangingNames(w: World, kc: Kubeconfig, ws: Workspace): set<string> {
    set k | k in w.bindings && k.ws == ws && w.bindings[k].owner == Some(kc.uid)
            && w.bindings[k].role !in DesiredRoles(kc.spec) :: k.name
  }

  /** Storing an object: the API server collects it once it is deleted and has no finalizers. */
  function Store(w: World, kc: Kubeconfig): World {
    if kc.deleting && kc.finalizers == {}
    then w.(obj := None, retired := w.retired + {kc.uid})
    else w.(obj := Some(kc))
  }

  /** The program points of a reconcile, each named after the API call that comes next. */
  datatype Pc =
    | Idle
    | Listing(kc: Kubeconfig, ws: Workspace, unprovision: bool)
    | Deleting(kc: Kubeconfig, ws: Workspace, todo: seq<string>, unprovision: bool)
    | ClearingStatus(kc: Kubeconfig)
    | RemovingFinalizer(kc: Kubeconfig)
    | AddingFinalizer(kc: Kubeconfig)
    | RecordingCluster(kc: Kubeconfig, ws: Workspace)
    | Ensuring(kc: Kubeconfig, ws: Workspace, todo: seq<string>)

  datatype State = State(w: World, pc: Pc)

  function StartRemoval(kc: Kubeconfig): Pc {
    if CLEANUP in kc.finalizers then RemovingFinalizer(kc) else Idle
  }

  /**
   What a reconcile does first with a snapshot. A deleted object with the finalizer but a nil
   Status.Authorization makes the source dereference nil: that reconcile ends without a call.
   */
  function Begin(kc: Kubeconfig): Pc {
    if kc.deleting then
      if CLEANUP !in kc.finalizers then Idle
      else
        match kc.provisioned
        case None => Idle
        case Some(ws) => if ws == "" then StartRemoval(kc) else Listing(kc, ws, true)
    else
      var current := kc.provisioned.GetOr("");
      var desired := DesiredWorkspace(kc.spec);
      if current != "" && desired != current then Listing(kc, current, true)
      else if desired == "" then StartRemoval(kc)
      else if CLEANUP !in kc.finalizers then AddingFinalizer(kc)
      else if kc.provisioned != Some(desired) then RecordingCluster(kc, desired)
      else Listing(kc, desired, false)
  }

  function NextEnsure(kc: Kubeconfig, ws: Workspace, todo: seq<string>): Pc {
    if todo == [] then Idle else Ensuring(kc, ws, todo)
  }

  function NextDelete(kc: Kubeconfig, ws: Workspace, todo: seq<string>, unprovision: bool): Pc {
    if todo != [] then Deleting(kc, ws, todo, unprovision)
    else if unprovision then ClearingStatus(kc)
    else NextEnsure(kc, ws, SortedList(DesiredRoles(kc.spec)))
  }

  predicate CanStore(w: World, finalizers: set<string>) {
    w.obj.Some? && AcceptsFinalizers(w.obj.value.deleting, w.obj.value.finalizers, finalizers)
  }

  /** Whether the API server can carry out the pending call at all. */
  predicate CanApply(s: State) {
    match s.pc
    case Idle => false
    case Listing(_, _, _) => true
    case Deleting(_, ws, todo, _) => todo != [] && Key(ws, todo[0]) in s.w.bindings
    case Ensuring(_, _, todo) => todo != []
    case AddingFinalizer(kc) => CanStore(s.w, kc.finalizers + {CLEANUP})
    case RemovingFinalizer(kc) => CanStore(s.w, kc.finalizers - {CLEANUP})
    case _ => s.w.obj.Some?
  }

  /**
   The effect of the pending call. Patches are JSON merge patches (section 2 of RFC 7396) computed
   from the snapshot: they name the object, not its UID, and replace the finalizer list wholesale.
   */
  function Apply(s: State): World
    requires CanApply(s)
  {
    var w := s.w;
    match s.pc
    case Listing(_, _, _) => w
    case Deleting(_, ws, todo, _) => w.(bindings := w.bindings - {Key(ws, todo[0])})
    case ClearingStatus(_) => w.(obj := Some(w.obj.value.(provisioned := Some(""))))
    case RemovingFinalizer(kc) => Store(w, w.obj.value.(finalizers := kc.finalizers - {CLEANUP}))
    case AddingFinalizer(kc) => Store(w, w.obj.value.(finalizers := kc.finalizers + {CLEANUP}))
    case RecordingCluster(_, ws) => w.(obj := Some(w.obj.value.(provisioned := Some(ws))))
    case Ensuring(kc, ws, todo) => w.(bindings := w.bindings[Key(ws, BindingName(kc.uid, todo[0])) := BindingFor(kc, todo[0])])
  }

  /** Where the reconcile continues after a call that succeeded; `w` is the world after the call. */
  function Follow(pc: Pc, w: World): Pc {
    match pc
    case Listing(kc, ws, unprovision) =>
      NextDelete(kc, ws, SortedList(if unprovision then OwnedNames(w, kc.uid, ws) else OverhangingNames(w, kc, ws)), unprovision)
    case Deleting(kc, ws, todo, unprovision) => if todo == [] then Idle else NextDelete(kc, ws, todo[1..], unprovision)
    case ClearingStatus(kc) =>
      // The patch response replaces the snapshot; a spec change stops here and is requeued.
      if kc.deleting && w.obj.Some? then StartRemoval(w.obj.value) else Idle
    case Ensuring(kc, ws, todo) => if todo == [] then Idle else NextEnsure(kc, ws, todo[1..])
    case _ => Idle
  }

  datatype EnvStep =
    | CreateObject(kc: Kubeconfig)
    | EditSpec(spec: Spec)
    | EditFinalizers(finalizers: set<string>)
    | DeleteObject
    | PutBinding(key: Key, binding: Binding)
    | DropBinding(key: Key)

  datatype Step =
    | Get(snapshot: Kubeconfig)
    | Call(outcome: Outcome)
    | Env(e: EnvStep)

  predicate Ours(w: World, uid: Uid) {
    uid in w.retired || (w.obj.Some? && w.obj.value.uid == uid)
  }

  /**
   What the outside world may do. It never touches this controller's finalizer or status field,
   never labels a binding with a UID of this Kubeconfig, and UIDs are not reused. Bindings
   labelled for other Kubeconfigs follow the naming scheme of their own controllers.
   */
  predicate EnvAllowed(w: World, e: EnvStep) {
    match e
    case CreateObject(kc) =>
      && w.obj.None? && !kc.deleting && kc.provisioned.None? && CLEANUP !in kc.finalizers
      && kc.uid !in w.retired && forall k | k in w.bindings :: w.bindings[k].owner != Some(kc.uid)
    case EditSpec(_) => w.obj.Some?
    case EditFinalizers(fs) => CanStore(w, fs) && (CLEANUP in fs <==> CLEANUP in w.obj.value.finalizers)
    case DeleteObject => w.obj.Some?
    case PutBinding(_, b) => b.owner.Some? ==> !Ours(w, b.owner.value)
    case DropBinding(_) => true
  }

  function EnvEffect(w: World, e: EnvStep): World {
    if !EnvAllowed(w, e) then w else
    match e
    case CreateObject(kc) => w.(obj := Some(kc))
    case EditSpec(spec) => w.(obj := Some(w.obj.value.(spec := spec)))
    case EditFinalizers(fs) => Store(w, w.obj.value.(finalizers := fs))
    case DeleteObject => Store(w, w.obj.value.(deleting := true))
    case PutBinding(k, b) => w.(bindings := w.bindings[k := b])
    case DropBinding(k) => w.(bindings := w.bindings - {k})
  }

  /**
   How stale a reconcile's snapshot may be: the UID, the presence of the cleanup finalizer and
   Status.Authorization are current. Spec, other finalizers and the deletion mark may lag.
   */
  predicate Admissible(kc: Kubeconfig, obj: Kubeconfig) {
    && kc.uid == obj.uid && kc.provisioned == obj.provisioned
    && (CLEANUP in kc.finalizers <==> CLEANUP in obj.finalizers)
  }

  function Next(s: State, step: Step): State {
    match step
    case Get(kc) =>
      if s.pc.Idle? && s.w.obj.Some? && Admissible(kc, s.w.obj.value) then s.(pc := Begin(kc)) else s
    case Call(outcome) =>
      if outcome.Refused? || !CanApply(s) then s.(pc := Idle)
      else State(Apply(s), if outcome.Done? then Follow(s.pc, Apply(s)) else Idle)
    case Env(e) => s.(w := EnvEffect(s.w, e))
  }

  function Run(s: State, steps: seq<Step>): State {
    if steps == [] then s
    else Next(Run(s, steps[..|steps| - 1]), steps[|steps| - 1])
  }

  /** Before the first object of this name exists; bindings of others may already be there. */
  ghost predicate Initial(s: State) {
    s.pc == Idle && s.w.obj.None? && s.w.retired == {}
  }
}
