/**
 The pod of a virtual workspace: one server container, any number of init containers, and a volume
 list that a closure extends while the containers are being built.
 */
module VirtualWorkspacePod {
  import opened Wrappers
  import opened Ordering

  datatype VolumeSource = SecretSource(secretName: string) | OtherSource(description: string)
  datatype Volume = Volume(name: string, source: VolumeSource)
  datatype Mount = Mount(name: string, path: string)

  datatype SecretMount = SecretMount(volumeName: string, secretName: string, mountPath: string) {
    function Vol(): Volume { Volume(volumeName, SecretSource(secretName)) }
    function Mnt(): Mount { Mount(volumeName, mountPath) }
  }

  datatype InitSpec = InitSpec(name: string, kubeconfig: Option<string>, volumes: seq<Volume>, mounts: seq<Mount>)

  /** The parts of a CompiledVirtualWorkspace the pod's volumes depend on; `mergedClientCA` is set when either CA bundle is. */
  datatype VirtualWorkspace = VirtualWorkspace(
    name: string, rootShard: string, shard: Option<string>, mergedClientCA: bool,
    shardCache: Option<string>, rootShardCache: Option<string>,
    extraVolumes: seq<Volume>, extraMounts: seq<Mount>, kubeconfig: Option<string>, initContainers: seq<InitSpec>)

  function EffectiveCacheRef(vw: VirtualWorkspace): string {
    if vw.shard.Some? && vw.shardCache.Some? then vw.shardCache.value else vw.rootShardCache.GetOr("")
  }

  function SharedSecrets(vw: VirtualWorkspace): seq<SecretMount> {
    [ SecretMount("kcp-ca", vw.rootShard + "-ca", "/etc/kcp/tls/ca/root"),
      SecretMount("server-ca", vw.rootShard + "-server-ca", "/etc/kcp/tls/ca/server"),
      SecretMount("requestheader-client-ca", vw.rootShard + "-requestheader-client-ca", "/etc/kcp/tls/ca/requestheader-client"),
      SecretMount("client-ca", if vw.mergedClientCA then vw.name + "-merged-client-ca" else vw.rootShard + "-client-ca", "/etc/kcp/tls/ca/client"),
      SecretMount("server-cert", vw.name + "-server", "/etc/kcp/tls/server") ]
    + (var cache := EffectiveCacheRef(vw);
       if cache == "" then [] else
       [ SecretMount("cache-server-kubeconfig", cache + "-kubeconfig", "/etc/cache-server/kubeconfig"),
         SecretMount("cache-server-ca", cache + "-ca", "/etc/cache-server/tls/ca/root"),
         SecretMount("cache-server-client-cert", cache + "-client-certificate", "/etc/cache-server/tls/client-certificate") ])
  }

  /** The privileged fallback identity, for containers that did not bring their own kubeconfig. */
  function AdminSecrets(vw: VirtualWorkspace): seq<SecretMount> {
    [ SecretMount("logical-cluster-admin-kubeconfig", vw.shard.GetOr(vw.rootShard) + "-logical-cluster-admin-kubeconfig",
                  "/etc/kcp/logical-cluster-admin-kubeconfig"),
      SecretMount("client-cert", vw.name + "-client", "/etc/kcp/tls/logical-cluster-admin") ]
  }

  function Volumes(sms: seq<SecretMount>): (r: seq<Volume>)
    ensures |r| == |sms|
  {
    seq(|sms|, i requires 0 <= i < |sms| => sms[i].Vol())
  }

  function Mounts(sms: seq<SecretMount>): (r: seq<Mount>)
    ensures |r| == |sms|
  {
    seq(|sms|, i requires 0 <= i < |sms| => sms[i].Mnt())
  }

  /** What a container asks of the pod: its own kubeconfig, if any, where it goes, and its extra mounts. */
  datatype Request = Request(name: string, kubeconfig: Option<string>, volumeName: string, path: string, extra: seq<Mount>)

  function ServerRequest(vw: VirtualWorkspace): Request {
    Request("kcp", vw.kubeconfig, "server-kubeconfig", "/etc/kcp/server-kubeconfig", vw.extraMounts)
  }

  function InitRequest(i: InitSpec): Request {
    Request(i.name, i.kubeconfig, "init-" + i.name + "-kubeconfig", "/etc/kcp/init-kubeconfig", i.mounts)
  }

  function InitRequests(inits: seq<InitSpec>): (r: seq<Request>)
    ensures |r| == |inits|
  {
    seq(|inits|, i requires 0 <= i < |inits| => InitRequest(inits[i]))
  }

  function Requests(vw: VirtualWorkspace): seq<Request> {
    [ServerRequest(vw)] + InitRequests(vw.initContainers)
  }

  function OwnSecret(r: Request): seq<SecretMount> {
    if r.kubeconfig.None? then [] else [SecretMount(r.volumeName, r.kubeconfig.value, r.path)]
  }

  function OwnSecrets(rs: seq<Request>): seq<SecretMount> {
    if rs == [] then [] else OwnSecrets(rs[..|rs| - 1]) + OwnSecret(rs[|rs| - 1])
  }

  /** The Secrets the operator itself mounts into one container. */
  function OperatorSecrets(shared: seq<SecretMount>, admin: seq<SecretMount>, r: Request): seq<SecretMount> {
    shared + (if r.kubeconfig.None? then admin else OwnSecret(r))
  }

  function InitVolumes(inits: seq<InitSpec>): seq<Volume> {
    if inits == [] then [] else InitVolumes(inits[..|inits| - 1]) + inits[|inits| - 1].volumes
  }

  /** Every volume declaration, in the order the renderer produces them. */
  function Declared(vw: VirtualWorkspace): seq<Volume> {
    DeclaredWith(vw, SharedSecrets(vw), AdminSecrets(vw))
  }

  function DeclaredWith(vw: VirtualWorkspace, shared: seq<SecretMount>, admin: seq<SecretMount>): seq<Volume> {
    vw.extraVolumes + Volumes(shared) + Volumes(admin) + Volumes(OwnSecrets(Requests(vw))) + InitVolumes(vw.initContainers)
  }

  // ----- Deduplication -----

  predicate Declares(vs: seq<Volume>, name: string) {
    exists i | 0 <= i < |vs| :: vs[i].name == name
  }

  function Dedupe(vs: seq<Volume>): seq<Volume> {
    if vs == [] then []
    else
      var front, last := vs[..|vs| - 1], vs[|vs| - 1];
      if Declares(front, last.name) then Dedupe(front) else Dedupe(front) + [last]
  }

  /** The first declaration of a name. */
  function Lookup(vs: seq<Volume>, name: string): Option<Volume> {
    if vs == [] then None
    else if vs[0].name == name then Some(vs[0]) else Lookup(vs[1..], name)
  }

  lemma {:induction false} LookupConcat(a: seq<Volume>, b: seq<Volume>, name: string)
    ensures Lookup(a + b, name) == if Declares(a, name) then Lookup(a, name) else Lookup(b, name)
    ensures Lookup(a, name).Some? <==> Declares(a, name)
    decreases |a|
  {
    if a == [] {
      assert a + b == b;
    } else {
      assert (a + b)[1..] == a[1..] + b;
      LookupConcat(a[1..], b, name);
      if Declares(a[1..], name) {
        var i :| 0 <= i < |a[1..]| && a[1..][i].name == name;
        assert a[i + 1].name == name;
      }
      if Declares(a, name) && a[0].name != name {
        var i :| 0 <= i < |a| && a[i].name == name;
        assert a[1..][i - 1].name == name;
      }
    }
  }

  function IndexOf(vs: seq<Volume>, name: string): nat
  {
    if vs == [] || vs[0].name == name then 0 else 1 + IndexOf(vs[1..], name)
  }

  lemma {:induction false} IndexOfConcat(a: seq<Volume>, b: seq<Volume>, name: string)
    ensures Declares(a, name) ==> IndexOf(a + b, name) == IndexOf(a, name) < |a|
    ensures !Declares(a, name) ==> IndexOf(a + b, name) >= |a|
    decreases |a|
  {
    if a != [] {
      assert (a + b)[1..] == a[1..] + b;
      IndexOfConcat(a[1..], b, name);
      if Declares(a[1..], name) {
        var i :| 0 <= i < |a[1..]| && a[1..][i].name == name;
        assert a[i + 1].name == name;
      }
      if Declares(a, name) && a[0].name != name {
        var i :| 0 <= i < |a| && a[i].name == name;
        assert a[1..][i - 1].name == name;
      }
    }
  }

  /** The result keeps exactly the first declaration of every name, in the order of those declarations. */
  ghost predicate FirstDeclarations(vs: seq<Volume>, r: seq<Volume>) {
    && (forall i, j | 0 <= i < j < |r| :: r[i].name != r[j].name && IndexOf(vs, r[i].name) < IndexOf(vs, r[j].name))
    && (forall name :: Declares(r, name) <==> Declares(vs, name))
    && (forall name :: Lookup(r, name) == Lookup(vs, name))
  }

  lemma SnocDeclares(vs: seq<Volume>, last: Volume, name: string)
    ensures Declares(vs + [last], name) <==> Declares(vs, name) || last.name == name
  {
    var r := vs + [last];
    assert r[|vs|] == last;
    if Declares(vs, name) {
      var i :| 0 <= i < |vs| && vs[i].name == name;
      assert r[i].name == name;
    }
  }

  lemma {:induction false} DedupeKeepsFirst(vs: seq<Volume>)
    ensures FirstDeclarations(vs, Dedupe(vs))
    decreases |vs|
  {
    if vs != [] {
      var front, last := vs[..|vs| - 1], vs[|vs| - 1];
      assert vs == front + [last];
      DedupeKeepsFirst(front);
      var d, r := Dedupe(front), Dedupe(vs);
      forall name
        ensures Declares(r, name) <==> Declares(vs, name)
        ensures Lookup(r, name) == Lookup(vs, name)
      {
        SnocDeclares(front, last, name);
        SnocDeclares(d, last, name);
        LookupConcat(front, [last], name);
        LookupConcat(d, [last], name);
      }
      DedupeOrder(front, last);
    }
  }

  lemma DedupeOrder(front: seq<Volume>, last: Volume)
    requires FirstDeclarations(front, Dedupe(front))
    ensures var vs, r := front + [last], Dedupe(front + [last]);
      forall i, j | 0 <= i < j < |r| :: r[i].name != r[j].name && IndexOf(vs, r[i].name) < IndexOf(vs, r[j].name)
  {
    var vs, d := front + [last], Dedupe(front);
    assert vs[..|vs| - 1] == front;
    forall i | 0 <= i < |d|
      ensures Declares(front, d[i].name) && IndexOf(vs, d[i].name) == IndexOf(front, d[i].name) < |front|
    {
      assert Declares(d, d[i].name);
      IndexOfConcat(front, [last], d[i].name);
    }
    if !Declares(front, last.name) {
      IndexOfConcat(front, [last], last.name);
    }
  }

  method DedupeVolumes(volumes: seq<Volume>) returns (deduped: seq<Volume>)
    ensures deduped == Dedupe(volumes)
  {
    var seen: set<string> := {};
    deduped := [];
    for i := 0 to |volumes|
      invariant deduped == Dedupe(volumes[..i])
      invariant forall name :: name in seen <==> Declares(volumes[..i], name)
    {
      var volume := volumes[i];
      assert volumes[..i + 1] == volumes[..i] + [volume];
      assert volumes[..i + 1][..|volumes[..i + 1]| - 1] == volumes[..i];
      forall name {
        SnocDeclares(volumes[..i], volume, name);
      }
      if volume.name !in seen {
        seen := seen + {volume.name};
        deduped := deduped + [volume];
      }
    }
    assert volumes[..|volumes|] == volumes;
  }

  // ----- Rendering -----

  datatype Container = Container(name: string, mounts: seq<Mount>)

  function Rendered(shared: seq<SecretMount>, admin: seq<SecretMount>, r: Request): Container {
    Container(r.name, Mounts(OperatorSecrets(shared, admin, r)) + r.extra)
  }

  function AllRendered(shared: seq<SecretMount>, admin: seq<SecretMount>, rs: seq<Request>): seq<Container> {
    seq(|rs|, i requires 0 <= i < |rs| => Rendered(shared, admin, rs[i]))
  }

  /** The state captured by the containerMounts closure. */
  class PodBuilder {
    var volumes: seq<Volume>
    const shared: seq<SecretMount>
    const admin: seq<SecretMount>

    constructor (extraVolumes: seq<Volume>, shared: seq<SecretMount>, admin: seq<SecretMount>)
      ensures this.shared == shared && this.admin == admin
      ensures volumes == extraVolumes + Volumes(shared) + Volumes(admin)
    {
      this.shared, this.admin := shared, admin;
      volumes := extraVolumes + Volumes(shared) + Volumes(admin);
    }

    /** Assembles the mounts of one container; a kubeconfig of its own adds a volume to the captured list. */
    method ContainerMounts(r: Request) returns (mounts: seq<Mount>)
      modifies this
      ensures volumes == old(volumes) + Volumes(OwnSecret(r))
      ensures Container(r.name, mounts) == Rendered(shared, admin, r)
    {
      mounts := Mounts(shared);
      if r.kubeconfig.None? {
        mounts := mounts + Mounts(admin);
        assert mounts == Mounts(OperatorSecrets(shared, admin, r));
      } else {
        var own := SecretMount(r.volumeName, r.kubeconfig.value, r.path);
        volumes := volumes + [own.Vol()];
        mounts := mounts + [own.Mnt()];
        assert mounts == Mounts(OperatorSecrets(shared, admin, r));
      }
      mounts := mounts + r.extra;
    }

    /** The init containers; the volumes they declare are returned, the ones for their kubeconfigs are captured. */
    method GetInitContainers(inits: seq<InitSpec>) returns (containers: seq<Container>, initVolumes: seq<Volume>)
      modifies this
      ensures containers == AllRendered(shared, admin, InitRequests(inits))
      ensures volumes == old(volumes) + Volumes(OwnSecrets(InitRequests(inits)))
      ensures initVolumes == InitVolumes(inits)
    {
      containers, initVolumes := [], [];
      for i := 0 to |inits|
        invariant containers == AllRendered(shared, admin, InitRequests(inits[..i]))
        invariant volumes == old(volumes) + Volumes(OwnSecrets(InitRequests(inits[..i])))
        invariant initVolumes == InitVolumes(inits[..i])
      {
        OneInitMore(shared, admin, inits, i);
        var request := InitRequest(inits[i]);
        initVolumes := initVolumes + inits[i].volumes;
        var mounts := ContainerMounts(request);
        containers := containers + [Container(inits[i].name, mounts)];
      }
      assert inits[..|inits|] == inits;
    }
  }

  lemma OneInitMore(shared: seq<SecretMount>, admin: seq<SecretMount>, inits: seq<InitSpec>, i: nat)
    requires i < |inits|
    ensures var front, request := InitRequests(inits[..i]), InitRequest(inits[i]);
      && AllRendered(shared, admin, InitRequests(inits[..i + 1]))
         == AllRendered(shared, admin, front) + [Rendered(shared, admin, request)]
      && Volumes(OwnSecrets(InitRequests(inits[..i + 1]))) == Volumes(OwnSecrets(front)) + Volumes(OwnSecret(request))
    ensures InitVolumes(inits[..i + 1]) == InitVolumes(inits[..i]) + inits[i].volumes
  {
    var front, request := InitRequests(inits[..i]), InitRequest(inits[i]);
    assert inits[..i + 1][..i] == inits[..i];
    assert InitRequests(inits[..i + 1]) == front + [request];
    OwnSecretsSnoc(front, request);
  }

  lemma VolumesConcat(a: seq<SecretMount>, b: seq<SecretMount>)
    ensures Volumes(a + b) == Volumes(a) + Volumes(b)
  {
  }

  lemma OwnSecretsSnoc(rs: seq<Request>, r: Request)
    ensures OwnSecrets(rs + [r]) == OwnSecrets(rs) + OwnSecret(r)
    ensures Volumes(OwnSecrets(rs + [r])) == Volumes(OwnSecrets(rs)) + Volumes(OwnSecret(r))
  {
  }

  lemma {:induction false} OwnSecretsCons(r: Request, rs: seq<Request>)
    ensures OwnSecrets([r] + rs) == OwnSecret(r) + OwnSecrets(rs)
    decreases |rs|
  {
    if rs == [] {
      assert [r] + rs == [r] && [r][..0] == [];
    } else {
      assert ([r] + rs)[..|rs|] == [r] + rs[..|rs| - 1];
      OwnSecretsCons(r, rs[..|rs| - 1]);
    }
  }

  lemma ServerComesFirst(shared: seq<SecretMount>, admin: seq<SecretMount>, server: Request, inits: seq<Request>)
    ensures Volumes(OwnSecrets([server] + inits)) == Volumes(OwnSecret(server)) + Volumes(OwnSecrets(inits))
    ensures AllRendered(shared, admin, [server] + inits) == [Rendered(shared, admin, server)] + AllRendered(shared, admin, inits)
  {
    OwnSecretsCons(server, inits);
    VolumesConcat(OwnSecret(server), OwnSecrets(inits));
  }

  method RenderPod(vw: VirtualWorkspace) returns (containers: seq<Container>, volumes: seq<Volume>)
    ensures volumes == Dedupe(Declared(vw))
    ensures containers == AllRendered(SharedSecrets(vw), AdminSecrets(vw), Requests(vw))
  {
    containers, volumes := RenderWith(vw, SharedSecrets(vw), AdminSecrets(vw));
  }

  method RenderWith(vw: VirtualWorkspace, shared: seq<SecretMount>, admin: seq<SecretMount>)
    returns (containers: seq<Container>, volumes: seq<Volume>)
    ensures volumes == Dedupe(DeclaredWith(vw, shared, admin))
    ensures containers == AllRendered(shared, admin, Requests(vw))
  {
    var b := new PodBuilder(vw.extraVolumes, shared, admin);
    var mounts := b.ContainerMounts(ServerRequest(vw));
    var inits, initVolumes := b.GetInitContainers(vw.initContainers);
    containers := [Container("kcp", mounts)] + inits;
    ServerComesFirst(shared, admin, ServerRequest(vw), InitRequests(vw.initContainers));
    assert b.volumes + initVolumes == DeclaredWith(vw, shared, admin);
    volumes := DedupeVolumes(b.volumes + initVolumes);
  }

  // ----- What every rendered pod satisfies -----

  lemma MountsDeclared(sms: seq<SecretMount>, m: Mount)
    requires m in Mounts(sms)
    ensures Declares(Volumes(sms), m.name)
  {
    var i :| 0 <= i < |sms| && Mounts(sms)[i] == m;
    assert Volumes(sms)[i].name == m.name;
  }

  lemma DeclaresConcat(a: seq<Volume>, b: seq<Volume>, name: string)
    ensures Declares(a + b, name) <==> Declares(a, name) || Declares(b, name)
  {
    if Declares(a, name) {
      var i :| 0 <= i < |a| && a[i].name == name;
      assert (a + b)[i].name == name;
    }
    if Declares(b, name) {
      var i :| 0 <= i < |b| && b[i].name == name;
      assert (a + b)[|a| + i].name == name;
    }
  }

  lemma {:induction false} OwnSecretDeclared(rs: seq<Request>, r: Request, name: string)
    requires r in rs && Declares(Volumes(OwnSecret(r)), name)
    ensures Declares(Volumes(OwnSecrets(rs)), name)
    decreases |rs|
  {
    var front, last := rs[..|rs| - 1], rs[|rs| - 1];
    assert rs == front + [last];
    OwnSecretsSnoc(front, last);
    DeclaresConcat(Volumes(OwnSecrets(front)), Volumes(OwnSecret(last)), name);
    if r != last {
      OwnSecretDeclared(front, r, name);
    }
  }

  /**
   Pod integrity, for any number of init containers: volume names are pairwise distinct and each is the first
   declaration, in order; every mount the operator adds to any container names a volume of the pod.
   */
  lemma PodIsConsistent(vw: VirtualWorkspace, r: Request, m: Mount)
    requires r in Requests(vw) && m in Mounts(OperatorSecrets(SharedSecrets(vw), AdminSecrets(vw), r))
    ensures FirstDeclarations(Declared(vw), Dedupe(Declared(vw)))
    ensures Declares(Dedupe(Declared(vw)), m.name)
  {
    DedupeKeepsFirst(Declared(vw));
    var shared, admin, own := SharedSecrets(vw), AdminSecrets(vw), OwnSecrets(Requests(vw));
    MountsDeclared(OperatorSecrets(SharedSecrets(vw), AdminSecrets(vw), r), m);
    VolumesConcat(shared, if r.kubeconfig.None? then admin else OwnSecret(r));
    DeclaresConcat(Volumes(shared), Volumes(if r.kubeconfig.None? then admin else OwnSecret(r)), m.name);
    if r.kubeconfig.Some? && Declares(Volumes(OwnSecret(r)), m.name) {
      OwnSecretDeclared(Requests(vw), r, m.name);
    }
    DeclaresConcat(vw.extraVolumes, Volumes(shared), m.name);
    DeclaresConcat(vw.extraVolumes + Volumes(shared), Volumes(admin), m.name);
    DeclaresConcat(vw.extraVolumes + Volumes(shared) + Volumes(admin), Volumes(own), m.name);
    DeclaresConcat(vw.extraVolumes + Volumes(shared) + Volumes(admin) + Volumes(own), InitVolumes(vw.initContainers), m.name);
  }

  /** A container that brought its own kubeconfig gets no operator mount of the admin volumes, nor at their paths. */
  lemma OwnKubeconfigKeepsAdminOut(vw: VirtualWorkspace, r: Request, m: Mount, admin: SecretMount)
    requires r in Requests(vw) && r.kubeconfig.Some? && m in Mounts(OperatorSecrets(SharedSecrets(vw), AdminSecrets(vw), r)) && admin in AdminSecrets(vw)
    ensures m.name != admin.volumeName && m.path != admin.mountPath
  {
    var sms := OperatorSecrets(SharedSecrets(vw), AdminSecrets(vw), r);
    var i :| 0 <= i < |sms| && Mounts(sms)[i] == m;
    assert r.volumeName == "server-kubeconfig" || r.volumeName[..5] == "init-";
    assert r.path == "/etc/kcp/server-kubeconfig" || r.path == "/etc/kcp/init-kubeconfig";
    if i < |SharedSecrets(vw)| {
      SharedAvoidsAdmin(vw, SharedSecrets(vw)[i], admin);
    } else {
      assert m == OwnSecret(r)[0].Mnt();
      assert admin.volumeName[0] == 'l' || admin.volumeName[0] == 'c';
      assert m.name[0] == 's' || m.name[0] == 'i';
    }
  }

  lemma SharedAvoidsAdmin(vw: VirtualWorkspace, shared: SecretMount, admin: SecretMount)
    requires shared in SharedSecrets(vw) && admin in AdminSecrets(vw)
    ensures shared.volumeName != admin.volumeName && shared.mountPath != admin.mountPath
  {
  }

  /** The operator's own mounts, shared and fallback. */
  function FixedSecrets(vw: VirtualWorkspace): seq<SecretMount> {
    SharedSecrets(vw) + AdminSecrets(vw)
  }

  /** No extra volume of the user takes the name of this one, or the first that does is the same volume. */
  predicate NotShadowed(vw: VirtualWorkspace, sm: SecretMount) {
    !Declares(vw.extraVolumes, sm.volumeName) || Lookup(vw.extraVolumes, sm.volumeName) == Some(sm.Vol())
  }

  /** The API keeps init containers as a list keyed by name. */
  ghost predicate DistinctInits(vw: VirtualWorkspace) {
    forall i, j | 0 <= i < j < |vw.initContainers| :: vw.initContainers[i].name != vw.initContainers[j].name
  }

  /**
   Names alone do not decide what a container sees, because the user's extra volumes come first. For every container
   and every Secret the operator mounts into it, be it shared, the admin fallback or the container's own kubeconfig, the
   container sees that Secret if and only if no extra volume shadows it.
   */
  lemma MountShowsItsSecretIffNotShadowed(vw: VirtualWorkspace, r: Request, sm: SecretMount)
    requires DistinctInits(vw) && r in Requests(vw)
    requires sm in OperatorSecrets(SharedSecrets(vw), AdminSecrets(vw), r)
    ensures Lookup(Dedupe(Declared(vw)), sm.volumeName) == Some(sm.Vol()) <==> NotShadowed(vw, sm)
  {
    if sm in FixedSecrets(vw) {
      var i :| 0 <= i < |FixedSecrets(vw)| && FixedSecrets(vw)[i] == sm;
      FixedMountShowsIff(vw, i);
    } else {
      assert sm in OwnSecret(r);
      OwnMountShowsIff(vw, r, sm);
    }
  }

  lemma FixedMountShowsIff(vw: VirtualWorkspace, i: nat)
    requires i < |FixedSecrets(vw)|
    ensures var sm := FixedSecrets(vw)[i]; Lookup(Dedupe(Declared(vw)), sm.volumeName) == Some(sm.Vol()) <==> NotShadowed(vw, sm)
  {
    var fixed := FixedSecrets(vw);
    var name := fixed[i].volumeName;
    assert Volumes(fixed)[i].name == name;
    DeclarationOrder(vw, name);
    FixedLookup(vw, i);
  }

  lemma OwnMountShowsIff(vw: VirtualWorkspace, r: Request, sm: SecretMount)
    requires DistinctInits(vw) && r in Requests(vw) && sm in OwnSecret(r)
    ensures Lookup(Dedupe(Declared(vw)), sm.volumeName) == Some(sm.Vol()) <==> NotShadowed(vw, sm)
  {
    DeclarationOrder(vw, sm.volumeName);
    OwnNameIsNotFixed(vw, r);
    RequestNamesDiffer(vw);
    OneDeclared(r);
    OwnSecretDeclared(Requests(vw), r, sm.volumeName);
    OwnLookup(Requests(vw), r);
  }

  /** The first of four lists to declare a name decides. */
  function FirstOf(a: seq<Volume>, b: seq<Volume>, c: seq<Volume>, d: seq<Volume>, name: string): Option<Volume> {
    if Declares(a, name) then Lookup(a, name)
    else if Declares(b, name) then Lookup(b, name)
    else if Declares(c, name) then Lookup(c, name)
    else Lookup(d, name)
  }

  lemma LookupInFour(a: seq<Volume>, b: seq<Volume>, c: seq<Volume>, d: seq<Volume>, name: string)
    ensures Lookup(a + b + c + d, name) == FirstOf(a, b, c, d, name)
  {
    assert a + b + c + d == a + (b + (c + d));
    LookupConcat(a, b + (c + d), name);
    LookupConcat(b, c + d, name);
    LookupConcat(c, d, name);
  }

  /** The first declaration of a name: the user's, then the fixed ones, then the kubeconfigs. */
  lemma DeclarationOrder(vw: VirtualWorkspace, name: string)
    ensures Lookup(Dedupe(Declared(vw)), name) ==
      FirstOf(vw.extraVolumes, Volumes(FixedSecrets(vw)), Volumes(OwnSecrets(Requests(vw))), InitVolumes(vw.initContainers), name)
  {
    var own, inits := Volumes(OwnSecrets(Requests(vw))), InitVolumes(vw.initContainers);
    DedupeKeepsFirst(Declared(vw));
    FixedComeTogether(vw, SharedSecrets(vw), AdminSecrets(vw));
    LookupInFour(vw.extraVolumes, Volumes(FixedSecrets(vw)), own, inits, name);
  }

  lemma FixedComeTogether(vw: VirtualWorkspace, shared: seq<SecretMount>, admin: seq<SecretMount>)
    ensures DeclaredWith(vw, shared, admin)
         == vw.extraVolumes + Volumes(shared + admin) + Volumes(OwnSecrets(Requests(vw))) + InitVolumes(vw.initContainers)
  {
    VolumesConcat(shared, admin);
    assert vw.extraVolumes + Volumes(shared) + Volumes(admin) == vw.extraVolumes + (Volumes(shared) + Volumes(admin));
  }

  ghost predicate DistinctVolumeNames(rs: seq<Request>) {
    forall i, j | 0 <= i < j < |rs| :: rs[i].volumeName != rs[j].volumeName
  }

  lemma RequestNamesDiffer(vw: VirtualWorkspace)
    requires DistinctInits(vw)
    ensures DistinctVolumeNames(Requests(vw))
  {
    var rs := Requests(vw);
    forall i, j | 0 <= i < j < |rs|
      ensures rs[i].volumeName != rs[j].volumeName
    {
      if i == 0 {
        assert rs[i].volumeName[0] == 's' && rs[j].volumeName[0] == 'i';
      } else if rs[i].volumeName == rs[j].volumeName {
        InitNameInjective(vw.initContainers[i - 1].name, vw.initContainers[j - 1].name);
      }
    }
  }

  lemma InitNameInjective(a: string, b: string)
    requires "init-" + a + "-kubeconfig" == "init-" + b + "-kubeconfig"
    ensures a == b
  {
    var n := "init-" + a + "-kubeconfig";
    assert |a| == |b| && a == n[5..5 + |a|] && b == n[5..5 + |b|];
  }

  lemma OwnNameIsNotFixed(vw: VirtualWorkspace, r: Request)
    requires r in Requests(vw)
    ensures !Declares(Volumes(FixedSecrets(vw)), r.volumeName)
  {
    var fixed, name := FixedSecrets(vw), r.volumeName;
    assert |name| >= 1 && (name[0] == 'i' || |name| == 17) by {
      var i :| 0 <= i < |Requests(vw)| && Requests(vw)[i] == r;
    }
    forall j | 0 <= j < |fixed|
      ensures Volumes(fixed)[j].name != name
    {
      FixedNamesAreOthers(vw, fixed[j]);
    }
  }

  lemma FixedNamesAreOthers(vw: VirtualWorkspace, sm: SecretMount)
    requires sm in FixedSecrets(vw)
    ensures |sm.volumeName| >= 1 && |sm.volumeName| != 17 && sm.volumeName[0] != 'i'
  {
  }

  lemma {:induction false} OwnNamesComeFromRequests(rs: seq<Request>, name: string)
    requires Declares(Volumes(OwnSecrets(rs)), name)
    ensures exists r | r in rs :: r.volumeName == name
    decreases |rs|
  {
    if rs != [] {
      var front, last := rs[..|rs| - 1], rs[|rs| - 1];
      assert rs == front + [last];
      OwnSecretsSnoc(front, last);
      DeclaresConcat(Volumes(OwnSecrets(front)), Volumes(OwnSecret(last)), name);
      if Declares(Volumes(OwnSecrets(front)), name) {
        OwnNamesComeFromRequests(front, name);
      }
    }
  }

  lemma {:induction false} OwnLookup(rs: seq<Request>, r: Request)
    requires DistinctVolumeNames(rs) && r in rs && r.kubeconfig.Some?
    ensures Lookup(Volumes(OwnSecrets(rs)), r.volumeName) == Some(OwnSecret(r)[0].Vol())
    decreases |rs|
  {
    var front, last := rs[..|rs| - 1], rs[|rs| - 1];
    assert rs == front + [last];
    OwnSecretsSnoc(front, last);
    LookupConcat(Volumes(OwnSecrets(front)), Volumes(OwnSecret(last)), r.volumeName);
    if r in front {
      OwnLookup(front, r);
      OneDeclared(r);
      OwnSecretDeclared(front, r, r.volumeName);
    } else if Declares(Volumes(OwnSecrets(front)), r.volumeName) {
      OwnNamesComeFromRequests(front, r.volumeName);
      assert false;
    }
  }

  lemma OneDeclared(r: Request)
    requires r.kubeconfig.Some?
    ensures Declares(Volumes(OwnSecret(r)), r.volumeName)
  {
    assert Volumes(OwnSecret(r))[0].name == r.volumeName;
  }

  lemma FixedLookup(vw: VirtualWorkspace, i: nat)
    requires i < |FixedSecrets(vw)|
    ensures Lookup(Volumes(FixedSecrets(vw)), FixedSecrets(vw)[i].volumeName) == Some(FixedSecrets(vw)[i].Vol())
  {
    var fixed := FixedSecrets(vw);
    forall j, k | 0 <= j < k < |fixed|
      ensures fixed[j].volumeName != fixed[k].volumeName
    {
    }
    DistinctLookup(Volumes(fixed), i);
  }

  lemma {:induction false} DistinctLookup(vs: seq<Volume>, i: nat)
    requires i < |vs| && forall j, k | 0 <= j < k < |vs| :: vs[j].name != vs[k].name
    ensures Lookup(vs, vs[i].name) == Some(vs[i])
    decreases |vs|
  {
    if i > 0 {
      assert vs[0].name != vs[i].name;
      DistinctLookup(vs[1..], i - 1);
    }
  }
}
