/**
 Service account keys are mounted under names made from shard names, next to everything else a shard's pod mounts. The
 API server rejects a pod with two volumes of one name or two mounts at one path; this is when the keys bring that about.
 */
module ShardPodNames {
  import opened Wrappers
  import opened Ordering
  import opened ShardPod

  function Names(volumes: seq<Volume>): (r: seq<string>)
    ensures |r| == |volumes|
  {
    seq(|volumes|, i requires 0 <= i < |volumes| => volumes[i].name)
  }

  function Paths(mounts: seq<Mount>): (r: seq<Path>)
    ensures |r| == |mounts|
  {
    seq(|mounts|, i requires 0 <= i < |mounts| => mounts[i].path)
  }

  /** No two of `added` are equal, and none is among `present`. */
  ghost predicate NoClash<T(!new)>(present: seq<T>, added: seq<T>) {
    && Distinct(added)
    && (forall x | x in added :: x !in present)
  }

  function KeysOff(s: Shard): Shard {
    s.(auth := Some(AuthOf(s).(serviceAccount := None)))
  }

  /** What the operator puts into the pod on its own account, and what that is without the service account keys. */
  function WithoutExtras(s: Shard): Shard {
    s.(extraVolumes := [], extraMounts := [])
  }

  function WithoutKeys(s: Shard): Shard {
    KeysOff(WithoutExtras(s))
  }

  /** Ends in something else than "nt", the end of every name of a service account volume. */
  ghost predicate OtherEnding(name: string) {
    |name| >= 2 && (name[|name| - 2] != 'n' || name[|name| - 1] != 't')
  }

  /** At a depth where service account keys go, only the directory of CAs is used. */
  ghost predicate OtherPlace(path: Path) {
    |path| == 5 ==> path[3] == "ca"
  }

  ghost predicate OutOfTheWay(p: Part) {
    && (forall v | v in p.volumes :: OtherEnding(v.name))
    && (forall m | m in p.mounts :: OtherPlace(m.path))
  }

  lemma PlusOutOfTheWay(p: Part, q: Part)
    requires OutOfTheWay(p) && OutOfTheWay(q)
    ensures OutOfTheWay(Plus(p, q))
  {
  }

  lemma BuiltOutOfTheWay(args: seq<Arg>, sms: seq<SecretMount>)
    requires forall sm | sm in sms :: OtherEnding(sm.volumeName) && OtherPlace(sm.mountPath)
    ensures OutOfTheWay(Built(args, sms))
  {
  }

  lemma MountsForOutOfTheWay(s: Shard, kind: Kind, names: seq<string>)
    ensures forall sm | sm in MountsFor(s, kind, names) :: OtherEnding(sm.volumeName) && OtherPlace(sm.mountPath)
  {
  }

  lemma OthersOutOfTheWay(s: Shard, sm: SecretMount)
    requires sm == RootCAMount(s) || sm == ClientCAMount(s) || sm in CABundleMounts(s) || sm in CacheMounts(CacheRef(s))
    ensures OtherEnding(sm.volumeName) && OtherPlace(sm.mountPath)
  {
  }

  lemma BaseOutOfTheWay(s: Shard, args: seq<Arg>, kubeconfigs: seq<string>, cas: seq<string>, certs: seq<string>)
    ensures OutOfTheWay(Built(args, SecretMountsOf(s, kubeconfigs, cas, certs)))
  {
    MountsForOutOfTheWay(s, ForKubeconfig, kubeconfigs);
    MountsForOutOfTheWay(s, ForCA, cas);
    MountsForOutOfTheWay(s, ForCertificate, certs);
    forall sm | sm == RootCAMount(s) || sm == ClientCAMount(s) || sm in CABundleMounts(s) || sm in CacheMounts(CacheRef(s))
      ensures OtherEnding(sm.volumeName) && OtherPlace(sm.mountPath)
    {
      OthersOutOfTheWay(s, sm);
    }
    BuiltOutOfTheWay(args, SecretMountsOf(s, kubeconfigs, cas, certs));
  }

  lemma ConfigOutOfTheWay(s: Shard)
    requires s.extraVolumes == [] && s.extraMounts == []
    ensures OutOfTheWay(ConfigPart(s))
  {
  }

  lemma AuthOutOfTheWay(s: Shard)
    requires s.auth.Some? && s.auth.value.serviceAccount.None?
    ensures OutOfTheWay(AuthPart(s))
  {
  }

  lemma PodOutOfTheWay(s: Shard)
    ensures OutOfTheWay(Pod(WithoutKeys(s)))
  {
    var t := WithoutKeys(s);
    BaseOutOfTheWay(t, BaseArgs(t), KUBECONFIGS, CAS, Certificates(t));
    ConfigOutOfTheWay(t);
    AuthOutOfTheWay(t);
    var base := Built(BaseArgs(t), SecretMounts(t));
    PlusOutOfTheWay(base, ConfigPart(t));
    PlusOutOfTheWay(Plus(base, ConfigPart(t)), AuthPart(t));
  }

  lemma SecretInjective(a: string, b: string)
    requires PeerSecret(a) == PeerSecret(b)
    ensures a == b
  {
    assert a == PeerSecret(a)[..|a|] && |a| == |b|;
    assert b == PeerSecret(b)[..|b|];
  }

  lemma PathInjective(a: string, b: string)
    ensures PeerPath(a) == PeerPath(b) <==> a == b
  {
  }

  lemma PeerNamesDistinctIff(peers: seq<string>)
    ensures Distinct(Names(PeerPart(peers).volumes)) <==> Distinct(peers)
    ensures Distinct(Paths(PeerPart(peers).mounts)) <==> Distinct(peers)
  {
    var names, paths := Names(PeerPart(peers).volumes), Paths(PeerPart(peers).mounts);
    forall i, j | 0 <= i < j < |peers|
      ensures names[i] == names[j] <==> peers[i] == peers[j]
      ensures paths[i] == paths[j] <==> peers[i] == peers[j]
    {
      if names[i] == names[j] {
        SecretInjective(peers[i], peers[j]);
      }
      PathInjective(peers[i], peers[j]);
    }
  }

  lemma KeyNamesAreOwn(p: Part, peers: seq<string>)
    requires OutOfTheWay(p)
    ensures forall n | n in Names(PeerPart(peers).volumes) :: n !in Names(p.volumes)
  {
  }

  lemma KeyPathTakenOnlyForCA(p: Part, peer: string)
    requires OutOfTheWay(p) && PeerPath(peer) in Paths(p.mounts)
    ensures peer == "ca"
  {
  }

  lemma PathListed(p: Part, m: Mount)
    requires m in p.mounts
    ensures m.path in Paths(p.mounts)
  {
    var j :| 0 <= j < |p.mounts| && p.mounts[j] == m;
    assert Paths(p.mounts)[j] == m.path;
  }

  lemma ServiceAccountCAMounted(s: Shard)
    ensures CAPath("service-account") in Paths(Pod(s).mounts)
  {
    var base := Built(BaseArgs(s), SecretMounts(s));
    BaseShows(s, BaseArgs(s), ForCA, "service-account");
    var m :| m in base.mounts && m.path == CAPath("service-account");
    assert m in Pod(s).mounts;
    PathListed(Pod(s), m);
  }

  /** A service account key's mount path is taken exactly if the shard it belongs to is called "ca". */
  lemma KeyPathTakenIffCA(s: Shard, peer: string)
    ensures PeerPath(peer) in Paths(Pod(WithoutKeys(s)).mounts) <==> peer == "ca"
  {
    PodOutOfTheWay(s);
    ServiceAccountCAMounted(WithoutKeys(s));
    if PeerPath(peer) in Paths(Pod(WithoutKeys(s)).mounts) {
      KeyPathTakenOnlyForCA(Pod(WithoutKeys(s)), peer);
    }
  }

  /** Adding the keys keeps volume names apart exactly if no shard is listed twice or shares its root shard's name. */
  lemma VolumesClashIff(s: Shard)
    ensures NoClash(Names(Pod(WithoutKeys(s)).volumes), Names(PeerPart([s.rootShard] + s.shards).volumes)) <==>
      Distinct([s.rootShard] + s.shards)
  {
    PodOutOfTheWay(s);
    PeerNamesDistinctIff([s.rootShard] + s.shards);
    KeyNamesAreOwn(Pod(WithoutKeys(s)), [s.rootShard] + s.shards);
  }

  lemma ClashIff(present: seq<Path>, peers: seq<string>)
    requires forall peer | peer in peers :: PeerPath(peer) in present <==> peer == "ca"
    ensures NoClash(present, Paths(PeerPart(peers).mounts)) <==> Distinct(peers) && "ca" !in peers
  {
    var paths := Paths(PeerPart(peers).mounts);
    PeerNamesDistinctIff(peers);
    forall i | 0 <= i < |peers|
      ensures paths[i] == PeerPath(peers[i]) && paths[i] in paths && peers[i] in peers
    {
    }
  }

  /** For mount paths, moreover, neither the root shard nor any shard may be called "ca". */
  lemma MountsClashIff(s: Shard)
    ensures NoClash(Paths(Pod(WithoutKeys(s)).mounts), Paths(PeerPart([s.rootShard] + s.shards).mounts)) <==>
      Distinct([s.rootShard] + s.shards) && "ca" !in [s.rootShard] + s.shards
  {
    forall peer | peer in [s.rootShard] + s.shards
      ensures PeerPath(peer) in Paths(Pod(WithoutKeys(s)).mounts) <==> peer == "ca"
    {
      KeyPathTakenIffCA(s, peer);
    }
    ClashIff(Paths(Pod(WithoutKeys(s)).mounts), [s.rootShard] + s.shards);
  }

  function Peers(s: Shard): seq<string> {
    [s.rootShard] + s.shards
  }

  predicate KeysOn(s: Shard) {
    s.auth.Some? && s.auth.value.serviceAccount == Some(true)
  }

  lemma SameMounts(s: Shard, t: Shard, kind: Kind, names: seq<string>)
    requires s.name == t.name && s.rootShard == t.rootShard
    ensures MountsFor(s, kind, names) == MountsFor(t, kind, names)
  {
  }

  lemma SameBase(s: Shard)
    ensures Built(BaseArgs(KeysOff(s)), SecretMounts(KeysOff(s))) == Built(BaseArgs(s), SecretMounts(s))
  {
    SameMounts(s, KeysOff(s), ForKubeconfig, KUBECONFIGS);
    SameMounts(s, KeysOff(s), ForCA, CAS);
    SameMounts(s, KeysOff(s), ForCertificate, Certificates(s));
  }

  /** The pod of a shard is the pod it would have without service account keys, and the keys, if they are on, after it. */
  lemma PodSplits(s: Shard)
    ensures Pod(s) == Plus(Pod(KeysOff(s)), if KeysOn(s) then PeerPart(Peers(s)) else NOTHING)
  {
    var t, keys := KeysOff(s), if KeysOn(s) then PeerPart(Peers(s)) else NOTHING;
    SameBase(s);
    assert ConfigPart(t) == ConfigPart(s);
    AuthSplits(s);
    PlusAssociative(Plus(Built(BaseArgs(s), SecretMounts(s)), ConfigPart(s)), AuthPart(t), keys);
  }

  lemma AuthSplits(s: Shard)
    ensures AuthPart(s) == Plus(AuthPart(KeysOff(s)), if KeysOn(s) then PeerPart(Peers(s)) else NOTHING)
  {
  }
}
