/** What each container of a virtual workspace's pod sees at which path, read off the fields of the workspace alone. */
module VirtualWorkspaceSecrets {
  import opened Wrappers
  import opened VirtualWorkspacePod

  /** The container has a mount at this path, and the volume of that mount's name is this Secret. */
  ghost predicate Sees(c: Container, volumes: seq<Volume>, path: string, secret: string) {
    exists m | m in c.mounts :: m.path == path && Lookup(volumes, m.name) == Some(Volume(m.name, SecretSource(secret)))
  }

  /** No extra volume of the user hides a Secret the operator mounts into this container. */
  ghost predicate Unshadowed(vw: VirtualWorkspace, r: Request) {
    forall sm | sm in OperatorSecrets(SharedSecrets(vw), AdminSecrets(vw), r) :: NotShadowed(vw, sm)
  }

  /** The pod as RenderPod returns it. */
  ghost predicate IsRendered(vw: VirtualWorkspace, containers: seq<Container>, volumes: seq<Volume>) {
    volumes == Dedupe(Declared(vw)) && containers == AllRendered(SharedSecrets(vw), AdminSecrets(vw), Requests(vw))
  }

  lemma SecretIsSeen(vw: VirtualWorkspace, shared: seq<SecretMount>, admin: seq<SecretMount>, r: Request, sm: SecretMount)
    requires shared == SharedSecrets(vw) && admin == AdminSecrets(vw)
    requires DistinctInits(vw) && r in Requests(vw) && sm in OperatorSecrets(shared, admin, r) && NotShadowed(vw, sm)
    ensures Sees(Rendered(shared, admin, r), Dedupe(Declared(vw)), sm.mountPath, sm.secretName)
  {
    MountShowsItsSecretIffNotShadowed(vw, r, sm);
    var sms := OperatorSecrets(shared, admin, r);
    var i :| 0 <= i < |sms| && sms[i] == sm;
    assert Mounts(sms)[i] == sm.Mnt();
    assert sm.Mnt() in Rendered(shared, admin, r).mounts;
  }

  lemma RequestAt(vw: VirtualWorkspace, i: nat)
    requires i <= |vw.initContainers|
    ensures |Requests(vw)| == 1 + |vw.initContainers| && Requests(vw)[i] in Requests(vw)
    ensures Requests(vw)[i] == if i == 0 then ServerRequest(vw) else InitRequest(vw.initContainers[i - 1])
  {
  }

  /** The CAs and the serving certificate are there in every container. */
  lemma EveryContainerSees(vw: VirtualWorkspace, containers: seq<Container>, volumes: seq<Volume>, i: nat)
    requires IsRendered(vw, containers, volumes) && DistinctInits(vw)
    requires i <= |vw.initContainers| && Unshadowed(vw, Requests(vw)[i])
    ensures |containers| == 1 + |vw.initContainers|
    ensures Sees(containers[i], volumes, "/etc/kcp/tls/ca/root", vw.rootShard + "-ca")
    ensures Sees(containers[i], volumes, "/etc/kcp/tls/ca/server", vw.rootShard + "-server-ca")
    ensures Sees(containers[i], volumes, "/etc/kcp/tls/ca/requestheader-client", vw.rootShard + "-requestheader-client-ca")
    ensures vw.mergedClientCA ==> Sees(containers[i], volumes, "/etc/kcp/tls/ca/client", vw.name + "-merged-client-ca")
    ensures !vw.mergedClientCA ==> Sees(containers[i], volumes, "/etc/kcp/tls/ca/client", vw.rootShard + "-client-ca")
    ensures Sees(containers[i], volumes, "/etc/kcp/tls/server", vw.name + "-server")
  {
    RequestAt(vw, i);
    var shared, admin, r := SharedSecrets(vw), AdminSecrets(vw), Requests(vw)[i];
    forall j | 0 <= j < 5
      ensures Sees(containers[i], volumes, shared[j].mountPath, shared[j].secretName)
    {
      assert shared[j] in OperatorSecrets(shared, admin, r);
      SecretIsSeen(vw, shared, admin, r, shared[j]);
    }
    assert Sees(containers[i], volumes, shared[0].mountPath, shared[0].secretName);
    assert Sees(containers[i], volumes, shared[1].mountPath, shared[1].secretName);
    assert Sees(containers[i], volumes, shared[2].mountPath, shared[2].secretName);
    assert Sees(containers[i], volumes, shared[3].mountPath, shared[3].secretName);
    assert Sees(containers[i], volumes, shared[4].mountPath, shared[4].secretName);
  }

  /** The Secrets of the cache server: that of the shard, if there is a shard and it has one, else that of the RootShard. */
  lemma CacheIsSeen(vw: VirtualWorkspace, containers: seq<Container>, volumes: seq<Volume>, i: nat, cache: string)
    requires IsRendered(vw, containers, volumes) && DistinctInits(vw)
    requires i <= |vw.initContainers| && Unshadowed(vw, Requests(vw)[i])
    requires cache != ""
    requires if vw.shard.Some? && vw.shardCache.Some? then vw.shardCache == Some(cache) else vw.rootShardCache == Some(cache)
    ensures |containers| == 1 + |vw.initContainers|
    ensures Sees(containers[i], volumes, "/etc/cache-server/kubeconfig", cache + "-kubeconfig")
    ensures Sees(containers[i], volumes, "/etc/cache-server/tls/ca/root", cache + "-ca")
    ensures Sees(containers[i], volumes, "/etc/cache-server/tls/client-certificate", cache + "-client-certificate")
  {
    RequestAt(vw, i);
    var shared, admin, r := SharedSecrets(vw), AdminSecrets(vw), Requests(vw)[i];
    assert EffectiveCacheRef(vw) == cache && |shared| == 8;
    forall j | 5 <= j < 8
      ensures Sees(containers[i], volumes, shared[j].mountPath, shared[j].secretName)
    {
      assert shared[j] in OperatorSecrets(shared, admin, r);
      SecretIsSeen(vw, shared, admin, r, shared[j]);
    }
    assert Sees(containers[i], volumes, shared[5].mountPath, shared[5].secretName);
    assert Sees(containers[i], volumes, shared[6].mountPath, shared[6].secretName);
    assert Sees(containers[i], volumes, shared[7].mountPath, shared[7].secretName);
  }

  /**
   Which identity a container acts with: its own kubeconfig if it brings one, else the logical-cluster admin of the
   shard, or of the RootShard if the workspace is not tied to a shard, together with the client certificate.
   */
  lemma IdentityIsSeen(vw: VirtualWorkspace, containers: seq<Container>, volumes: seq<Volume>, i: nat)
    requires IsRendered(vw, containers, volumes) && DistinctInits(vw)
    requires i <= |vw.initContainers| && Unshadowed(vw, Requests(vw)[i])
    ensures |containers| == 1 + |vw.initContainers|
    ensures var own := if i == 0 then vw.kubeconfig else vw.initContainers[i - 1].kubeconfig;
      match own
      case Some(secret) =>
        Sees(containers[i], volumes, if i == 0 then "/etc/kcp/server-kubeconfig" else "/etc/kcp/init-kubeconfig", secret)
      case None =>
        && Sees(containers[i], volumes, "/etc/kcp/tls/logical-cluster-admin", vw.name + "-client")
        && Sees(containers[i], volumes, "/etc/kcp/logical-cluster-admin-kubeconfig",
                (if vw.shard.Some? then vw.shard.value else vw.rootShard) + "-logical-cluster-admin-kubeconfig")
  {
    RequestAt(vw, i);
    var shared, admin, r := SharedSecrets(vw), AdminSecrets(vw), Requests(vw)[i];
    if r.kubeconfig.None? {
      assert admin[0] in admin && admin[1] in admin;
      SecretIsSeen(vw, shared, admin, r, admin[0]);
      SecretIsSeen(vw, shared, admin, r, admin[1]);
    } else {
      var own := OwnSecret(r)[0];
      assert own in OwnSecret(r);
      SecretIsSeen(vw, shared, admin, r, own);
    }
  }

  /** Names and extra mounts are those asked for, server first. */
  lemma ContainersAreAsAsked(vw: VirtualWorkspace, containers: seq<Container>, volumes: seq<Volume>)
    requires IsRendered(vw, containers, volumes)
    ensures |containers| == 1 + |vw.initContainers| && containers[0].name == "kcp"
    ensures forall m | m in vw.extraMounts :: m in containers[0].mounts
    ensures forall i | 0 <= i < |vw.initContainers| :: containers[i + 1].name == vw.initContainers[i].name
    ensures forall i, m | 0 <= i < |vw.initContainers| && m in vw.initContainers[i].mounts :: m in containers[i + 1].mounts
  {
    var shared, admin := SharedSecrets(vw), AdminSecrets(vw);
    assert containers[0] == Rendered(shared, admin, ServerRequest(vw));
    forall i | 0 <= i < |vw.initContainers|
      ensures containers[i + 1] == Rendered(shared, admin, InitRequest(vw.initContainers[i]))
    {
      RequestAt(vw, i + 1);
    }
  }

  /** Every volume a user declares, for the pod or with an init container, has its name in the pod; the first one declared wins. */
  lemma UserVolumesAreDeclared(vw: VirtualWorkspace, v: Volume)
    requires v in vw.extraVolumes || exists i | i in vw.initContainers :: v in i.volumes
    ensures Declares(Dedupe(Declared(vw)), v.name)
  {
    DedupeKeepsFirst(Declared(vw));
    if v in vw.extraVolumes {
      var k :| 0 <= k < |vw.extraVolumes| && vw.extraVolumes[k] == v;
      assert Declared(vw)[k] == v;
    } else {
      InitVolumesHave(vw.initContainers, v);
      var inits := InitVolumes(vw.initContainers);
      var k :| 0 <= k < |inits| && inits[k] == v;
      assert Declared(vw)[|Declared(vw)| - |inits| + k] == v;
    }
  }

  lemma {:induction false} InitVolumesHave(inits: seq<InitSpec>, v: Volume)
    requires exists i | i in inits :: v in i.volumes
    ensures v in InitVolumes(inits)
    decreases |inits|
  {
    if inits != [] && v !in inits[|inits| - 1].volumes {
      var i :| i in inits && v in i.volumes;
      assert i in inits[..|inits| - 1];
      InitVolumesHave(inits[..|inits| - 1], v);
    }
  }
}
