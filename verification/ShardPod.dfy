/**
 The pod of a shard: the deployment starts from a fixed set of arguments and mounts, and then one routine per feature
 appends arguments, mounts and volumes to it in place. Paths are lists of segments; arguments that name no file
 are left out, except for the ones users add.
 */
module ShardPod {
  import opened Wrappers

  type Path = seq<string>

  datatype Source = Secret(secret: string) | ConfigMap(configMap: string) | Other(description: string)
  datatype Volume = Volume(name: string, source: Source)
  datatype Mount = Mount(volume: string, path: Path)

  /** The flags that take a file. PeerServiceAccountKey is --service-account-key-file for another shard's key. */
  datatype FileFlag =
    | RootCA | ClientCA | RequestHeaderClientCA | TLSKey | TLSCert
    | ServiceAccountKey | ServiceAccountPrivateKey | PeerServiceAccountKey(peer: string)
    | ShardClientKey | ShardClientCert | CacheKubeconfig | RootShardKubeconfig
    | LogicalClusterAdminKubeconfig | ExternalLogicalClusterAdminKubeconfig
    | MountProxyCert | MountProxyKey | VirtualWorkspaceCA | EtcdCert | EtcdKey | EtcdCA
    | AuditPolicy | AuditWebhook | AuthorizationWebhook | OIDCCA | AuthenticationWebhook | TokenAuthFile

  datatype Arg = FileArg(flag: FileFlag, dir: Path, file: string) | UserArg(text: string)

  datatype Part = Part(args: seq<Arg>, mounts: seq<Mount>, volumes: seq<Volume>)

  datatype KeyRef = KeyRef(name: string, key: string)
  datatype Audit = Audit(policy: Option<Option<KeyRef>>, webhook: Option<string>)
  datatype Auth = Auth(oidc: Option<Option<KeyRef>>, webhook: Option<string>, token: Option<KeyRef>, serviceAccount: Option<bool>)

  /**
   The parts of a CompiledShard its pod depends on. `mountsProxy` is the verdict on the kcp version, `authorization` the
   webhook's Secret name where there is a webhook; empty Secret names mean no Secret.
   */
  datatype Shard = Shard(
    name: string, rootShard: string, shards: seq<string>, mountsProxy: bool, mergedClientCA: bool, caBundle: bool,
    cache: Option<string>, rootShardCache: Option<string>, virtualWorkspace: bool, extraArgs: seq<string>,
    etcdTLS: Option<string>, audit: Option<Audit>, authorization: Option<Option<string>>,
    extraVolumes: seq<Volume>, extraMounts: seq<Mount>, auth: Option<Auth>)

  function CacheRef(s: Shard): string {
    if s.cache.Some? then s.cache.value else s.rootShardCache.GetOr("")
  }

  function CertificatePath(cert: string): Path { ["etc", "kcp", "tls", cert] }
  function CAPath(ca: string): Path { ["etc", "kcp", "tls", "ca", ca] }
  function KubeconfigPath(cert: string): Path { ["etc", "kcp", cert + "-kubeconfig"] }
  const CACHE_KUBECONFIG_PATH: Path := ["etc", "cache-server", "kubeconfig"]

  datatype SecretMount = SecretMount(volumeName: string, secretName: string, mountPath: Path) {
    function Vol(): Volume { Volume(volumeName, Secret(secretName)) }
    function Mnt(): Mount { Mount(volumeName, mountPath) }
  }

  // ----- What each feature adds -----

  datatype Kind = ForKubeconfig | ForCA | ForCertificate

  function MountFor(s: Shard, kind: Kind, name: string): SecretMount {
    match kind
    case ForKubeconfig => SecretMount(name + "-kubeconfig", s.name + "-" + name + "-kubeconfig", KubeconfigPath(name))
    case ForCA => SecretMount(name + "-ca", s.rootShard + "-" + name + "-ca", CAPath(name))
    case ForCertificate => SecretMount(name + "-cert", s.name + "-" + name, CertificatePath(name))
  }

  const KUBECONFIGS: seq<string> := ["client", "logical-cluster-admin", "external-logical-cluster-admin"]
  const CAS: seq<string> := ["server", "service-account", "requestheader-client"]
  const CERTIFICATES: seq<string> := ["server", "service-account", "client", "logical-cluster-admin", "external-logical-cluster-admin"]

  function Certificates(s: Shard): seq<string> {
    CERTIFICATES + if s.mountsProxy then ["mounts-proxy"] else []
  }

  function MountsFor(s: Shard, kind: Kind, names: seq<string>): (r: seq<SecretMount>)
    ensures |r| == |names|
    ensures forall i | 0 <= i < |names| :: r[i] == MountFor(s, kind, names[i])
  {
    if names == [] then [] else MountsFor(s, kind, names[..|names| - 1]) + [MountFor(s, kind, names[|names| - 1])]
  }

  function RootCAMount(s: Shard): SecretMount {
    SecretMount("kcp-ca", s.rootShard + "-ca", CAPath("root"))
  }

  function ClientCAMount(s: Shard): SecretMount {
    SecretMount("client-ca", if s.mergedClientCA then s.name + "-merged-client-ca" else s.rootShard + "-client-ca", CAPath("client"))
  }

  function CacheKubeconfigMount(cache: string): SecretMount {
    SecretMount("cache-server-kubeconfig", cache + "-kubeconfig", CACHE_KUBECONFIG_PATH)
  }

  function CacheMounts(cache: string): seq<SecretMount> {
    if cache == "" then [] else
    [ CacheKubeconfigMount(cache),
      SecretMount("cache-server-ca", cache + "-ca", ["etc", "cache-server", "tls", "ca", "root"]),
      SecretMount("cache-server-client-cert", cache + "-client-certificate", ["etc", "cache-server", "tls", "client-certificate"]) ]
  }

  function CABundleMounts(s: Shard): seq<SecretMount> {
    if s.caBundle then [SecretMount("ca-bundle", s.name + "-merged-ca-bundle", CAPath("ca-bundle"))] else []
  }

  function SecretMountsOf(s: Shard, kubeconfigs: seq<string>, cas: seq<string>, certs: seq<string>): seq<SecretMount> {
    [RootCAMount(s)]
    + MountsFor(s, ForKubeconfig, kubeconfigs)
    + MountsFor(s, ForCA, cas)
    + [ClientCAMount(s)]
    + MountsFor(s, ForCertificate, certs)
    + CABundleMounts(s)
    + CacheMounts(CacheRef(s))
  }

  function SecretMounts(s: Shard): seq<SecretMount> {
    SecretMountsOf(s, KUBECONFIGS, CAS, Certificates(s))
  }

  function UserArgs(texts: seq<string>): (r: seq<Arg>)
    ensures |r| == |texts|
  {
    seq(|texts|, i requires 0 <= i < |texts| => UserArg(texts[i]))
  }

  function CAArgs(): seq<Arg> {
    [ FileArg(RootCA, CAPath("root"), "tls.crt"),
      FileArg(ClientCA, CAPath("client"), "tls.crt"),
      FileArg(RequestHeaderClientCA, CAPath("requestheader-client"), "tls.crt") ]
  }

  function CertificateArgs(): seq<Arg> {
    [ FileArg(TLSKey, CertificatePath("server"), "tls.key"),
      FileArg(TLSCert, CertificatePath("server"), "tls.crt"),
      FileArg(ServiceAccountKey, CertificatePath("service-account"), "tls.crt"),
      FileArg(ServiceAccountPrivateKey, CertificatePath("service-account"), "tls.key"),
      FileArg(ShardClientKey, CertificatePath("client"), "tls.key"),
      FileArg(ShardClientCert, CertificatePath("client"), "tls.crt") ]
  }

  function CachePath(s: Shard): Path {
    if CacheRef(s) != "" then CACHE_KUBECONFIG_PATH else KubeconfigPath("client")
  }

  function KubeconfigArgs(cachePath: Path): seq<Arg> {
    [ FileArg(CacheKubeconfig, cachePath, "kubeconfig"),
      FileArg(RootShardKubeconfig, KubeconfigPath("client"), "kubeconfig"),
      FileArg(LogicalClusterAdminKubeconfig, KubeconfigPath("logical-cluster-admin"), "kubeconfig"),
      FileArg(ExternalLogicalClusterAdminKubeconfig, KubeconfigPath("external-logical-cluster-admin"), "kubeconfig") ]
  }

  function StaticArgs(s: Shard): seq<Arg> {
    CAArgs() + CertificateArgs() + KubeconfigArgs(CachePath(s))
  }

  function MountProxyArgs(s: Shard): seq<Arg> {
    if s.mountsProxy then
      [ FileArg(MountProxyCert, CertificatePath("mounts-proxy"), "tls.crt"),
        FileArg(MountProxyKey, CertificatePath("mounts-proxy"), "tls.key") ]
    else []
  }

  function VirtualWorkspaceArgs(s: Shard): seq<Arg> {
    if s.virtualWorkspace then [FileArg(VirtualWorkspaceCA, CAPath("server"), "tls.crt")] else []
  }

  function BaseArgs(s: Shard): seq<Arg> {
    StaticArgs(s) + MountProxyArgs(s) + UserArgs(s.extraArgs) + VirtualWorkspaceArgs(s)
  }

  function Built(args: seq<Arg>, sms: seq<SecretMount>): Part {
    Part(args, seq(|sms|, i requires 0 <= i < |sms| => sms[i].Mnt()), seq(|sms|, i requires 0 <= i < |sms| => sms[i].Vol()))
  }

  const NOTHING: Part := Part([], [], [])

  /** One volume, mounted once, with the arguments that refer to it. */
  function Single(args: seq<Arg>, name: string, source: Source, path: Path): Part {
    Part(args, [Mount(name, path)], [Volume(name, source)])
  }

  function EtcdPart(tls: Option<string>): Part {
    if tls.None? then NOTHING
    else
      var path := ["etc", "etcd", "tls"];
      Single([FileArg(EtcdCert, path, "tls.crt"), FileArg(EtcdKey, path, "tls.key"), FileArg(EtcdCA, path, "ca.crt")],
             "etcd-client-cert", Secret(tls.value), path)
  }

  function AuditPolicyPart(policy: Option<Option<KeyRef>>): Part {
    if policy.None? || policy.value.None? then NOTHING
    else
      var path := ["etc", "kcp", "audit", "policy"];
      Single([FileArg(AuditPolicy, path, policy.value.value.key)], "audit-policy", ConfigMap(policy.value.value.name), path)
  }

  function WebhookPart(flag: FileFlag, secret: Option<string>, volume: string, path: Path): Part {
    if secret.GetOr("") == "" then NOTHING
    else Single([FileArg(flag, path, "kubeconfig")], volume, Secret(secret.value), path)
  }

  function AuditWebhookPart(webhook: Option<string>): Part {
    WebhookPart(AuditWebhook, webhook, "audit-webhook-config", ["etc", "kcp", "audit", "webhook"])
  }

  function AuditPart(audit: Option<Audit>): Part {
    if audit.None? then NOTHING
    else Plus(AuditPolicyPart(audit.value.policy), AuditWebhookPart(audit.value.webhook))
  }

  function AuthorizationPart(authorization: Option<Option<string>>): Part {
    if authorization.None? then NOTHING
    else WebhookPart(AuthorizationWebhook, authorization.value, "authorization-webhook-config", ["etc", "kcp", "authorization", "webhook"])
  }

  function OIDCPart(oidc: Option<Option<KeyRef>>): Part {
    if oidc.None? || oidc.value.None? then NOTHING
    else
      var path := ["etc", "kcp", "tls", "oidc"];
      Single([FileArg(OIDCCA, path, oidc.value.value.key)], "oidc-ca-file", Secret(oidc.value.value.name), path)
  }

  function AuthenticationWebhookPart(webhook: Option<string>): Part {
    WebhookPart(AuthenticationWebhook, webhook, "authentication-webhook-config", ["etc", "kcp", "authentication", "webhook"])
  }

  function TokenPart(token: Option<KeyRef>): Part {
    if token.None? then NOTHING
    else
      var path := ["etc", "kcp", "authentication", "token"];
      Single([FileArg(TokenAuthFile, path, if token.value.key == "" then "token.csv" else token.value.key)],
             "token-auth-file", Secret(token.value.name), path)
  }

  function PeerSecret(peer: string): string { peer + "-service-account" }
  function PeerPath(peer: string): Path { ["etc", "kcp", "tls", peer, "service-account"] }

  function PeerPart(peers: seq<string>): Part {
    Part(seq(|peers|, i requires 0 <= i < |peers| => FileArg(PeerServiceAccountKey(peers[i]), PeerPath(peers[i]), "tls.crt")),
         seq(|peers|, i requires 0 <= i < |peers| => Mount(PeerSecret(peers[i]), PeerPath(peers[i]))),
         seq(|peers|, i requires 0 <= i < |peers| => Volume(PeerSecret(peers[i]), Secret(PeerSecret(peers[i])))))
  }

  function ServiceAccountPart(s: Shard, enabled: Option<bool>): Part {
    if enabled.GetOr(false) then PeerPart([s.rootShard] + s.shards) else NOTHING
  }

  function AuthPart(s: Shard): Part {
    if s.auth.None? then NOTHING
    else
      var a := s.auth.value;
      Plus(Plus(Plus(OIDCPart(a.oidc), AuthenticationWebhookPart(a.webhook)), TokenPart(a.token)), ServiceAccountPart(s, a.serviceAccount))
  }

  function Plus(p: Part, q: Part): Part {
    Part(p.args + q.args, p.mounts + q.mounts, p.volumes + q.volumes)
  }

  function ConfigPart(s: Shard): Part {
    Plus(Plus(Plus(EtcdPart(s.etcdTLS), AuditPart(s.audit)), AuthorizationPart(s.authorization)),
         Part([], s.extraMounts, s.extraVolumes))
  }

  function PodFrom(base: Part, s: Shard): Part {
    Plus(Plus(base, ConfigPart(s)), AuthPart(s))
  }

  function Pod(s: Shard): Part {
    PodFrom(Built(BaseArgs(s), SecretMounts(s)), s)
  }

  // ----- The code -----

  class Deployment {
    var args: seq<Arg>
    var mounts: seq<Mount>
    var volumes: seq<Volume>

    ghost function Contents(): Part
      reads this
    {
      Part(args, mounts, volumes)
    }

    method AddMount(name: string, source: Source, path: Path)
      modifies this`mounts, this`volumes
      ensures mounts == old(mounts) + [Mount(name, path)] && volumes == old(volumes) + [Volume(name, source)]
    {
      volumes := volumes + [Volume(name, source)];
      mounts := mounts + [Mount(name, path)];
    }

    method ApplyEtcdConfiguration(tls: Option<string>)
      modifies this
      ensures Contents() == Plus(old(Contents()), EtcdPart(tls))
    {
      if tls.Some? {
        var path := ["etc", "etcd", "tls"];
        AddMount("etcd-client-cert", Secret(tls.value), path);
        args := args + [FileArg(EtcdCert, path, "tls.crt"), FileArg(EtcdKey, path, "tls.key"), FileArg(EtcdCA, path, "ca.crt")];
      }
    }

    method ApplyAuditPolicyConfiguration(policy: Option<Option<KeyRef>>)
      modifies this
      ensures Contents() == Plus(old(Contents()), AuditPolicyPart(policy))
    {
      if policy.None? {
        return;
      }
      var extraArgs: seq<Arg> := [];
      if policy.value.Some? {
        var path := ["etc", "kcp", "audit", "policy"];
        AddMount("audit-policy", ConfigMap(policy.value.value.name), path);
        extraArgs := extraArgs + [FileArg(AuditPolicy, path, policy.value.value.key)];
      }
      args := args + extraArgs;
    }

    method ApplyWebhook(flag: FileFlag, secret: Option<string>, volume: string, path: Path)
      modifies this
      ensures Contents() == Plus(old(Contents()), WebhookPart(flag, secret, volume, path))
    {
      if secret.None? {
        return;
      }
      var extraArgs: seq<Arg> := [];
      if secret.value != "" {
        extraArgs := extraArgs + [FileArg(flag, path, "kubeconfig")];
        AddMount(volume, Secret(secret.value), path);
      }
      args := args + extraArgs;
    }

    method ApplyAuditConfiguration(audit: Option<Audit>)
      modifies this
      ensures Contents() == Plus(old(Contents()), AuditPart(audit))
    {
      if audit.None? {
        return;
      }
      ApplyAuditPolicyConfiguration(audit.value.policy);
      ApplyWebhook(AuditWebhook, audit.value.webhook, "audit-webhook-config", ["etc", "kcp", "audit", "webhook"]);
      PlusAssociative(old(Contents()), AuditPolicyPart(audit.value.policy), AuditWebhookPart(audit.value.webhook));
    }

    method ApplyAuthorizationConfiguration(authorization: Option<Option<string>>)
      modifies this
      ensures Contents() == Plus(old(Contents()), AuthorizationPart(authorization))
    {
      if authorization.Some? {
        ApplyWebhook(AuthorizationWebhook, authorization.value, "authorization-webhook-config",
                     ["etc", "kcp", "authorization", "webhook"]);
      }
    }

    method ApplyExtraVolumes(extraVolumes: seq<Volume>, extraMounts: seq<Mount>)
      modifies this
      ensures Contents() == Plus(old(Contents()), Part([], extraMounts, extraVolumes))
    {
      if |extraVolumes| == 0 && |extraMounts| == 0 {
        return;
      }
      volumes := volumes + extraVolumes;
      mounts := mounts + extraMounts;
    }

    method ApplyCommonShardConfig(s: Shard)
      modifies this
      ensures Contents() == Plus(old(Contents()), ConfigPart(s))
    {
      ApplyEtcdConfiguration(s.etcdTLS);
      ApplyAuditConfiguration(s.audit);
      ApplyAuthorizationConfiguration(s.authorization);
      ApplyExtraVolumes(s.extraVolumes, s.extraMounts);
      var etcd, audit, authorization, extra :=
        EtcdPart(s.etcdTLS), AuditPart(s.audit), AuthorizationPart(s.authorization), Part([], s.extraMounts, s.extraVolumes);
      FourPlus(old(Contents()), etcd, audit, authorization, extra);
    }

    method ApplyOIDCConfiguration(oidc: Option<Option<KeyRef>>)
      modifies this
      ensures Contents() == Plus(old(Contents()), OIDCPart(oidc))
    {
      if oidc.None? {
        return;
      }
      var extraArgs: seq<Arg> := [];
      if oidc.value.Some? {
        extraArgs := extraArgs + [FileArg(OIDCCA, ["etc", "kcp", "tls", "oidc"], oidc.value.value.key)];
        AddMount("oidc-ca-file", Secret(oidc.value.value.name), ["etc", "kcp", "tls", "oidc"]);
      }
      args := args + extraArgs;
    }

    method ApplyTokenAuthFile(token: Option<KeyRef>)
      modifies this
      ensures Contents() == Plus(old(Contents()), TokenPart(token))
    {
      if token.None? {
        return;
      }
      var path := ["etc", "kcp", "authentication", "token"];
      var key := token.value.key;
      if key == "" {
        key := "token.csv";
      }
      args := args + [FileArg(TokenAuthFile, path, key)];
      AddMount("token-auth-file", Secret(token.value.name), path);
    }

    method ApplyServiceAccountAuthentication(rootShard: string, shards: seq<string>)
      modifies this
      ensures Contents() == Plus(old(Contents()), PeerPart([rootShard] + shards))
    {
      ghost var peers := [rootShard] + shards;
      var newVolumes := [Volume(PeerSecret(rootShard), Secret(PeerSecret(rootShard)))];
      var newMounts := [Mount(PeerSecret(rootShard), PeerPath(rootShard))];
      for i := 0 to |shards|
        invariant newVolumes == PeerPart(peers[..i + 1]).volumes && newMounts == PeerPart(peers[..i + 1]).mounts
      {
        newVolumes := newVolumes + [Volume(PeerSecret(shards[i]), Secret(PeerSecret(shards[i])))];
        newMounts := newMounts + [Mount(PeerSecret(shards[i]), PeerPath(shards[i]))];
      }
      volumes := volumes + newVolumes;
      mounts := mounts + newMounts;
      var extraArgs := [FileArg(PeerServiceAccountKey(rootShard), PeerPath(rootShard), "tls.crt")];
      for i := 0 to |shards|
        invariant extraArgs == PeerPart(peers[..i + 1]).args
      {
        extraArgs := extraArgs + [FileArg(PeerServiceAccountKey(shards[i]), PeerPath(shards[i]), "tls.crt")];
      }
      args := args + extraArgs;
      assert peers[..|shards| + 1] == peers;
    }

    method ApplyAuthConfiguration(s: Shard)
      modifies this
      ensures Contents() == Plus(old(Contents()), AuthPart(s))
    {
      if s.auth.None? {
        return;
      }
      var auth := s.auth.value;
      ApplyOIDCConfiguration(auth.oidc);
      ApplyWebhook(AuthenticationWebhook, auth.webhook, "authentication-webhook-config", ["etc", "kcp", "authentication", "webhook"]);
      ApplyTokenAuthFile(auth.token);
      ghost var before := Contents();
      if auth.serviceAccount.Some? && auth.serviceAccount.value {
        ApplyServiceAccountAuthentication(s.rootShard, s.shards);
      }
      assert Contents() == Plus(before, ServiceAccountPart(s, auth.serviceAccount));
      FourPlus(old(Contents()), OIDCPart(auth.oidc), AuthenticationWebhookPart(auth.webhook), TokenPart(auth.token),
               ServiceAccountPart(s, auth.serviceAccount));
    }

    /** Fills a Deployment from scratch, whatever it held before. */
    method Reconcile(s: Shard)
      modifies this
      ensures Contents() == Pod(s)
    {
      var certs := CertificateList(s);
      var secretMounts := CollectSecretMounts(s, KUBECONFIGS, CAS, certs);
      var base := GetArgs(s);
      Assemble(s, base, secretMounts);
    }

    method Assemble(s: Shard, base: seq<Arg>, secretMounts: seq<SecretMount>)
      modifies this
      ensures Contents() == PodFrom(Built(base, secretMounts), s)
    {
      args := base;
      BuildMounts(secretMounts);
      ApplyCommonShardConfig(s);
      ApplyAuthConfiguration(s);
    }

    method BuildMounts(secretMounts: seq<SecretMount>)
      modifies this`mounts, this`volumes
      ensures Contents() == Built(args, secretMounts)
    {
      mounts, volumes := [], [];
      for i := 0 to |secretMounts|
        invariant Contents() == Built(args, secretMounts[..i])
      {
        volumes := volumes + [secretMounts[i].Vol()];
        mounts := mounts + [secretMounts[i].Mnt()];
      }
      assert secretMounts[..|secretMounts|] == secretMounts;
    }
  }

  method AppendMounts(sms: seq<SecretMount>, s: Shard, kind: Kind, names: seq<string>) returns (r: seq<SecretMount>)
    ensures r == sms + MountsFor(s, kind, names)
  {
    r := sms;
    for i := 0 to |names|
      invariant r == sms + MountsFor(s, kind, names[..i])
    {
      assert names[..i + 1][..i] == names[..i];
      r := r + [MountFor(s, kind, names[i])];
    }
    assert names[..|names|] == names;
  }

  method CertificateList(s: Shard) returns (certs: seq<string>)
    ensures certs == Certificates(s)
  {
    certs := CERTIFICATES;
    if s.mountsProxy {
      certs := certs + ["mounts-proxy"];
    }
  }

  method GetArgs(s: Shard) returns (args: seq<Arg>)
    ensures args == BaseArgs(s)
  {
    args := StaticArgs(s);
    if s.mountsProxy {
      args := args + MountProxyArgs(s);
    }
    args := args + UserArgs(s.extraArgs);
    if s.virtualWorkspace {
      args := args + VirtualWorkspaceArgs(s);
    }
  }

  method CollectSecretMounts(s: Shard, kubeconfigs: seq<string>, cas: seq<string>, certs: seq<string>) returns (r: seq<SecretMount>)
    ensures r == SecretMountsOf(s, kubeconfigs, cas, certs)
  {
    r := [RootCAMount(s)];
    r := AppendMounts(r, s, ForKubeconfig, kubeconfigs);
    r := AppendMounts(r, s, ForCA, cas);
    r := r + [ClientCAMount(s)];
    r := AppendMounts(r, s, ForCertificate, certs);
    if s.caBundle {
      r := r + [SecretMount("ca-bundle", s.name + "-merged-ca-bundle", CAPath("ca-bundle"))];
    }
    if CacheRef(s) != "" {
      r := r + CacheMounts(CacheRef(s));
    }
  }

  lemma PlusAssociative(p: Part, q: Part, r: Part)
    ensures Plus(Plus(p, q), r) == Plus(p, Plus(q, r))
  {
  }

  lemma FourPlus(p: Part, a: Part, b: Part, c: Part, d: Part)
    ensures Plus(Plus(Plus(Plus(p, a), b), c), d) == Plus(p, Plus(Plus(Plus(a, b), c), d))
  {
  }

  // ----- Every file argument leads to its Secret -----

  /** The object a flag is documented to read from, worked out independently of how the pod is put together. */
  ghost function ExpectedSource(s: Shard, flag: FileFlag): Source {
    match flag
    case RootCA => Secret(s.rootShard + "-ca")
    case ClientCA => Secret(if s.mergedClientCA then s.name + "-merged-client-ca" else s.rootShard + "-client-ca")
    case RequestHeaderClientCA => Secret(s.rootShard + "-" + "requestheader-client" + "-ca")
    case TLSKey => Secret(s.name + "-" + "server")
    case TLSCert => Secret(s.name + "-" + "server")
    case ServiceAccountKey => Secret(s.name + "-" + "service-account")
    case ServiceAccountPrivateKey => Secret(s.name + "-" + "service-account")
    case PeerServiceAccountKey(peer) => Secret(peer + "-service-account")
    case ShardClientKey => Secret(s.name + "-" + "client")
    case ShardClientCert => Secret(s.name + "-" + "client")
    case CacheKubeconfig =>
      // The shard's own cache server, else the RootShard's, else the shard itself.
      if s.cache.Some? && s.cache.value != "" then Secret(s.cache.value + "-kubeconfig")
      else if s.cache.None? && s.rootShardCache.GetOr("") != "" then Secret(s.rootShardCache.value + "-kubeconfig")
      else Secret(s.name + "-" + "client" + "-kubeconfig")
    case RootShardKubeconfig => Secret(s.name + "-" + "client" + "-kubeconfig")
    case LogicalClusterAdminKubeconfig => Secret(s.name + "-" + "logical-cluster-admin" + "-kubeconfig")
    case ExternalLogicalClusterAdminKubeconfig => Secret(s.name + "-" + "external-logical-cluster-admin" + "-kubeconfig")
    case MountProxyCert => Secret(s.name + "-" + "mounts-proxy")
    case MountProxyKey => Secret(s.name + "-" + "mounts-proxy")
    case VirtualWorkspaceCA => Secret(s.rootShard + "-" + "server" + "-ca")
    case EtcdCert => Secret(s.etcdTLS.GetOr(""))
    case EtcdKey => Secret(s.etcdTLS.GetOr(""))
    case EtcdCA => Secret(s.etcdTLS.GetOr(""))
    case AuditPolicy => ConfigMap(AuditOf(s).policy.GetOr(None).GetOr(NO_KEY).name)
    case AuditWebhook => Secret(AuditOf(s).webhook.GetOr(""))
    case AuthorizationWebhook => Secret(s.authorization.GetOr(None).GetOr(""))
    case OIDCCA => Secret(AuthOf(s).oidc.GetOr(None).GetOr(NO_KEY).name)
    case AuthenticationWebhook => Secret(AuthOf(s).webhook.GetOr(""))
    case TokenAuthFile => Secret(AuthOf(s).token.GetOr(NO_KEY).name)
  }

  const NO_KEY: KeyRef := KeyRef("", "")

  function AuditOf(s: Shard): Audit { s.audit.GetOr(Audit(None, None)) }
  function AuthOf(s: Shard): Auth { s.auth.GetOr(Auth(None, None, None, None)) }

  /** The directory of a file argument is a mount path, and a volume of that mount's name shows the given object there. */
  ghost predicate ShownAt(p: Part, dir: Path, source: Source) {
    exists m | m in p.mounts :: m.path == dir && Volume(m.volume, source) in p.volumes
  }

  ghost predicate HasVolume(p: Part, name: string) {
    exists v | v in p.volumes :: v.name == name
  }

  ghost predicate ArgsResolve(p: Part, s: Shard) {
    forall a | a in p.args && a.FileArg? :: ShownAt(p, a.dir, ExpectedSource(s, a.flag))
  }

  ghost predicate MountsResolve(p: Part, s: Shard) {
    forall m | m in p.mounts :: m in s.extraMounts || HasVolume(p, m.volume)
  }

  ghost predicate Coherent(p: Part, s: Shard) {
    ArgsResolve(p, s) && MountsResolve(p, s)
  }

  lemma PlusCoherent(p: Part, q: Part, s: Shard)
    requires Coherent(p, s) && Coherent(q, s)
    ensures Coherent(Plus(p, q), s)
  {
  }

  lemma SingleCoherent(args: seq<Arg>, name: string, source: Source, path: Path, s: Shard)
    requires forall a | a in args :: a.FileArg? && a.dir == path && ExpectedSource(s, a.flag) == source
    ensures Coherent(Single(args, name, source, path), s)
  {
  }

  lemma NothingCoherent(s: Shard)
    ensures Coherent(NOTHING, s)
  {
  }

  lemma BuiltShows(args: seq<Arg>, sms: seq<SecretMount>, sm: SecretMount)
    requires sm in sms
    ensures ShownAt(Built(args, sms), sm.mountPath, Secret(sm.secretName))
  {
    var i :| 0 <= i < |sms| && sms[i] == sm;
    var p := Built(args, sms);
    assert p.mounts[i] == sm.Mnt() && p.volumes[i] == sm.Vol();
  }

  lemma BuiltMountsResolve(args: seq<Arg>, sms: seq<SecretMount>, s: Shard)
    ensures MountsResolve(Built(args, sms), s)
  {
    var p := Built(args, sms);
    forall m | m in p.mounts
      ensures HasVolume(p, m.volume)
    {
      var i :| 0 <= i < |p.mounts| && p.mounts[i] == m;
      assert p.volumes[i].name == m.volume;
    }
  }

  lemma MountsForShows(s: Shard, kind: Kind, names: seq<string>, name: string)
    requires name in names
    ensures MountFor(s, kind, name) in MountsFor(s, kind, names)
  {
  }

  /** The Secret mounted for `name` is part of the base, whatever else is. */
  lemma BaseShows(s: Shard, args: seq<Arg>, kind: Kind, name: string)
    requires match kind
             case ForKubeconfig => name in KUBECONFIGS
             case ForCA => name in CAS
             case ForCertificate => name in Certificates(s)
    ensures Shows(Built(args, SecretMounts(s)), MountFor(s, kind, name))
  {
    var names := match kind case ForKubeconfig => KUBECONFIGS case ForCA => CAS case ForCertificate => Certificates(s);
    MountsForShows(s, kind, names, name);
    InSecretMounts(s, KUBECONFIGS, CAS, Certificates(s), MountFor(s, kind, name));
    BuiltShows(args, SecretMounts(s), MountFor(s, kind, name));
  }

  lemma OtherShows(s: Shard, args: seq<Arg>, sm: SecretMount)
    requires sm == RootCAMount(s) || sm == ClientCAMount(s) || sm in CacheMounts(CacheRef(s))
    ensures Shows(Built(args, SecretMounts(s)), sm)
  {
    InSecretMounts(s, KUBECONFIGS, CAS, Certificates(s), sm);
    BuiltShows(args, SecretMounts(s), sm);
  }

  lemma InSecretMounts(s: Shard, kubeconfigs: seq<string>, cas: seq<string>, certs: seq<string>, sm: SecretMount)
    requires sm in MountsFor(s, ForKubeconfig, kubeconfigs) || sm in MountsFor(s, ForCA, cas) || sm in MountsFor(s, ForCertificate, certs)
          || sm == RootCAMount(s) || sm == ClientCAMount(s) || sm in CacheMounts(CacheRef(s))
    ensures sm in SecretMountsOf(s, kubeconfigs, cas, certs)
  {
  }

  ghost predicate Resolve(args: seq<Arg>, p: Part, s: Shard) {
    forall a | a in args && a.FileArg? :: ShownAt(p, a.dir, ExpectedSource(s, a.flag))
  }

  /** Shows what a certificate, CA or kubeconfig path is expected to show. */
  ghost predicate Shows(p: Part, sm: SecretMount) {
    ShownAt(p, sm.mountPath, Secret(sm.secretName))
  }

  lemma CertificateArgsResolve(s: Shard, p: Part)
    requires Shows(p, MountFor(s, ForCertificate, "server")) && Shows(p, MountFor(s, ForCertificate, "service-account"))
    requires Shows(p, MountFor(s, ForCertificate, "client"))
    ensures Resolve(CertificateArgs(), p, s)
  {
  }

  lemma MountProxyArgsResolve(s: Shard, p: Part)
    requires s.mountsProxy ==> Shows(p, MountFor(s, ForCertificate, "mounts-proxy"))
    ensures Resolve(MountProxyArgs(s), p, s)
  {
  }

  lemma CAArgsResolve(s: Shard, p: Part)
    requires Shows(p, RootCAMount(s)) && Shows(p, ClientCAMount(s)) && Shows(p, MountFor(s, ForCA, "requestheader-client"))
    ensures Resolve(CAArgs(), p, s)
  {
  }

  lemma VirtualWorkspaceArgsResolve(s: Shard, p: Part)
    requires Shows(p, MountFor(s, ForCA, "server"))
    ensures Resolve(VirtualWorkspaceArgs(s), p, s)
  {
  }

  lemma KubeconfigArgsResolve(s: Shard, p: Part)
    requires Shows(p, MountFor(s, ForKubeconfig, "client")) && Shows(p, MountFor(s, ForKubeconfig, "logical-cluster-admin"))
    requires Shows(p, MountFor(s, ForKubeconfig, "external-logical-cluster-admin"))
    requires CacheRef(s) != "" ==> Shows(p, CacheKubeconfigMount(CacheRef(s)))
    ensures Resolve(KubeconfigArgs(CachePath(s)), p, s)
  {
  }

  lemma BaseResolves(s: Shard, args: seq<Arg>)
    ensures Resolve(BaseArgs(s), Built(args, SecretMounts(s)), s)
  {
    var p := Built(args, SecretMounts(s));
    assert Shows(p, RootCAMount(s)) && Shows(p, ClientCAMount(s)) && (CacheRef(s) != "" ==> Shows(p, CacheKubeconfigMount(CacheRef(s)))) by {
      OtherShows(s, args, RootCAMount(s));
      OtherShows(s, args, ClientCAMount(s));
      if CacheRef(s) != "" {
        OtherShows(s, args, CacheKubeconfigMount(CacheRef(s)));
      }
    }
    BaseShows(s, args, ForCA, "requestheader-client");
    CAArgsResolve(s, p);
    BaseShows(s, args, ForCA, "server");
    VirtualWorkspaceArgsResolve(s, p);
    BaseShows(s, args, ForCertificate, "server");
    BaseShows(s, args, ForCertificate, "service-account");
    BaseShows(s, args, ForCertificate, "client");
    CertificateArgsResolve(s, p);
    if s.mountsProxy {
      BaseShows(s, args, ForCertificate, "mounts-proxy");
    }
    MountProxyArgsResolve(s, p);
    BaseShows(s, args, ForKubeconfig, "client");
    BaseShows(s, args, ForKubeconfig, "logical-cluster-admin");
    BaseShows(s, args, ForKubeconfig, "external-logical-cluster-admin");
    KubeconfigArgsResolve(s, p);
    AllResolve(CAArgs(), CertificateArgs(), KubeconfigArgs(CachePath(s)), MountProxyArgs(s), UserArgs(s.extraArgs), VirtualWorkspaceArgs(s), p, s);
  }

  lemma AllResolve(a: seq<Arg>, b: seq<Arg>, c: seq<Arg>, d: seq<Arg>, e: seq<Arg>, f: seq<Arg>, p: Part, s: Shard)
    requires Resolve(a, p, s) && Resolve(b, p, s) && Resolve(c, p, s) && Resolve(d, p, s) && Resolve(f, p, s)
    requires forall x | x in e :: x.UserArg?
    ensures Resolve(a + b + c + d + e + f, p, s)
  {
  }

  lemma BaseCoherent(s: Shard)
    ensures Coherent(Built(BaseArgs(s), SecretMounts(s)), s)
  {
    BaseResolves(s, BaseArgs(s));
    BuiltMountsResolve(BaseArgs(s), SecretMounts(s), s);
  }

  lemma ConfigCoherent(s: Shard)
    ensures Coherent(ConfigPart(s), s)
  {
    EtcdCoherent(s);
    AuditCoherent(s);
    AuthorizationCoherent(s);
    ExtraCoherent(s);
    var etcd, audit, authorization := EtcdPart(s.etcdTLS), AuditPart(s.audit), AuthorizationPart(s.authorization);
    PlusCoherent(etcd, audit, s);
    PlusCoherent(Plus(etcd, audit), authorization, s);
    PlusCoherent(Plus(Plus(etcd, audit), authorization), Part([], s.extraMounts, s.extraVolumes), s);
  }

  lemma EtcdCoherent(s: Shard)
    ensures Coherent(EtcdPart(s.etcdTLS), s)
  {
    NothingCoherent(s);
    if s.etcdTLS.Some? {
      var path := ["etc", "etcd", "tls"];
      SingleCoherent([FileArg(EtcdCert, path, "tls.crt"), FileArg(EtcdKey, path, "tls.key"), FileArg(EtcdCA, path, "ca.crt")],
                     "etcd-client-cert", Secret(s.etcdTLS.value), path, s);
    }
  }

  lemma ExtraCoherent(s: Shard)
    ensures Coherent(Part([], s.extraMounts, s.extraVolumes), s)
  {
  }

  lemma WebhookCoherent(flag: FileFlag, secret: Option<string>, volume: string, path: Path, s: Shard)
    requires ExpectedSource(s, flag) == Secret(secret.GetOr(""))
    ensures Coherent(WebhookPart(flag, secret, volume, path), s)
  {
  }

  lemma AuditPolicyCoherent(s: Shard)
    requires s.audit.Some?
    ensures Coherent(AuditPolicyPart(s.audit.value.policy), s)
  {
  }

  lemma AuditCoherent(s: Shard)
    ensures Coherent(AuditPart(s.audit), s)
  {
    NothingCoherent(s);
    if s.audit.Some? {
      AuditPolicyCoherent(s);
      WebhookCoherent(AuditWebhook, s.audit.value.webhook, "audit-webhook-config", ["etc", "kcp", "audit", "webhook"], s);
      PlusCoherent(AuditPolicyPart(s.audit.value.policy), AuditWebhookPart(s.audit.value.webhook), s);
    }
  }

  lemma AuthorizationCoherent(s: Shard)
    ensures Coherent(AuthorizationPart(s.authorization), s)
  {
  }

  lemma PeersCoherent(peers: seq<string>, s: Shard)
    ensures Coherent(PeerPart(peers), s)
  {
    var p := PeerPart(peers);
    forall a | a in p.args
      ensures ShownAt(p, a.dir, ExpectedSource(s, a.flag))
    {
      var i :| 0 <= i < |p.args| && p.args[i] == a;
      assert p.mounts[i] in p.mounts && p.volumes[i] in p.volumes;
    }
    forall m | m in p.mounts
      ensures HasVolume(p, m.volume)
    {
      var i :| 0 <= i < |p.mounts| && p.mounts[i] == m;
      assert p.volumes[i] in p.volumes;
    }
  }

  lemma OIDCCoherent(s: Shard)
    requires s.auth.Some?
    ensures Coherent(OIDCPart(s.auth.value.oidc), s)
  {
  }

  lemma TokenCoherent(s: Shard)
    requires s.auth.Some?
    ensures Coherent(TokenPart(s.auth.value.token), s)
  {
  }

  lemma AuthCoherent(s: Shard)
    ensures Coherent(AuthPart(s), s)
  {
    NothingCoherent(s);
    if s.auth.Some? {
      var a := s.auth.value;
      OIDCCoherent(s);
      WebhookCoherent(AuthenticationWebhook, a.webhook, "authentication-webhook-config", ["etc", "kcp", "authentication", "webhook"], s);
      TokenCoherent(s);
      PeersCoherent([s.rootShard] + s.shards, s);
      PlusCoherent(OIDCPart(a.oidc), AuthenticationWebhookPart(a.webhook), s);
      PlusCoherent(Plus(OIDCPart(a.oidc), AuthenticationWebhookPart(a.webhook)), TokenPart(a.token), s);
      PlusCoherent(Plus(Plus(OIDCPart(a.oidc), AuthenticationWebhookPart(a.webhook)), TokenPart(a.token)),
                   ServiceAccountPart(s, a.serviceAccount), s);
    }
  }

  /**
   For every shard: each file an operator argument names lies in a mounted directory that shows the Secret or ConfigMap
   the flag is meant to read, and each mount the operator added has its volume.
   */
  lemma PodIsCoherent(s: Shard)
    ensures Coherent(Pod(s), s)
  {
    BaseCoherent(s);
    ConfigCoherent(s);
    AuthCoherent(s);
    var base := Built(BaseArgs(s), SecretMounts(s));
    PlusCoherent(base, ConfigPart(s), s);
    PlusCoherent(Plus(base, ConfigPart(s)), AuthPart(s), s);
  }
}
