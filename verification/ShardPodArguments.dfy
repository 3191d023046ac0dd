/**
 Which arguments a shard's pod has, and which Secrets it mounts, read off the fields of the shard alone. ShardPod
 proves that the arguments which are there resolve; here it is proved that exactly the right ones are there.
 */
module ShardPodArguments {
  import opened Wrappers
  import opened ShardPod

  predicate Sets(a: Arg, flag: FileFlag, file: string) {
    a.FileArg? && a.flag == flag && a.file == file
  }

  /** Some argument sets this flag to a file of this name. */
  ghost predicate Gives(args: seq<Arg>, flag: FileFlag, file: string) {
    exists a | a in args :: Sets(a, flag, file)
  }

  function When(condition: bool, file: string): Option<string> {
    if condition then Some(file) else None
  }

  /** A reference to one key of an object names that key as the file. */
  function KeyFile(ref: Option<Option<KeyRef>>): Option<string> {
    if ref.Some? && ref.value.Some? then Some(ref.value.value.key) else None
  }

  function WebhookFile(secret: Option<string>): Option<string> {
    When(secret.Some? && secret.value != "", "kubeconfig")
  }

  function TokenFile(ref: Option<KeyRef>): Option<string> {
    if ref.None? then None else Some(if ref.value.key == "" then "token.csv" else ref.value.key)
  }

  /** The file a flag must name, if the shard is configured to have that flag. */
  ghost function ExpectedFile(s: Shard, flag: FileFlag): Option<string> {
    match flag
    case RootCA => Some("tls.crt")
    case ClientCA => Some("tls.crt")
    case RequestHeaderClientCA => Some("tls.crt")
    case TLSKey => Some("tls.key")
    case TLSCert => Some("tls.crt")
    case ServiceAccountKey => Some("tls.crt")
    case ServiceAccountPrivateKey => Some("tls.key")
    case ShardClientKey => Some("tls.key")
    case ShardClientCert => Some("tls.crt")
    case CacheKubeconfig => Some("kubeconfig")
    case RootShardKubeconfig => Some("kubeconfig")
    case LogicalClusterAdminKubeconfig => Some("kubeconfig")
    case ExternalLogicalClusterAdminKubeconfig => Some("kubeconfig")
    case MountProxyCert => When(s.mountsProxy, "tls.crt")
    case MountProxyKey => When(s.mountsProxy, "tls.key")
    case VirtualWorkspaceCA => When(s.virtualWorkspace, "tls.crt")
    case EtcdCert => When(s.etcdTLS.Some?, "tls.crt")
    case EtcdKey => When(s.etcdTLS.Some?, "tls.key")
    case EtcdCA => When(s.etcdTLS.Some?, "ca.crt")
    case AuditPolicy => if s.audit.Some? then KeyFile(s.audit.value.policy) else None
    case AuditWebhook => if s.audit.Some? then WebhookFile(s.audit.value.webhook) else None
    case AuthorizationWebhook => if s.authorization.Some? then WebhookFile(s.authorization.value) else None
    case OIDCCA => if s.auth.Some? then KeyFile(s.auth.value.oidc) else None
    case AuthenticationWebhook => if s.auth.Some? then WebhookFile(s.auth.value.webhook) else None
    case TokenAuthFile => if s.auth.Some? then TokenFile(s.auth.value.token) else None
    case PeerServiceAccountKey(peer) =>
      When(s.auth.Some? && s.auth.value.serviceAccount == Some(true) && (peer == s.rootShard || peer in s.shards), "tls.crt")
  }

  datatype Feature = Static | MountsProxy | VirtualWorkspace | Etcd | Auditing | Authorization | Authentication

  /** The feature a flag belongs to. */
  function FeatureOf(flag: FileFlag): Feature {
    match flag
    case MountProxyCert => MountsProxy
    case MountProxyKey => MountsProxy
    case VirtualWorkspaceCA => VirtualWorkspace
    case EtcdCert => Etcd
    case EtcdKey => Etcd
    case EtcdCA => Etcd
    case AuditPolicy => Auditing
    case AuditWebhook => Auditing
    case AuthorizationWebhook => Authorization
    case AuthenticationWebhook => Authentication
    case OIDCCA => Authentication
    case TokenAuthFile => Authentication
    case PeerServiceAccountKey(_) => Authentication
    case _ => Static
  }

  /** These arguments are all there is of a feature, and nothing of another. */
  ghost predicate Covers(args: seq<Arg>, s: Shard, feature: Feature, flag: FileFlag, file: string) {
    Gives(args, flag, file) <==> FeatureOf(flag) == feature && ExpectedFile(s, flag) == Some(file)
  }

  lemma GivesConcat(a: seq<Arg>, b: seq<Arg>, flag: FileFlag, file: string)
    ensures Gives(a + b, flag, file) <==> Gives(a, flag, file) || Gives(b, flag, file)
  {
  }

  lemma GivesAt(args: seq<Arg>, flag: FileFlag, file: string)
    ensures Gives(args, flag, file) <==> exists i | 0 <= i < |args| :: Sets(args[i], flag, file)
  {
  }

  lemma SixGive(args: seq<Arg>, flag: FileFlag, file: string)
    requires |args| == 6
    ensures Gives(args, flag, file) <==>
      || Sets(args[0], flag, file) || Sets(args[1], flag, file) || Sets(args[2], flag, file)
      || Sets(args[3], flag, file) || Sets(args[4], flag, file) || Sets(args[5], flag, file)
  {
    GivesAt(args, flag, file);
  }

  lemma CAGives(flag: FileFlag, file: string)
    ensures Gives(CAArgs(), flag, file) <==> (flag.RootCA? || flag.ClientCA? || flag.RequestHeaderClientCA?) && file == "tls.crt"
  {
    assert CAArgs()[0] in CAArgs() && CAArgs()[1] in CAArgs() && CAArgs()[2] in CAArgs();
  }

  lemma CertificateGives(flag: FileFlag, file: string)
    ensures Gives(CertificateArgs(), flag, file) <==>
      || ((flag.TLSCert? || flag.ServiceAccountKey? || flag.ShardClientCert?) && file == "tls.crt")
      || ((flag.TLSKey? || flag.ServiceAccountPrivateKey? || flag.ShardClientKey?) && file == "tls.key")
  {
    SixGive(CertificateArgs(), flag, file);
  }

  lemma KubeconfigGives(cachePath: Path, flag: FileFlag, file: string)
    ensures Gives(KubeconfigArgs(cachePath), flag, file) <==>
      && (flag.CacheKubeconfig? || flag.RootShardKubeconfig? || flag.LogicalClusterAdminKubeconfig? || flag.ExternalLogicalClusterAdminKubeconfig?)
      && file == "kubeconfig"
  {
    var args := KubeconfigArgs(cachePath);
    assert args[0] in args && args[1] in args && args[2] in args && args[3] in args;
  }

  lemma StaticCovers(s: Shard, flag: FileFlag, file: string)
    ensures Covers(StaticArgs(s), s, Static, flag, file)
  {
    CAGives(flag, file);
    CertificateGives(flag, file);
    KubeconfigGives(CachePath(s), flag, file);
    GivesConcat(CAArgs(), CertificateArgs(), flag, file);
    GivesConcat(CAArgs() + CertificateArgs(), KubeconfigArgs(CachePath(s)), flag, file);
  }

  lemma MountsProxyCovers(s: Shard, flag: FileFlag, file: string)
    ensures Covers(MountProxyArgs(s), s, MountsProxy, flag, file)
  {
    if s.mountsProxy {
      assert MountProxyArgs(s)[0] in MountProxyArgs(s) && MountProxyArgs(s)[1] in MountProxyArgs(s);
    }
  }

  lemma VirtualWorkspaceCovers(s: Shard, flag: FileFlag, file: string)
    ensures Covers(VirtualWorkspaceArgs(s), s, VirtualWorkspace, flag, file)
  {
    if s.virtualWorkspace {
      assert VirtualWorkspaceArgs(s)[0] in VirtualWorkspaceArgs(s);
    }
  }

  lemma EtcdCovers(s: Shard, flag: FileFlag, file: string)
    ensures Covers(EtcdPart(s.etcdTLS).args, s, Etcd, flag, file)
  {
    var args := EtcdPart(s.etcdTLS).args;
    if s.etcdTLS.Some? {
      assert args[0] in args && args[1] in args && args[2] in args;
    }
  }

  lemma WebhookGives(hook: FileFlag, secret: Option<string>, volume: string, path: Path, flag: FileFlag, file: string)
    ensures Gives(WebhookPart(hook, secret, volume, path).args, flag, file) <==>
      flag == hook && WebhookFile(secret) == Some(file)
  {
    var args := WebhookPart(hook, secret, volume, path).args;
    if args != [] {
      assert args[0] in args;
    }
  }

  lemma PolicyGives(policy: Option<Option<KeyRef>>, flag: FileFlag, file: string)
    ensures Gives(AuditPolicyPart(policy).args, flag, file) <==> flag.AuditPolicy? && KeyFile(policy) == Some(file)
  {
    var args := AuditPolicyPart(policy).args;
    if args != [] {
      assert args[0] in args;
    }
  }

  lemma AuditCovers(s: Shard, flag: FileFlag, file: string)
    ensures Covers(AuditPart(s.audit).args, s, Auditing, flag, file)
  {
    if s.audit.Some? {
      var policy, webhook := s.audit.value.policy, s.audit.value.webhook;
      PolicyGives(policy, flag, file);
      WebhookGives(AuditWebhook, webhook, "audit-webhook-config", ["etc", "kcp", "audit", "webhook"], flag, file);
      GivesConcat(AuditPolicyPart(policy).args, AuditWebhookPart(webhook).args, flag, file);
    }
  }

  lemma AuthorizationCovers(s: Shard, flag: FileFlag, file: string)
    ensures Covers(AuthorizationPart(s.authorization).args, s, Authorization, flag, file)
  {
    if s.authorization.Some? {
      WebhookGives(AuthorizationWebhook, s.authorization.value, "authorization-webhook-config",
                   ["etc", "kcp", "authorization", "webhook"], flag, file);
    }
  }

  lemma OIDCGives(oidc: Option<Option<KeyRef>>, flag: FileFlag, file: string)
    ensures Gives(OIDCPart(oidc).args, flag, file) <==>
      flag.OIDCCA? && KeyFile(oidc) == Some(file)
  {
    var args := OIDCPart(oidc).args;
    if args != [] {
      assert args[0] in args;
    }
  }

  lemma TokenGives(token: Option<KeyRef>, flag: FileFlag, file: string)
    ensures Gives(TokenPart(token).args, flag, file) <==>
      flag.TokenAuthFile? && TokenFile(token) == Some(file)
  {
    var args := TokenPart(token).args;
    if args != [] {
      assert args[0] in args;
    }
  }

  lemma PeersGive(peers: seq<string>, flag: FileFlag, file: string)
    ensures Gives(PeerPart(peers).args, flag, file) <==> flag.PeerServiceAccountKey? && flag.peer in peers && file == "tls.crt"
  {
    var args := PeerPart(peers).args;
    if flag.PeerServiceAccountKey? && flag.peer in peers {
      var i :| 0 <= i < |peers| && peers[i] == flag.peer;
      assert args[i] in args;
    }
  }

  lemma FourConcat(a: seq<Arg>, b: seq<Arg>, c: seq<Arg>, d: seq<Arg>, flag: FileFlag, file: string)
    ensures Gives(a + b + c + d, flag, file) <==>
      Gives(a, flag, file) || Gives(b, flag, file) || Gives(c, flag, file) || Gives(d, flag, file)
  {
    GivesConcat(a, b, flag, file);
    GivesConcat(a + b, c, flag, file);
    GivesConcat(a + b + c, d, flag, file);
  }

  lemma ServiceAccountGives(s: Shard, enabled: Option<bool>, flag: FileFlag, file: string)
    ensures Gives(ServiceAccountPart(s, enabled).args, flag, file) <==>
      && flag.PeerServiceAccountKey? && enabled == Some(true)
      && (flag.peer == s.rootShard || flag.peer in s.shards) && file == "tls.crt"
  {
    PeersGive([s.rootShard] + s.shards, flag, file);
  }

  predicate AuthSets(s: Shard, a: Auth, flag: FileFlag, file: string) {
    match flag
    case OIDCCA => KeyFile(a.oidc) == Some(file)
    case AuthenticationWebhook => WebhookFile(a.webhook) == Some(file)
    case TokenAuthFile => TokenFile(a.token) == Some(file)
    case PeerServiceAccountKey(peer) =>
      a.serviceAccount == Some(true) && (peer == s.rootShard || peer in s.shards) && file == "tls.crt"
    case _ => false
  }

  lemma AuthSetsCovers(args: seq<Arg>, s: Shard, flag: FileFlag, file: string)
    requires s.auth.Some? && (Gives(args, flag, file) <==> AuthSets(s, s.auth.value, flag, file))
    ensures Covers(args, s, Authentication, flag, file)
  {
  }

  lemma AuthGives(s: Shard, a: Auth, flag: FileFlag, file: string)
    requires s.auth == Some(a)
    ensures Gives(AuthPart(s).args, flag, file) <==> AuthSets(s, a, flag, file)
  {
    OIDCGives(a.oidc, flag, file);
    WebhookGives(AuthenticationWebhook, a.webhook, "authentication-webhook-config", ["etc", "kcp", "authentication", "webhook"], flag, file);
    TokenGives(a.token, flag, file);
    ServiceAccountGives(s, a.serviceAccount, flag, file);
    FourConcat(OIDCPart(a.oidc).args, AuthenticationWebhookPart(a.webhook).args, TokenPart(a.token).args,
               ServiceAccountPart(s, a.serviceAccount).args, flag, file);
  }

  lemma AuthCovers(s: Shard, flag: FileFlag, file: string)
    ensures Covers(AuthPart(s).args, s, Authentication, flag, file)
  {
    if s.auth.Some? {
      AuthGives(s, s.auth.value, flag, file);
      AuthSetsCovers(AuthPart(s).args, s, flag, file);
    }
  }

  lemma UserArgsGiveNothing(texts: seq<string>, flag: FileFlag, file: string)
    ensures !Gives(UserArgs(texts), flag, file)
  {
  }

  lemma BaseGives(s: Shard, flag: FileFlag, file: string)
    ensures Gives(BaseArgs(s), flag, file) <==>
      && (FeatureOf(flag).Static? || FeatureOf(flag).MountsProxy? || FeatureOf(flag).VirtualWorkspace?)
      && ExpectedFile(s, flag) == Some(file)
  {
    var a, b, c, d := StaticArgs(s), MountProxyArgs(s), UserArgs(s.extraArgs), VirtualWorkspaceArgs(s);
    StaticCovers(s, flag, file);
    MountsProxyCovers(s, flag, file);
    UserArgsGiveNothing(s.extraArgs, flag, file);
    VirtualWorkspaceCovers(s, flag, file);
    FourConcat(a, b, c, d, flag, file);
  }

  lemma ConfigGives(s: Shard, flag: FileFlag, file: string)
    ensures Gives(ConfigPart(s).args, flag, file) <==>
      && (FeatureOf(flag).Etcd? || FeatureOf(flag).Auditing? || FeatureOf(flag).Authorization?)
      && ExpectedFile(s, flag) == Some(file)
  {
    var etcd, audit, authorization := EtcdPart(s.etcdTLS).args, AuditPart(s.audit).args, AuthorizationPart(s.authorization).args;
    EtcdCovers(s, flag, file);
    AuditCovers(s, flag, file);
    AuthorizationCovers(s, flag, file);
    GivesConcat(etcd, audit, flag, file);
    GivesConcat(etcd + audit, authorization, flag, file);
    assert ConfigPart(s).args == etcd + audit + authorization;
  }

  /**
   A flag is passed to the shard exactly if its feature is configured, and it names the file that the Secret or ConfigMap
   of that feature holds.
   */
  lemma FlagsAreExact(s: Shard, flag: FileFlag, file: string)
    ensures Gives(Pod(s).args, flag, file) <==> ExpectedFile(s, flag) == Some(file)
  {
    BaseGives(s, flag, file);
    ConfigGives(s, flag, file);
    AuthCovers(s, flag, file);
    GivesConcat(BaseArgs(s), ConfigPart(s).args, flag, file);
    GivesConcat(BaseArgs(s) + ConfigPart(s).args, AuthPart(s).args, flag, file);
  }

  /** The arguments users add are passed on as they are, and no others are made up. */
  lemma UserArgsArePassedOn(s: Shard, text: string)
    ensures UserArg(text) in Pod(s).args <==> text in s.extraArgs
  {
    assert UserArg(text) in UserArgs(s.extraArgs) <==> text in s.extraArgs by {
      if text in s.extraArgs {
        var i :| 0 <= i < |s.extraArgs| && s.extraArgs[i] == text;
        assert UserArgs(s.extraArgs)[i] == UserArg(text);
      }
    }
    assert UserArg(text) !in StaticArgs(s) && UserArg(text) !in MountProxyArgs(s) && UserArg(text) !in VirtualWorkspaceArgs(s);
    ConfigHasNoUserArgs(s, text);
    AuthHasNoUserArgs(s, text);
  }

  lemma ConfigHasNoUserArgs(s: Shard, text: string)
    ensures UserArg(text) !in ConfigPart(s).args
  {
  }

  lemma AuthHasNoUserArgs(s: Shard, text: string)
    ensures UserArg(text) !in AuthPart(s).args
  {
  }

  // ----- The Secrets that are always there, needed by an argument or not -----

  lemma BaseShowsInPod(s: Shard, path: Path, source: Source)
    requires ShownAt(Built(BaseArgs(s), SecretMounts(s)), path, source)
    ensures ShownAt(Pod(s), path, source)
  {
    var base := Built(BaseArgs(s), SecretMounts(s));
    var m :| m in base.mounts && m.path == path && Volume(m.volume, source) in base.volumes;
    assert m in Pod(s).mounts && Volume(m.volume, source) in Pod(s).volumes;
  }

  lemma MountedInPod(s: Shard, sm: SecretMount)
    requires sm in SecretMounts(s)
    ensures ShownAt(Pod(s), sm.mountPath, Secret(sm.secretName))
  {
    BuiltShows(BaseArgs(s), SecretMounts(s), sm);
    BaseShowsInPod(s, sm.mountPath, Secret(sm.secretName));
  }

  lemma CertificatesAreMounted(s: Shard, name: string)
    requires name in ["server", "service-account", "client", "logical-cluster-admin", "external-logical-cluster-admin"]
          || (s.mountsProxy && name == "mounts-proxy")
    ensures ShownAt(Pod(s), ["etc", "kcp", "tls", name], Secret(s.name + "-" + name))
  {
    BaseShows(s, BaseArgs(s), ForCertificate, name);
    BaseShowsInPod(s, CertificatePath(name), Secret(s.name + "-" + name));
  }

  lemma CAsAreMounted(s: Shard, name: string)
    requires name in ["server", "service-account", "requestheader-client"]
    ensures ShownAt(Pod(s), ["etc", "kcp", "tls", "ca", name], Secret(s.rootShard + "-" + name + "-ca"))
  {
    BaseShows(s, BaseArgs(s), ForCA, name);
    BaseShowsInPod(s, CAPath(name), Secret(s.rootShard + "-" + name + "-ca"));
  }

  lemma KubeconfigsAreMounted(s: Shard, name: string)
    requires name in ["client", "logical-cluster-admin", "external-logical-cluster-admin"]
    ensures ShownAt(Pod(s), ["etc", "kcp", name + "-kubeconfig"], Secret(s.name + "-" + name + "-kubeconfig"))
  {
    BaseShows(s, BaseArgs(s), ForKubeconfig, name);
    BaseShowsInPod(s, KubeconfigPath(name), Secret(s.name + "-" + name + "-kubeconfig"));
  }

  lemma OtherCAsAreMounted(s: Shard)
    ensures ShownAt(Pod(s), ["etc", "kcp", "tls", "ca", "root"], Secret(s.rootShard + "-ca"))
    ensures s.mergedClientCA ==> ShownAt(Pod(s), ["etc", "kcp", "tls", "ca", "client"], Secret(s.name + "-merged-client-ca"))
    ensures !s.mergedClientCA ==> ShownAt(Pod(s), ["etc", "kcp", "tls", "ca", "client"], Secret(s.rootShard + "-client-ca"))
    ensures s.caBundle ==> ShownAt(Pod(s), ["etc", "kcp", "tls", "ca", "ca-bundle"], Secret(s.name + "-merged-ca-bundle"))
  {
    OtherShows(s, BaseArgs(s), RootCAMount(s));
    BaseShowsInPod(s, CAPath("root"), Secret(s.rootShard + "-ca"));
    OtherShows(s, BaseArgs(s), ClientCAMount(s));
    BaseShowsInPod(s, CAPath("client"), Secret(ClientCAMount(s).secretName));
    if s.caBundle {
      assert CABundleMounts(s)[0] in CABundleMounts(s);
      MountedInPod(s, CABundleMounts(s)[0]);
    }
  }

  /** The cache server of the shard itself goes before that of the RootShard; three Secrets of it are mounted. */
  lemma CacheIsMounted(s: Shard, cache: string)
    requires s.cache == Some(cache) || (s.cache == None && s.rootShardCache == Some(cache))
    requires cache != ""
    ensures ShownAt(Pod(s), ["etc", "cache-server", "kubeconfig"], Secret(cache + "-kubeconfig"))
    ensures ShownAt(Pod(s), ["etc", "cache-server", "tls", "ca", "root"], Secret(cache + "-ca"))
    ensures ShownAt(Pod(s), ["etc", "cache-server", "tls", "client-certificate"], Secret(cache + "-client-certificate"))
  {
    var sms := CacheMounts(cache);
    CacheMountInPod(s, cache, sms[0]);
    CacheMountInPod(s, cache, sms[1]);
    CacheMountInPod(s, cache, sms[2]);
  }

  lemma CacheMountInPod(s: Shard, cache: string, sm: SecretMount)
    requires CacheRef(s) == cache && sm in CacheMounts(cache)
    ensures ShownAt(Pod(s), sm.mountPath, Secret(sm.secretName))
  {
    InSecretMounts(s, KUBECONFIGS, CAS, Certificates(s), sm);
    MountedInPod(s, sm);
  }

  /** What users add to the pod is there. */
  lemma ExtrasAreThere(s: Shard)
    ensures forall m | m in s.extraMounts :: m in Pod(s).mounts
    ensures forall v | v in s.extraVolumes :: v in Pod(s).volumes
  {
    assert forall m | m in s.extraMounts :: m in ConfigPart(s).mounts;
    assert forall v | v in s.extraVolumes :: v in ConfigPart(s).volumes;
  }
}
