/**
 When all volume names and mount paths of a shard's pod are unique. What the operator mounts regardless of shard names
 comes in a fixed order; every name and path in it has its own slot, told by lengths and single characters.
 */
module ShardPodUnique {
  import opened Wrappers
  import opened Ordering
  import opened ShardPod
  import opened ShardPodNames

  function NameSlot(n: string): nat
    requires |n| >= 2
  {
    var l, c := |n|, n[1];
    if l == 6 then 0
    else if l == 17 then (if c == 'l' then 1 else 13)
    else if l == 32 then 2
    else if l == 41 then 3
    else if l == 9 then (if c == 'e' then 4 else if c == 'l' then 7 else 14)
    else if l == 18 then 5
    else if l == 23 then (if c == 'e' then 6 else 15)
    else if l == 11 then (if c == 'e' then 8 else 10)
    else if l == 20 then (if c == 'e' then 9 else 20)
    else if l == 26 then 11
    else if l == 35 then 12
    else if l == 15 then (if c == 'a' then 16 else 24)
    else if l == 24 then 17
    else if l == 16 then 18
    else if l == 12 then (if c == 'u' then 19 else 22)
    else if l == 28 then 21
    else 23
  }

  function PathSlot(p: Path): nat
    requires |p| >= 3 && |p[|p| - 1]| >= 2
  {
    var last := p[|p| - 1];
    var l, c := |last|, last[1];
    if |p| == 5 then
      if |p[1]| == 12 then 16
      else if l == 4 then 0
      else if l == 6 then (if c == 'e' then 4 else 7)
      else if l == 15 then 5
      else if l == 20 then 6
      else 14
    else if |p| == 3 then
      if l == 17 then 1 else if l == 32 then 2 else if l == 41 then 3 else if l == 10 then 15 else 18
    else if |p[2]| == 3 then
      if l == 6 then (if c == 'e' then 8 else 10)
      else if l == 15 then 9
      else if l == 21 then 11
      else if l == 30 then 12
      else if l == 12 then 13
      else if l == 18 then 17
      else 22
    else if |p[2]| == 5 then (if l == 6 then 19 else 20)
    else if |p[2]| == 13 then 21
    else if l == 7 then 23 else 24
  }

  predicate InSlot(name: string, path: Path, slot: nat) {
    && |name| >= 2 && NameSlot(name) == slot
    && |path| >= 3 && |path[|path| - 1]| >= 2 && PathSlot(path) == slot
  }

  /** The volumes and mounts of a part come in pairs, and the pairs are in the order of their slots, from lo up to hi. */
  ghost predicate InSlots(p: Part, slots: seq<nat>, lo: nat, hi: nat) {
    && |p.volumes| == |p.mounts| == |slots|
    && (forall i | 0 <= i < |slots| :: lo <= slots[i] < hi && InSlot(p.volumes[i].name, p.mounts[i].path, slots[i]))
    && (forall i, j | 0 <= i < j < |slots| :: slots[i] < slots[j])
  }

  ghost predicate Slotted(p: Part, lo: nat, hi: nat) {
    exists slots :: InSlots(p, slots, lo, hi)
  }

  lemma PlusSlotted(p: Part, q: Part, lo: nat, mid: nat, hi: nat)
    requires Slotted(p, lo, mid) && Slotted(q, mid, hi) && lo <= mid <= hi
    ensures Slotted(Plus(p, q), lo, hi)
  {
    var a :| InSlots(p, a, lo, mid);
    var b :| InSlots(q, b, mid, hi);
    assert InSlots(Plus(p, q), a + b, lo, hi);
  }

  lemma NothingSlotted(lo: nat, hi: nat)
    ensures Slotted(NOTHING, lo, hi)
  {
    assert InSlots(NOTHING, [], lo, hi);
  }

  lemma SlottedIsUnique(p: Part, lo: nat, hi: nat)
    requires Slotted(p, lo, hi)
    ensures Distinct(Names(p.volumes)) && Distinct(Paths(p.mounts))
  {
    var slots :| InSlots(p, slots, lo, hi);
    forall i, j | 0 <= i < j < |slots|
      ensures Names(p.volumes)[i] != Names(p.volumes)[j] && Paths(p.mounts)[i] != Paths(p.mounts)[j]
    {
      assert InSlot(p.volumes[i].name, p.mounts[i].path, slots[i]) && InSlot(p.volumes[j].name, p.mounts[j].path, slots[j]);
    }
  }

  lemma OneSlotted(p: Part, slot: nat)
    requires |p.volumes| == |p.mounts| == 1 && InSlot(p.volumes[0].name, p.mounts[0].path, slot)
    ensures Slotted(p, slot, slot + 1)
  {
    assert InSlots(p, [slot], slot, slot + 1);
  }

  // ----- The base -----

  lemma BuiltConcat(args: seq<Arg>, a: seq<SecretMount>, b: seq<SecretMount>)
    ensures Built(args, a + b) == Plus(Built(args, a), Built([], b))
  {
  }

  lemma SecretSlotted(sm: SecretMount, slot: nat)
    requires InSlot(sm.volumeName, sm.mountPath, slot)
    ensures Slotted(Built([], [sm]), slot, slot + 1)
  {
    OneSlotted(Built([], [sm]), slot);
  }

  /** A list of Secrets whose slots follow one another. */
  lemma {:induction false} RowSlotted(sms: seq<SecretMount>, lo: nat)
    requires forall i | 0 <= i < |sms| :: InSlot(sms[i].volumeName, sms[i].mountPath, lo + i)
    ensures Slotted(Built([], sms), lo, lo + |sms|)
    decreases |sms|
  {
    var p := Built([], sms);
    var slots: seq<nat> := seq(|sms|, i requires 0 <= i < |sms| => lo + i);
    assert InSlots(p, slots, lo, lo + |sms|);
  }

  lemma KubeconfigsSlotted(s: Shard)
    ensures Slotted(Built([], MountsFor(s, ForKubeconfig, KUBECONFIGS)), 1, 4)
  {
    RowSlotted(MountsFor(s, ForKubeconfig, KUBECONFIGS), 1);
  }

  lemma CAsSlotted(s: Shard)
    ensures Slotted(Built([], MountsFor(s, ForCA, CAS)), 4, 7)
  {
    RowSlotted(MountsFor(s, ForCA, CAS), 4);
  }

  lemma CertificatesSlotted(s: Shard)
    ensures Slotted(Built([], MountsFor(s, ForCertificate, Certificates(s))), 8, 14)
  {
    var certs := Certificates(s);
    RowSlotted(MountsFor(s, ForCertificate, certs), 8);
    WiderSlotted(Built([], MountsFor(s, ForCertificate, certs)), 8, 8 + |certs|, 14);
  }

  lemma WiderSlotted(p: Part, lo: nat, mid: nat, hi: nat)
    requires Slotted(p, lo, mid) && mid <= hi
    ensures Slotted(p, lo, hi)
  {
    var slots :| InSlots(p, slots, lo, mid);
    assert InSlots(p, slots, lo, hi);
  }

  lemma BundleSlotted(s: Shard)
    ensures Slotted(Built([], CABundleMounts(s)), 14, 15)
  {
    NothingSlotted(14, 15);
    assert Built([], []) == NOTHING;
    if s.caBundle {
      RowSlotted(CABundleMounts(s), 14);
    }
  }

  lemma CacheSlotted(cache: string)
    ensures Slotted(Built([], CacheMounts(cache)), 15, 18)
  {
    NothingSlotted(15, 18);
    assert Built([], []) == NOTHING;
    if cache != "" {
      RowSlotted(CacheMounts(cache), 15);
    }
  }

  lemma AppendSlotted(args: seq<Arg>, a: seq<SecretMount>, b: seq<SecretMount>, lo: nat, mid: nat, hi: nat)
    requires Slotted(Built(args, a), lo, mid) && Slotted(Built([], b), mid, hi) && lo <= mid <= hi
    ensures Slotted(Built(args, a + b), lo, hi)
  {
    BuiltConcat(args, a, b);
    PlusSlotted(Built(args, a), Built([], b), lo, mid, hi);
  }

  lemma BaseSlotted(s: Shard, args: seq<Arg>)
    ensures Slotted(Built(args, SecretMounts(s)), 0, 18)
  {
    var root, client := [RootCAMount(s)], [ClientCAMount(s)];
    var kubeconfigs, cas := MountsFor(s, ForKubeconfig, KUBECONFIGS), MountsFor(s, ForCA, CAS);
    var certs := MountsFor(s, ForCertificate, Certificates(s));
    OneSlotted(Built(args, root), 0);
    KubeconfigsSlotted(s);
    AppendSlotted(args, root, kubeconfigs, 0, 1, 4);
    CAsSlotted(s);
    AppendSlotted(args, root + kubeconfigs, cas, 0, 4, 7);
    SecretSlotted(ClientCAMount(s), 7);
    AppendSlotted(args, root + kubeconfigs + cas, client, 0, 7, 8);
    CertificatesSlotted(s);
    AppendSlotted(args, root + kubeconfigs + cas + client, certs, 0, 8, 14);
    BundleSlotted(s);
    CacheSlotted(CacheRef(s));
    AppendSlotted(args, root + kubeconfigs + cas + client + certs, CABundleMounts(s), 0, 14, 15);
    AppendSlotted(args, root + kubeconfigs + cas + client + certs + CABundleMounts(s), CacheMounts(CacheRef(s)), 0, 15, 18);
  }

  // ----- The features -----

  lemma WebhookSlotted(flag: FileFlag, secret: Option<string>, volume: string, path: Path, slot: nat)
    requires InSlot(volume, path, slot)
    ensures Slotted(WebhookPart(flag, secret, volume, path), slot, slot + 1)
  {
    NothingSlotted(slot, slot + 1);
    if secret.GetOr("") != "" {
      OneSlotted(WebhookPart(flag, secret, volume, path), slot);
    }
  }

  lemma EtcdSlotted(tls: Option<string>)
    ensures Slotted(EtcdPart(tls), 18, 19)
  {
    NothingSlotted(18, 19);
    if tls.Some? {
      OneSlotted(EtcdPart(tls), 18);
    }
  }

  lemma AuditSlotted(audit: Option<Audit>)
    ensures Slotted(AuditPart(audit), 19, 21)
  {
    NothingSlotted(19, 21);
    if audit.Some? {
      AuditPolicySlotted(audit.value.policy);
      WebhookSlotted(AuditWebhook, audit.value.webhook, "audit-webhook-config", ["etc", "kcp", "audit", "webhook"], 20);
      PlusSlotted(AuditPolicyPart(audit.value.policy), AuditWebhookPart(audit.value.webhook), 19, 20, 21);
    }
  }

  lemma AuditPolicySlotted(policy: Option<Option<KeyRef>>)
    ensures Slotted(AuditPolicyPart(policy), 19, 20)
  {
    NothingSlotted(19, 20);
    if policy.Some? && policy.value.Some? {
      OneSlotted(AuditPolicyPart(policy), 19);
    }
  }

  lemma AuthorizationSlotted(authorization: Option<Option<string>>)
    ensures Slotted(AuthorizationPart(authorization), 21, 22)
  {
    NothingSlotted(21, 22);
    if authorization.Some? {
      WebhookSlotted(AuthorizationWebhook, authorization.value, "authorization-webhook-config",
                     ["etc", "kcp", "authorization", "webhook"], 21);
    }
  }

  lemma ConfigSlotted(s: Shard)
    requires s.extraVolumes == [] && s.extraMounts == []
    ensures Slotted(ConfigPart(s), 18, 22)
  {
    var etcd, audit, authorization := EtcdPart(s.etcdTLS), AuditPart(s.audit), AuthorizationPart(s.authorization);
    EtcdSlotted(s.etcdTLS);
    AuditSlotted(s.audit);
    PlusSlotted(etcd, audit, 18, 19, 21);
    AuthorizationSlotted(s.authorization);
    PlusSlotted(Plus(etcd, audit), authorization, 18, 21, 22);
    NothingSlotted(22, 22);
    PlusSlotted(Plus(Plus(etcd, audit), authorization), NOTHING, 18, 22, 22);
  }

  lemma OIDCSlotted(oidc: Option<Option<KeyRef>>)
    ensures Slotted(OIDCPart(oidc), 22, 23)
  {
    NothingSlotted(22, 23);
    if oidc.Some? && oidc.value.Some? {
      OneSlotted(OIDCPart(oidc), 22);
    }
  }

  lemma TokenSlotted(token: Option<KeyRef>)
    ensures Slotted(TokenPart(token), 24, 25)
  {
    NothingSlotted(24, 25);
    if token.Some? {
      OneSlotted(TokenPart(token), 24);
    }
  }

  lemma AuthSlotted(s: Shard)
    requires s.auth.Some? && s.auth.value.serviceAccount.None?
    ensures Slotted(AuthPart(s), 22, 25)
  {
    var a := s.auth.value;
    OIDCSlotted(a.oidc);
    WebhookSlotted(AuthenticationWebhook, a.webhook, "authentication-webhook-config", ["etc", "kcp", "authentication", "webhook"], 23);
    PlusSlotted(OIDCPart(a.oidc), AuthenticationWebhookPart(a.webhook), 22, 23, 24);
    TokenSlotted(a.token);
    PlusSlotted(Plus(OIDCPart(a.oidc), AuthenticationWebhookPart(a.webhook)), TokenPart(a.token), 22, 24, 25);
    NothingSlotted(25, 25);
    PlusSlotted(Plus(Plus(OIDCPart(a.oidc), AuthenticationWebhookPart(a.webhook)), TokenPart(a.token)), NOTHING, 22, 25, 25);
  }

  /** Whatever is switched on, nothing the operator adds gets in each other's way but for service account keys. */
  lemma KeylessPodIsUnique(s: Shard)
    ensures Distinct(Names(Pod(WithoutKeys(s)).volumes)) && Distinct(Paths(Pod(WithoutKeys(s)).mounts))
  {
    var t := WithoutKeys(s);
    var base := Built(BaseArgs(t), SecretMounts(t));
    BaseSlotted(t, BaseArgs(t));
    ConfigSlotted(t);
    PlusSlotted(base, ConfigPart(t), 0, 18, 22);
    AuthSlotted(t);
    PlusSlotted(Plus(base, ConfigPart(t)), AuthPart(t), 0, 22, 25);
    SlottedIsUnique(Pod(t), 0, 25);
  }

  lemma DistinctConcat<T(!new)>(a: seq<T>, b: seq<T>)
    ensures Distinct(a + b) <==> Distinct(a) && NoClash(a, b)
  {
    if Distinct(a + b) {
      forall i, j | 0 <= i < j < |a|
        ensures a[i] != a[j]
      {
        assert (a + b)[i] != (a + b)[j];
      }
      forall i, j | 0 <= i < j < |b|
        ensures b[i] != b[j]
      {
        assert (a + b)[|a| + i] != (a + b)[|a| + j];
      }
      forall i, j | 0 <= i < |a| && 0 <= j < |b|
        ensures a[i] != b[j]
      {
        assert (a + b)[i] != (a + b)[|a| + j];
      }
    }
    if Distinct(a) && NoClash(a, b) {
      forall i, j | 0 <= i < j < |a + b|
        ensures (a + b)[i] != (a + b)[j]
      {
        if i < |a| <= j {
          assert b[j - |a|] in b && a[i] in a;
        }
      }
    }
  }

  /** A volume name or a mount path comes twice, which the API server does not accept. */
  ghost predicate Repeats(p: Part) {
    !Distinct(Names(p.volumes)) || !Distinct(Paths(p.mounts))
  }

  /** The user's volumes or mounts repeat each other's names or paths, or those the operator uses. */
  ghost predicate ExtrasClash(s: Shard) {
    var own := Pod(WithoutExtras(s));
    !NoClash(Names(own.volumes), Names(s.extraVolumes)) || !NoClash(Paths(own.mounts), Paths(s.extraMounts))
  }

  /**
   For every shard: something repeats in its pod exactly if the user's volumes and mounts clash, or service account keys
   are on and a shard is listed twice, shares the name of its root shard, or one of them is called "ca".
   */
  lemma RepeatsIff(s: Shard)
    ensures Repeats(Pod(s)) <==> ExtrasClash(s) || (KeysOn(s) && (!Distinct(Peers(s)) || "ca" in Peers(s)))
  {
    var t := WithoutExtras(s);
    OwnRepeatsIff(t);
    ExtrasInBetween(s);
    var before, extras, after := Plus(Built(BaseArgs(s), SecretMounts(s)), ConfigPart(t)), Extras(s), AuthPart(s);
    NamesOfPlus(before, after);
    NamesOfPlus(before, extras);
    NamesOfPlus(Plus(before, extras), after);
    DistinctMiddle(Names(before.volumes), Names(s.extraVolumes), Names(after.volumes));
    DistinctMiddle(Paths(before.mounts), Paths(s.extraMounts), Paths(after.mounts));
  }

  lemma NamesOfPlus(p: Part, q: Part)
    ensures Names(Plus(p, q).volumes) == Names(p.volumes) + Names(q.volumes)
    ensures Paths(Plus(p, q).mounts) == Paths(p.mounts) + Paths(q.mounts)
  {
  }

  function Extras(s: Shard): Part {
    Part([], s.extraMounts, s.extraVolumes)
  }

  lemma DistinctMiddle<T(!new)>(a: seq<T>, x: seq<T>, b: seq<T>)
    ensures Distinct(a + x + b) <==> Distinct(a + b) && NoClash(a + b, x)
  {
    DistinctConcat(a + x, b);
    DistinctConcat(a, x);
    DistinctConcat(a, b);
    assert forall y :: y in a + b <==> y in a || y in b;
    assert forall y :: y in a + x <==> y in a || y in x;
  }

  /** The user's additions come between the features of the shard and its authentication. */
  lemma ExtrasInBetween(s: Shard)
    ensures var t := WithoutExtras(s); var before, after := Plus(Built(BaseArgs(s), SecretMounts(s)), ConfigPart(t)), AuthPart(s);
      Pod(s) == Plus(Plus(before, Extras(s)), after) && Pod(t) == Plus(before, after)
  {
    SameBaseWithoutExtras(s);
    ConfigSplits(s);
    assert AuthPart(WithoutExtras(s)) == AuthPart(s);
    PlusAssociative(Built(BaseArgs(s), SecretMounts(s)), ConfigPart(WithoutExtras(s)), Extras(s));
  }

  lemma ConfigSplits(s: Shard)
    ensures ConfigPart(s) == Plus(ConfigPart(WithoutExtras(s)), Extras(s))
  {
    PlusNothing(Plus(Plus(EtcdPart(s.etcdTLS), AuditPart(s.audit)), AuthorizationPart(s.authorization)));
  }

  lemma SameBaseWithoutExtras(s: Shard)
    ensures Built(BaseArgs(WithoutExtras(s)), SecretMounts(WithoutExtras(s))) == Built(BaseArgs(s), SecretMounts(s))
  {
    var t := WithoutExtras(s);
    SameMounts(s, t, ForKubeconfig, KUBECONFIGS);
    SameMounts(s, t, ForCA, CAS);
    SameMounts(s, t, ForCertificate, Certificates(s));
  }

  lemma OwnRepeatsIff(s: Shard)
    requires s.extraVolumes == [] && s.extraMounts == []
    ensures Repeats(Pod(s)) <==> KeysOn(s) && (!Distinct(Peers(s)) || "ca" in Peers(s))
  {
    PodSplits(s);
    KeylessPodIsUnique(s);
    assert WithoutKeys(s) == KeysOff(s);
    if KeysOn(s) {
      VolumesClashIff(s);
      MountsClashIff(s);
      PlusRepeatsIff(Pod(KeysOff(s)), PeerPart(Peers(s)));
    } else {
      PlusNothing(Pod(KeysOff(s)));
    }
  }

  lemma PlusNothing(p: Part)
    ensures Plus(p, NOTHING) == p
  {
  }

  lemma PlusRepeatsIff(p: Part, q: Part)
    requires !Repeats(p)
    ensures Repeats(Plus(p, q)) <==> !NoClash(Names(p.volumes), Names(q.volumes)) || !NoClash(Paths(p.mounts), Paths(q.mounts))
  {
    NamesOfPlus(p, q);
    DistinctConcat(Names(p.volumes), Names(q.volumes));
    DistinctConcat(Paths(p.mounts), Paths(q.mounts));
  }
}
