/**
 The label maps of a rendered Deployment. Its metadata, its selector and its pod template start out
 sharing one map object; the selector of an existing Deployment is immutable, so that object must not
 be written, and the selector must keep matching the pods.
 */
module DeploymentLabels {
  import opened Wrappers
  import opened Ordering
  import CertificateTemplates
  import RevisionLabels

  type Labels = map<string, string>

  /** A Go map: a reference to entries that every holder sees. */
  class LabelMap {
    var entries: Labels

    constructor (entries: Labels)
      ensures this.entries == entries
    {
      this.entries := entries;
    }
  }

  class Deployment {
    var labels: LabelMap?
    var selector: LabelMap?
    var podLabels: LabelMap?

    constructor ()
      ensures labels == null && selector == null && podLabels == null
    {
      labels, selector, podLabels := null, null, null;
    }
  }

  /** User templates; None stands for a nil pointer at each level. */
  datatype PodTemplate = PodTemplate(labels: Option<Labels>)
  datatype DeploymentTemplate = DeploymentTemplate(labels: Option<Labels>, pod: Option<PodTemplate>)

  function ResourceLabels(instance: string, component: string): Labels {
    map["app.kubernetes.io/managed-by" := "kcp-operator",
        "app.kubernetes.io/name" := "kcp",
        "app.kubernetes.io/instance" := instance,
        "app.kubernetes.io/component" := component]
  }

  function PodTemplateLabels(tpl: Option<DeploymentTemplate>): Labels {
    if tpl.Some? && tpl.value.pod.Some? then tpl.value.pod.value.labels.GetOr(map[]) else map[]
  }

  function MetadataLabels(tpl: Option<DeploymentTemplate>): Labels {
    if tpl.Some? then tpl.value.labels.GetOr(map[]) else map[]
  }

  /** The final pod labels: the user's below the operator's own, the revisions above all. */
  function FinalPodLabels(base: Labels, tpl: Option<DeploymentTemplate>, revisions: Labels): Labels {
    CertificateTemplates.MergeMaps(base, PodTemplateLabels(tpl)) + revisions
  }

  predicate Matches(selector: Labels, labels: Labels) {
    forall k | k in selector :: k in labels && labels[k] == selector[k]
  }

  /** For any template, the selector matches the pods if and only if no revision label overrides one of its keys. */
  lemma SelectorMatchesIffNoOverride(base: Labels, tpl: Option<DeploymentTemplate>, revisions: Labels)
    ensures Matches(base, FinalPodLabels(base, tpl, revisions))
      <==> forall k | k in base && k in revisions :: revisions[k] == base[k]
  {
  }

  const REVISION_PREFIX: string := "operator.kcp.io/"

  /** Every label the revision traversal produces starts with the operator's own prefix. */
  lemma {:induction false} RevisionLabelsArePrefixed(c: RevisionLabels.Cluster, refs: seq<RevisionLabels.Ref>)
    ensures var t := RevisionLabels.Walk(c, map[], refs);
      t.Loaded? ==> forall k | k in t.labels :: REVISION_PREFIX <= k
    decreases |refs|
  {
    if refs != [] {
      RevisionLabelsArePrefixed(c, refs[..|refs| - 1]);
      var last := refs[|refs| - 1];
      var name := RevisionLabels.Label(c, last);
      assert name[..|REVISION_PREFIX|] == REVISION_PREFIX;
    }
  }

  /** So whatever the pod mounts and whatever the user's template says, the selector matches. */
  lemma SelectorAlwaysMatches(
    instance: string, component: string, tpl: Option<DeploymentTemplate>, c: RevisionLabels.Cluster, refs: seq<RevisionLabels.Ref>)
    requires RevisionLabels.Walk(c, map[], refs).Loaded?
    ensures Matches(ResourceLabels(instance, component),
              FinalPodLabels(ResourceLabels(instance, component), tpl, RevisionLabels.Walk(c, map[], refs).labels))
  {
    var base, revisions := ResourceLabels(instance, component), RevisionLabels.Walk(c, map[], refs).labels;
    RevisionLabelsArePrefixed(c, refs);
    forall k | k in base
      ensures k !in revisions
    {
      assert k[0] == 'a' && REVISION_PREFIX[0] == 'o';
    }
    SelectorMatchesIffNoOverride(base, tpl, revisions);
  }

  /** And it matches no pods of another instance or component. */
  lemma SelectorSeparates(
    instance: string, component: string, otherInstance: string, otherComponent: string,
    tpl: Option<DeploymentTemplate>, c: RevisionLabels.Cluster, refs: seq<RevisionLabels.Ref>)
    requires RevisionLabels.Walk(c, map[], refs).Loaded?
    ensures Matches(ResourceLabels(instance, component),
              FinalPodLabels(ResourceLabels(otherInstance, otherComponent), tpl, RevisionLabels.Walk(c, map[], refs).labels))
      <==> instance == otherInstance && component == otherComponent
  {
    var own, other := ResourceLabels(instance, component), ResourceLabels(otherInstance, otherComponent);
    SelectorAlwaysMatches(otherInstance, otherComponent, tpl, c, refs);
    assert own.Keys == other.Keys;
    assert "app.kubernetes.io/instance" in own && "app.kubernetes.io/component" in own;
    assert own["app.kubernetes.io/instance"] == instance && other["app.kubernetes.io/instance"] == otherInstance;
    assert own["app.kubernetes.io/component"] == component && other["app.kubernetes.io/component"] == otherComponent;
  }

  /** Every revision label is on the pods, and so is every label of the user's template that clashes with no other. */
  lemma FinalLabels(base: Labels, user: Labels, labels: Option<Labels>, revisions: Labels, k: string)
    ensures var r := FinalPodLabels(base, Some(DeploymentTemplate(labels, Some(PodTemplate(Some(user))))), revisions);
      && (k in r <==> k in base || k in user || k in revisions)
      && (k in revisions ==> r[k] == revisions[k])
      && (k in base && k !in revisions ==> r[k] == base[k])
      && (k in user && k !in base && k !in revisions ==> r[k] == user[k])
  {
  }

  /** Returns the given map itself when there is nothing to add, else a new one in which existing keys win. */
  method MergeMaps(existing: LabelMap?, toAdd: Labels) returns (r: LabelMap?)
    ensures toAdd == map[] ==> r == existing
    ensures toAdd != map[] ==> r != null && fresh(r)
    ensures toAdd != map[] ==>
      r.entries == CertificateTemplates.MergeMaps(if existing == null then map[] else existing.entries, toAdd)
  {
    if toAdd == map[] {
      return existing;
    }
    r := new LabelMap(toAdd);
    if existing != null {
      r.entries := r.entries + existing.entries;
    }
  }

  method ApplyDeploymentTemplate(dep: Deployment, tpl: Option<DeploymentTemplate>)
    requires dep.labels != null && dep.podLabels != null
    modifies dep
    ensures dep.selector == old(dep.selector)
    ensures dep.labels != null && (fresh(dep.labels) || dep.labels == old(dep.labels))
    ensures dep.podLabels != null && (fresh(dep.podLabels) || dep.podLabels == old(dep.podLabels))
    ensures dep.labels.entries == CertificateTemplates.MergeMaps(old(dep.labels.entries), MetadataLabels(tpl))
    ensures dep.podLabels.entries == CertificateTemplates.MergeMaps(old(dep.podLabels.entries), PodTemplateLabels(tpl))
  {
    if tpl.None? {
      return;
    }
    if tpl.value.labels.Some? {
      dep.labels := MergeMaps(dep.labels, tpl.value.labels.value);
    }
    if tpl.value.pod.Some? && tpl.value.pod.value.labels.Some? {
      dep.podLabels := MergeMaps(dep.podLabels, tpl.value.pod.value.labels.value);
    }
  }

  /** The pod template as the revision labels see it. */
  datatype PodSpec = PodSpec(
    volumes: seq<RevisionLabels.Volume>, initContainers: seq<RevisionLabels.Container>, containers: seq<RevisionLabels.Container>)

  function Revisions(c: RevisionLabels.Cluster, spec: PodSpec): RevisionLabels.Traversal {
    RevisionLabels.Walk(c, map[], RevisionLabels.PodRefs(spec.volumes, spec.initContainers + spec.containers))
  }

  /** Copies before adding, because the pod labels may be the selector's own map. */
  method AddRevisionLabelsToPodSpec(dep: Deployment, c: RevisionLabels.Cluster, spec: PodSpec) returns (ok: bool)
    modifies dep`podLabels
    ensures ok == Revisions(c, spec).Loaded?
    ensures (RevisionLabels.PodCollisionFree(c, spec.volumes, spec.initContainers + spec.containers)
        && !RevisionLabels.SomeLookupBreaks(c, spec.volumes, spec.initContainers + spec.containers)) ==>
      (ok <==> !RevisionLabels.Lacks(c, spec.volumes, spec.initContainers + spec.containers))
    ensures !ok ==> dep.podLabels == old(dep.podLabels)
    ensures ok ==> dep.podLabels != null && fresh(dep.podLabels)
    ensures ok ==>
      dep.podLabels.entries == (if old(dep.podLabels) == null then map[] else old(dep.podLabels.entries)) + Revisions(c, spec).labels
  {
    var loader := new RevisionLabels.Loader(c);
    var revisions := loader.GetRelatedRevisionLabels(spec.volumes, spec.initContainers + spec.containers);
    ok := revisions.Loaded?;
    if !ok {
      return;
    }
    var newLabels := new LabelMap(map[]);
    if dep.podLabels != null {
      newLabels.entries := newLabels.entries + dep.podLabels.entries;
    }
    newLabels.entries := newLabels.entries + revisions.labels;
    dep.podLabels := newLabels;
  }

  /**
   One render, template and revision labels included. No map that existed before is written (the frame is the
   Deployment alone), and the one map shared at the start still holds exactly the operator's labels at the end.
   */
  method RenderLabels(
    dep: Deployment, instance: string, component: string, tpl: Option<DeploymentTemplate>, c: RevisionLabels.Cluster, spec: PodSpec)
    returns (ok: bool)
    modifies dep
    ensures ok == Revisions(c, spec).Loaded?
    ensures dep.selector != null && dep.selector.entries == ResourceLabels(instance, component)
    ensures dep.podLabels != null && Matches(dep.selector.entries, dep.podLabels.entries)
    ensures ok ==> dep.podLabels.entries == FinalPodLabels(ResourceLabels(instance, component), tpl, Revisions(c, spec).labels)
    ensures dep.labels != null && Matches(dep.selector.entries, dep.labels.entries)
  {
    var labels := new LabelMap(ResourceLabels(instance, component));
    dep.labels := labels;
    dep.selector := labels;
    dep.podLabels := labels;
    ApplyDeploymentTemplate(dep, tpl);
    ok := AddRevisionLabelsToPodSpec(dep, c, spec);
    if ok {
      SelectorAlwaysMatches(instance, component, tpl, c, RevisionLabels.PodRefs(spec.volumes, spec.initContainers + spec.containers));
    }
  }
}
