/** Binding names and the isolation of one Kubeconfig from all others. */
module RbacNaming {
  import opened Wrappers
  import opened ApiCalls
  import opened Ordering
  import opened RbacModel

  predicate ColonFree(uid: Uid) {
    ':' !in uid
  }

  /** Roles may contain colons; as long as UIDs do not, a name still determines both parts. */
  lemma {:induction false} BindingNameInjective(u1: Uid, r1: string, u2: Uid, r2: string)
    requires ColonFree(u1) && ColonFree(u2)
    requires BindingName(u1, r1) == BindingName(u2, r2)
    ensures u1 == u2 && r1 == r2
    decreases |u1|
  {
    var n1, n2 := BindingName(u1, r1), BindingName(u2, r2);
    assert n1[0] == (if u1 == "" then ':' else u1[0]) && n2[0] == (if u2 == "" then ':' else u2[0]);
    if u1 == "" || u2 == "" {
      assert u1 == u2 == "";
      assert r1 == n1[1..] && r2 == n2[1..];
    } else {
      assert n1[1..] == BindingName(u1[1..], r1) && n2[1..] == BindingName(u2[1..], r2);
      BindingNameInjective(u1[1..], r1, u2[1..], r2);
      assert u1 == [u1[0]] + u1[1..] && u2 == [u2[0]] + u2[1..];
    }
  }

  /** Some two roles give these UIDs the same binding name. */
  ghost predicate CanCollide(u1: Uid, u2: Uid) {
    exists r1, r2 :: BindingName(u1, r1) == BindingName(u2, r2)
  }

  /** Without that assumption two UIDs can collide exactly if one of them, followed by a colon, begins the other. */
  lemma UidsCollideIff(u1: Uid, u2: Uid)
    requires u1 != u2
    ensures CanCollide(u1, u2) <==> u1 + ":" <= u2 || u2 + ":" <= u1
  {
    if r1, r2 :| BindingName(u1, r1) == BindingName(u2, r2) {
      var n := BindingName(u1, r1);
      assert u1 == n[..|u1|] && u2 == n[..|u2|] && n[|u1|] == ':' && n[|u2|] == ':';
      if |u1| < |u2| {
        assert u2[..|u1| + 1] == u1 + ":";
      } else if |u2| < |u1| {
        assert u1[..|u2| + 1] == u2 + ":";
      }
    }
    if u1 + ":" <= u2 {
      assert BindingName(u1, u2[|u1| + 1..] + ":") == BindingName(u2, "");
    }
    if u2 + ":" <= u1 {
      assert BindingName(u1, "") == BindingName(u2, u1[|u2| + 1..] + ":");
    }
  }

  ghost predicate WellNamed(w: World) {
    forall k | k in w.bindings && w.bindings[k].owner.Some? ::
      k.name == BindingName(w.bindings[k].owner.value, w.bindings[k].role)
  }

  /** Every controller of a Kubeconfig names its labelled bindings by the same scheme. */
  ghost predicate FollowsScheme(step: Step) {
    step.Env? && step.e.PutBinding? && step.e.binding.owner.Some? ==>
      step.e.key.name == BindingName(step.e.binding.owner.value, step.e.binding.role)
  }

  ghost predicate NameOf(uid: Uid, n: string) {
    exists r :: n == BindingName(uid, r)
  }

  ghost predicate NameInv(s: State) {
    && WellNamed(s.w)
    && (s.pc.Deleting? ==> forall n | n in s.pc.todo :: NameOf(s.pc.kc.uid, n))
  }

  lemma OwnedNamesAreNames(w: World, kc: Kubeconfig, ws: Workspace)
    requires WellNamed(w)
    ensures forall n | n in OwnedNames(w, kc.uid, ws) + OverhangingNames(w, kc, ws) :: NameOf(kc.uid, n)
  {
  }

  lemma NextKeepsNames(s: State, step: Step)
    requires NameInv(s) && FollowsScheme(step)
    ensures NameInv(Next(s, step))
  {
    if step.Call? && s.pc.Listing? {
      var kc, ws := s.pc.kc, s.pc.ws;
      OwnedNamesAreNames(s.w, kc, ws);
      var names := SortedList(if s.pc.unprovision then OwnedNames(s.w, kc.uid, ws) else OverhangingNames(s.w, kc, ws));
      forall n | n in names
        ensures NameOf(kc.uid, n)
      {
        assert n in Elements(names);
      }
    }
  }

  lemma {:induction false} RunKeepsNames(s: State, steps: seq<Step>)
    requires NameInv(s) && forall step | step in steps :: FollowsScheme(step)
    ensures NameInv(Run(s, steps))
    decreases |steps|
  {
    if steps != [] {
      RunKeepsNames(s, steps[..|steps| - 1]);
      NextKeepsNames(Run(s, steps[..|steps| - 1]), steps[|steps| - 1]);
    }
  }

  /** The bindings labelled with one UID. */
  ghost function LabelledWith(w: World, uid: Uid): map<Key, Binding> {
    map k | k in w.bindings && w.bindings[k].owner == Some(uid) :: w.bindings[k]
  }

  /**
   Non-interference: at any moment of any run, the controller's next call, whatever it is and however it
   ends, leaves the bindings of every other Kubeconfig exactly as they are.
   */
  lemma CallsLeaveOthersAlone(s0: State, steps: seq<Step>, outcome: Outcome, other: Uid)
    requires Initial(s0) && WellNamed(s0.w) && forall step | step in steps :: FollowsScheme(step)
    requires var pc := Run(s0, steps).pc; pc.Idle? || (ColonFree(pc.kc.uid) && pc.kc.uid != other)
    requires ColonFree(other)
    ensures var s := Run(s0, steps); LabelledWith(Next(s, Call(outcome)).w, other) == LabelledWith(s.w, other)
  {
    RunKeepsNames(s0, steps);
    var s := Run(s0, steps);
    var w, w' := s.w, Next(s, Call(outcome)).w;
    if w'.bindings != w.bindings {
      var kc := s.pc.kc;
      forall k | k in w.bindings && w.bindings[k].owner == Some(other)
        ensures k in w'.bindings && w'.bindings[k] == w.bindings[k]
      {
        if NameOf(kc.uid, k.name) {
          var r :| k.name == BindingName(kc.uid, r);
          BindingNameInjective(kc.uid, r, other, w.bindings[k].role);
        }
      }
    }
  }
}
