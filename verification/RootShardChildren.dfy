/** Listing the shards of a RootShard and recording them in its status. */
module RootShardChildren {
  import opened Wrappers
  import opened Ordering

  /** `root` is spec.rootShard.ref; the API lets it be absent. */
  datatype Shard = Shard(name: string, root: Option<string>, uid: string)

  datatype ListError = Unavailable | NilReference

  predicate Child(root: string, s: Shard) {
    s.root == Some(root)
  }

  function Children(root: string, shards: seq<Shard>): seq<Shard> {
    if shards == [] then []
    else
      var front, last := shards[..|shards| - 1], shards[|shards| - 1];
      Children(root, front) + (if Child(root, last) then [last] else [])
  }

  function ShardNames(shards: seq<Shard>): (r: seq<string>)
    ensures |r| == |shards| && forall i | 0 <= i < |r| :: r[i] == shards[i].name
  {
    seq(|shards|, i requires 0 <= i < |shards| => shards[i].name)
  }

  /** slices.SortFunc by name; names are unique in a namespace, so its instability does not show. */
  function Insert(s: Shard, sorted: seq<Shard>): seq<Shard> {
    if sorted == [] || LessEq(s.name, sorted[0].name) then [s] + sorted
    else [sorted[0]] + Insert(s, sorted[1..])
  }

  function SortByName(shards: seq<Shard>): seq<Shard> {
    if shards == [] then [] else Insert(shards[0], SortByName(shards[1..]))
  }

  /** A namespace holds one object per name. */
  ghost predicate UniqueNames(shards: seq<Shard>) {
    Distinct(ShardNames(shards))
  }

  lemma ConsInOrder(s: Shard, tail: seq<Shard>)
    requires UniqueNames(tail) && Sorted(ShardNames(tail))
    requires forall t | t in tail :: LessEq(s.name, t.name) && s.name != t.name
    ensures UniqueNames([s] + tail) && Sorted(ShardNames([s] + tail))
  {
  }

  lemma UnconsInOrder(sorted: seq<Shard>)
    requires sorted != [] && UniqueNames(sorted) && Sorted(ShardNames(sorted))
    ensures UniqueNames(sorted[1..]) && Sorted(ShardNames(sorted[1..]))
    ensures forall t | t in sorted[1..] :: LessEq(sorted[0].name, t.name) && sorted[0].name != t.name
  {
  }

  lemma {:induction false} InsertSorts(s: Shard, sorted: seq<Shard>)
    requires UniqueNames(sorted) && Sorted(ShardNames(sorted)) && forall t | t in sorted :: t.name != s.name
    ensures var r := Insert(s, sorted); UniqueNames(r) && Sorted(ShardNames(r)) && |r| == |sorted| + 1
    ensures forall t :: t in Insert(s, sorted) <==> t == s || t in sorted
    decreases |sorted|
  {
    if sorted == [] {
    } else {
      UnconsInOrder(sorted);
      if LessEq(s.name, sorted[0].name) {
        forall t | t in sorted
          ensures LessEq(s.name, t.name)
        {
          if t != sorted[0] {
            Transitive(s.name, sorted[0].name, t.name);
          }
        }
        ConsInOrder(s, sorted);
      } else {
        Ordering.Total(s.name, sorted[0].name);
        assert sorted[0] in sorted;
        InsertSorts(s, sorted[1..]);
        ConsInOrder(sorted[0], Insert(s, sorted[1..]));
      }
    }
  }

  lemma {:induction false} SortByNameSorts(shards: seq<Shard>)
    requires UniqueNames(shards)
    ensures var r := SortByName(shards);
      UniqueNames(r) && Sorted(ShardNames(r)) && |r| == |shards| && forall t :: t in r <==> t in shards
    decreases |shards|
  {
    if shards != [] {
      var rest := shards[1..];
      assert forall j | 0 <= j < |rest| :: ShardNames(rest)[j] == ShardNames(shards)[j + 1];
      SortByNameSorts(rest);
      forall t | t in rest
        ensures t.name != shards[0].name
      {
        var i :| 0 <= i < |rest| && rest[i] == t;
        assert ShardNames(shards)[i + 1] == t.name;
      }
      InsertSorts(shards[0], SortByName(rest));
    }
  }

  lemma {:induction false} ChildrenMembers(root: string, shards: seq<Shard>)
    ensures forall s :: s in Children(root, shards) <==> s in shards && Child(root, s)
    decreases |shards|
  {
    if shards != [] {
      var front, last := shards[..|shards| - 1], shards[|shards| - 1];
      ChildrenMembers(root, front);
      assert shards == front + [last];
    }
  }

  lemma SnocUnique(front: seq<Shard>, last: Shard)
    ensures UniqueNames(front + [last]) <==> UniqueNames(front) && forall t | t in front :: t.name != last.name
  {
    var names := ShardNames(front + [last]);
    assert forall i | 0 <= i < |front| :: front[i] in front && names[i] == ShardNames(front)[i];
    if UniqueNames(front + [last]) {
      forall t | t in front
        ensures t.name != last.name
      {
        var j :| 0 <= j < |front| && front[j] == t;
        assert names[j] == t.name && names[|front|] == last.name;
      }
      assert forall i, j | 0 <= i < j < |front| :: names[i] != names[j];
    }
  }

  lemma {:induction false} ChildrenUnique(root: string, shards: seq<Shard>)
    requires UniqueNames(shards)
    ensures UniqueNames(Children(root, shards))
    decreases |shards|
  {
    if shards != [] {
      var front, last := shards[..|shards| - 1], shards[|shards| - 1];
      assert shards == front + [last];
      SnocUnique(front, last);
      ChildrenUnique(root, front);
      ChildrenMembers(root, front);
      SnocUnique(Children(root, front), last);
    }
  }

  function NamesOf(shards: seq<Shard>): set<string> {
    set s | s in shards :: s.name
  }

  lemma NameSet(shards: seq<Shard>)
    ensures Elements(ShardNames(shards)) == NamesOf(shards)
  {
  }

  lemma SameNamesSameList(a: seq<Shard>, b: seq<Shard>)
    requires ShardNames(a) == ShardNames(b) && UniqueNames(b) && forall s | s in a :: s in b
    ensures a == b
  {
    assert |a| == |ShardNames(a)| == |b|;
    forall i | 0 <= i < |a|
      ensures a[i] == b[i]
    {
      assert a[i] in a;
      var j :| 0 <= j < |b| && b[j] == a[i];
      assert ShardNames(b)[j] == ShardNames(b)[i];
    }
  }

  /** Two name-sorted lists of the same objects are the same list. */
  lemma SortedListsAgree(a: seq<Shard>, b: seq<Shard>)
    requires UniqueNames(a) && Sorted(ShardNames(a)) && UniqueNames(b) && Sorted(ShardNames(b))
    requires forall s :: s in a <==> s in b
    ensures a == b
  {
    var na, nb := ShardNames(a), ShardNames(b);
    NameSet(a);
    NameSet(b);
    assert NamesOf(a) == NamesOf(b);
    SortedListUnique(na);
    SortedListUnique(nb);
    SameNamesSameList(a, b);
  }

  /**
   Canonical listing: the order in which the API server happens to return the shards does not matter, so a
   RootShard whose children did not change records exactly what it recorded before.
   */
  lemma ListingIsCanonical(root: string, listed: seq<Shard>, again: seq<Shard>)
    requires UniqueNames(listed) && UniqueNames(again) && forall s :: s in listed <==> s in again
    ensures SortByName(Children(root, listed)) == SortByName(Children(root, again))
  {
    ChildrenMembers(root, listed);
    ChildrenMembers(root, again);
    ChildrenUnique(root, listed);
    ChildrenUnique(root, again);
    SortByNameSorts(Children(root, listed));
    SortByNameSorts(Children(root, again));
    SortedListsAgree(SortByName(Children(root, listed)), SortByName(Children(root, again)));
  }

  function ChildNames(root: string, shards: seq<Shard>): set<string> {
    set s | s in shards && Child(root, s) :: s.name
  }

  /** The result is the matching shards, each once, in the order of their names. */
  lemma ListingNames(root: string, shards: seq<Shard>)
    requires UniqueNames(shards)
    ensures ShardNames(SortByName(Children(root, shards))) == SortedList(ChildNames(root, shards))
    ensures forall s :: s in SortByName(Children(root, shards)) <==> s in shards && s.root == Some(root)
  {
    var r := SortByName(Children(root, shards));
    ChildrenMembers(root, shards);
    ChildrenUnique(root, shards);
    SortByNameSorts(Children(root, shards));
    NameSet(r);
    assert NamesOf(r) == ChildNames(root, shards);
    SortedListUnique(ShardNames(r));
  }

  /** Filters what the API server listed and sorts it by name; a missing reference is a nil dereference. */
  method GetRootShardChildren(root: string, listed: Result<seq<Shard>, ListError>) returns (r: Result<seq<Shard>, ListError>)
    ensures listed.Err? ==> r == listed
    ensures listed.Ok? ==>
      if exists s | s in listed.value :: s.root.None? then r == Err(NilReference)
      else r == Ok(SortByName(Children(root, listed.value)))
  {
    if listed.Err? {
      return listed;
    }
    var shards := listed.value;
    var result: seq<Shard> := [];
    for i := 0 to |shards|
      invariant result == Children(root, shards[..i])
      invariant forall j | 0 <= j < i :: shards[j].root.Some?
    {
      assert shards[..i + 1][..i] == shards[..i];
      if shards[i].root.None? {
        assert shards[i] in shards;
        return Err(NilReference);
      }
      if shards[i].root.value == root {
        result := result + [shards[i]];
      }
    }
    assert shards[..|shards|] == shards;
    r := Ok(SortByName(result));
  }

  method References(shards: seq<Shard>) returns (names: seq<string>)
    ensures names == ShardNames(shards)
  {
    names := [];
    for i := 0 to |shards|
      invariant names == ShardNames(shards[..i])
    {
      names := names + [shards[i].name];
      assert ShardNames(shards[..i + 1]) == ShardNames(shards[..i]) + [shards[i].name];
    }
    assert shards[..|shards|] == shards;
  }

  /**
   The shard part of reconcileStatus: the new Status.Shards, and whether the status, of which other parts may have changed,
   needs a patch. A failed list leaves the shards as recorded; a missing reference ends the reconcile.
   */
  method RecordShards(recorded: seq<string>, root: string, listed: Result<seq<Shard>, ListError>, otherChange: bool)
    returns (names: seq<string>, patch: bool, panicked: bool)
    requires listed.Ok? ==> UniqueNames(listed.value)
    ensures panicked <==> listed == Err(NilReference) || (listed.Ok? && exists s | s in listed.value :: s.root.None?)
    ensures !panicked ==> names == if listed.Ok? then SortedList(ChildNames(root, listed.value)) else recorded
    ensures patch <==> !panicked && (otherChange || names != recorded)
  {
    var children := GetRootShardChildren(root, listed);
    names, patch, panicked := recorded, false, children == Err(NilReference);
    if panicked {
      return;
    }
    if children.Ok? {
      names := References(children.value);
      ListingNames(root, listed.value);
    }
    patch := otherChange || recorded != names;
  }
}
