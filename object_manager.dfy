/**
 * gs.ObjectManager: the list of managed game objects, the id registry (an id
 * maps to every object registered under it, the last one wins on lookup) and
 * the object groups, plus the update pass that sorts by `order` and drops
 * disposed objects.
 */
module ObjectManager {
  import opened Common

  /** The parts of a game object the manager reads and writes. */
  class GameObject {
    var id: Option<string>
    var group: Option<string>
    var order: int
    var disposed: bool
    var active: bool

    constructor (id: Option<string>, group: Option<string>, order: int, active: bool)
      ensures this.id == id && this.group == group && this.order == order
      ensures this.active == active && !disposed
    {
      this.id := id;
      this.group := group;
      this.order := order;
      this.active := active;
      disposed := false;
    }
  }

  /** A dictionary of object lists (objectsById, objectsByGroup_). */
  type Lists = map<string, seq<GameObject>>

  /** The list stored under `k`, or the empty list when there is none. */
  function Lookup(m: Lists, k: string): seq<GameObject> {
    if k in m then m[k] else []
  }

  // ---------------------------------------------------------------- id registry

  /** `registerObject` for an object whose id is `id`: appends it to that id's list. */
  function Register(reg: Lists, id: Option<string>, o: GameObject): (r: Lists)
    ensures id.None? ==> r == reg
    ensures id.Some? ==> r.Keys == reg.Keys + {id.value} && Lookup(r, id.value) == Lookup(reg, id.value) + [o]
    ensures forall k :: k in reg && Some(k) != id ==> k in r && r[k] == reg[k]
  {
    if id.None? then reg else reg[id.value := Lookup(reg, id.value) + [o]]
  }

  /**
   * Takes `o` out of the list stored under `k`, when there is one: what
   * `unregisterObject` does to the id dictionary and what `addToGroup` and
   * the corrected `remove` do to the group dictionary.
   */
  function Unlist(m: Lists, k: Option<string>, o: GameObject): (r: Lists)
    ensures r.Keys == m.Keys
    ensures k.Some? && k.value in m ==> r[k.value] == RemoveFirst(m[k.value], o)
    ensures forall k' :: k' in m && Some(k') != k ==> r[k'] == m[k']
  {
    if k.Some? && k.value in m then m[k.value := RemoveFirst(m[k.value], o)] else m
  }

  /** `objectById` / `byId`: the object registered last under `k`, if any. */
  function ById(reg: Lists, k: string): (r: Option<GameObject>)
    ensures r.None? <==> Lookup(reg, k) == []
    ensures r.Some? ==> r.value == Lookup(reg, k)[|Lookup(reg, k)| - 1]
  {
    if k in reg && reg[k] != [] then Some(reg[k][|reg[k]| - 1]) else None
  }

  /** The object registered last is the one a lookup returns. */
  lemma RegisterThenById(reg: Lists, k: string, o: GameObject)
    ensures ById(Register(reg, Some(k), o), k) == Some(o)
    ensures forall k' :: k' != k ==> ById(Register(reg, Some(k), o), k') == ById(reg, k')
  {
  }

  /**
   * Unregistering the object registered last makes lookups answer as they did
   * before it was registered.
   */
  lemma UnregisterUndoesRegister(reg: Lists, k: string, o: GameObject, k': string)
    requires o !in Lookup(reg, k)
    ensures ById(Unlist(Register(reg, Some(k), o), Some(k), o), k') == ById(reg, k')
  {
    var l := Lookup(reg, k);
    RemoveFirstLast(l, o);
  }

  /** Removing the only occurrence of the last element leaves the prefix. */
  lemma {:induction false} RemoveFirstLast(l: seq<GameObject>, o: GameObject)
    requires o !in l
    ensures RemoveFirst(l + [o], o) == l
  {
    if l != [] {
      assert (l + [o])[1..] == l[1..] + [o];
      RemoveFirstLast(l[1..], o);
    }
  }

  /**
   * After unregistering the object a lookup returned, the lookup returns the
   * object registered just before it, or nothing.
   */
  lemma UnregisterRevealsPrevious(reg: Lists, k: string, prefix: seq<GameObject>, o: GameObject)
    requires k in reg && reg[k] == prefix + [o] && o !in prefix
    ensures ById(Unlist(reg, Some(k), o), k) == if prefix == [] then None else Some(prefix[|prefix| - 1])
  {
    RemoveFirstLast(prefix, o);
  }

  // ---------------------------------------------------------------- groups

  /**
   * `addToGroup` for an object whose current group is `current`: with a
   * non-null `group`, takes the object out of the current group's list and
   * appends it to the list of `group`.
   */
  function JoinGroup(groups: Lists, current: Option<string>, group: Option<string>, o: GameObject): (r: Lists)
    ensures group.None? ==> r == groups
    ensures group.Some? ==> r.Keys == groups.Keys + {group.value}
    ensures group.Some? ==> Lookup(r, group.value) == Lookup(Unlist(groups, current, o), group.value) + [o]
  {
    if group.None? then groups
    else
      var left := Unlist(groups, current, o);
      left[group.value := Lookup(left, group.value) + [o]]
  }

  /** Joining the object's own group again keeps exactly one entry of it there. */
  lemma {:induction false} JoinOwnGroupOnce(groups: Lists, g: string, o: GameObject)
    requires multiset(Lookup(groups, g))[o] <= 1
    ensures multiset(Lookup(JoinGroup(groups, Some(g), Some(g), o), g))[o] == 1
    ensures multiset(Lookup(JoinGroup(JoinGroup(groups, Some(g), Some(g), o), Some(g), Some(g), o), g))[o] == 1
  {
    var l := Lookup(groups, g);
    var once := JoinGroup(groups, Some(g), Some(g), o);
    assert Lookup(Unlist(groups, Some(g), o), g) == RemoveFirst(l, o);
    RemoveFirstMultiset(l, o);
    assert multiset(Lookup(once, g)) == multiset(RemoveFirst(l, o)) + multiset{o};
    var l1 := Lookup(once, g);
    assert Lookup(Unlist(once, Some(g), o), g) == RemoveFirst(l1, o);
    RemoveFirstMultiset(l1, o);
    assert multiset(Lookup(JoinGroup(once, Some(g), Some(g), o), g)) == multiset(RemoveFirst(l1, o)) + multiset{o};
  }

  /**
   * `addToGroup` never records the group on the object, so adding an object
   * twice to a group other than its own leaves two entries there.
   */
  lemma JoinOtherGroupTwice(o: GameObject)
    ensures var once := JoinGroup(map[], None, Some("b"), o);
            Lookup(JoinGroup(once, None, Some("b"), o), "b") == [o, o]
  {
  }

  // ---------------------------------------------------------------- remove, as written and corrected

  /**
   * What `remove` does to the registry and the groups as the source is written:
   * the group cleanup looks the group up on the method `objectsByGroup`
   * instead of the dictionary `objectsByGroup_`, finds nothing and removes
   * nothing, so `groups` is returned unchanged.
   */
  function AfterRemoveAsWritten(objects: seq<GameObject>, reg: Lists, groups: Lists, id: Option<string>, o: GameObject)
    : (r: (seq<GameObject>, Lists, Lists))
    ensures r.0 == RemoveFirst(objects, o) && r.1 == Unlist(reg, id, o)
  {
    (RemoveFirst(objects, o), Unlist(reg, id, o), groups)
  }

  /** The removal the group cleanup evidently intends: the object also leaves its group's list. */
  function AfterRemove(objects: seq<GameObject>, reg: Lists, groups: Lists, id: Option<string>, group: Option<string>, o: GameObject)
    : (r: (seq<GameObject>, Lists, Lists))
    ensures r.0 == RemoveFirst(objects, o) && r.1 == Unlist(reg, id, o)
  {
    (RemoveFirst(objects, o), Unlist(reg, id, o), Unlist(groups, group, o))
  }

  /** As written, an object added with a group is still listed in that group after `remove`. */
  lemma RemoveAsWrittenKeepsGroup(o: GameObject)
    ensures var groups := JoinGroup(map[], Some("g"), Some("g"), o);
            var after := AfterRemoveAsWritten([o], map[], groups, None, o);
            after.0 == [] && Lookup(after.2, "g") == [o]
  {
  }

  /** Corrected, `remove` undoes the group entry that `add` made. */
  lemma RemoveFixedLeavesGroup(groups: Lists, g: string, o: GameObject)
    requires o !in Lookup(groups, g)
    ensures var added := JoinGroup(groups, Some(g), Some(g), o);
            var after := AfterRemove([o], map[], added, None, Some(g), o);
            Lookup(after.2, g) == Lookup(groups, g) && o !in Lookup(after.2, g)
  {
    var l := Lookup(groups, g);
    assert RemoveFirst(l, o) == l;
    RemoveFirstLast(l, o);
  }

  // ---------------------------------------------------------------- the update pass

  /**
   * The fields of one object that the update pass reads, taken at the start
   * of the pass. The objects' own `update` is taken to change none of them,
   * so two views of one object taken then are equal.
   */
  datatype View = View(obj: GameObject, id: Option<string>, group: Option<string>, order: int, disposed: bool, active: bool)

  /** The view of `o` in the current state. */
  function ViewOf(o: GameObject): View
    reads o
  {
    View(o, o.id, o.group, o.order, o.disposed, o.active)
  }

  /** The views of the objects of `s`, position by position. */
  function Views(s: seq<GameObject>): (vs: seq<View>)
    reads s
    ensures |vs| == |s| && forall i :: 0 <= i < |s| ==> vs[i].obj == s[i]
  {
    seq(|s|, i requires 0 <= i < |s| reads s => ViewOf(s[i]))
  }

  /** The objects the views of `vs` are of. */
  function Objects(vs: seq<View>): (s: seq<GameObject>)
    ensures |s| == |vs| && forall i :: 0 <= i < |vs| ==> s[i] == vs[i].obj
  {
    seq(|vs|, i requires 0 <= i < |vs| => vs[i].obj)
  }

  /** `s` is in non-increasing `order`. */
  predicate SortedByOrder(s: seq<View>) {
    forall i, j :: 0 <= i < j < |s| ==> s[i].order >= s[j].order
  }

  /** The objects of `s` that are not disposed, in their order in `s`. */
  function Live(s: seq<View>): seq<View> {
    if s == [] then []
    else
      var last := s[|s| - 1];
      Live(s[..|s| - 1]) + (if last.disposed then [] else [last])
  }

  /** The disposed objects of `s`, in their order in `s`. */
  function Dead(s: seq<View>): seq<View> {
    if s == [] then []
    else
      var last := s[|s| - 1];
      Dead(s[..|s| - 1]) + (if last.disposed then [last] else [])
  }

  /** The active objects of `s`, in order: those whose `update` the pass calls. */
  function Active(s: seq<View>): seq<View> {
    if s == [] then []
    else
      var last := s[|s| - 1];
      Active(s[..|s| - 1]) + (if last.active then [last] else [])
  }

  /** The registry after unregistering each object of `ds` in turn. */
  function UnregisterAll(reg: Lists, ds: seq<View>): (r: Lists)
    ensures r.Keys == reg.Keys
  {
    if ds == [] then reg
    else
      var last := ds[|ds| - 1];
      Unlist(UnregisterAll(reg, ds[..|ds| - 1]), last.id, last.obj)
  }

  /** The survivors are exactly the objects of `s` that are not disposed. */
  lemma {:induction false} LiveMembers(s: seq<View>)
    ensures forall v :: v in Live(s) <==> v in s && !v.disposed
  {
    if s != [] {
      LiveMembers(s[..|s| - 1]);
      assert s == s[..|s| - 1] + [s[|s| - 1]];
    }
  }

  /** The removed objects are exactly the disposed objects of `s`. */
  lemma {:induction false} DeadMembers(s: seq<View>)
    ensures forall v :: v in Dead(s) <==> v in s && v.disposed
  {
    if s != [] {
      DeadMembers(s[..|s| - 1]);
      assert s == s[..|s| - 1] + [s[|s| - 1]];
    }
  }

  /** Survivors and removed objects together are `s` rearranged: nothing is lost or duplicated. */
  lemma {:induction false} LiveDeadPartition(s: seq<View>)
    ensures multiset(Live(s)) + multiset(Dead(s)) == multiset(s)
  {
    if s != [] {
      var init := s[..|s| - 1];
      LiveDeadPartition(init);
      assert s == init + [s[|s| - 1]];
      assert multiset(s) == multiset(init) + multiset{s[|s| - 1]};
    }
  }

  /** A lower bound on the orders in `s` bounds the survivors' orders too. */
  lemma {:induction false} LiveLowerBound(s: seq<View>, b: int)
    requires forall i :: 0 <= i < |s| ==> s[i].order >= b
    ensures forall i :: 0 <= i < |Live(s)| ==> Live(s)[i].order >= b
  {
    if s != [] {
      LiveLowerBound(s[..|s| - 1], b);
    }
  }

  /** Dropping disposed objects keeps the survivors' order, so a sorted list stays sorted. */
  lemma {:induction false} LiveKeepsSorted(s: seq<View>)
    requires SortedByOrder(s)
    ensures SortedByOrder(Live(s))
  {
    if s != [] {
      var init, last := s[..|s| - 1], s[|s| - 1];
      LiveKeepsSorted(init);
      LiveLowerBound(init, last.order);
      var l := Live(init);
      if !last.disposed {
        assert Live(s) == l + [last];
        forall i, j | 0 <= i < j < |l| + 1 ensures (l + [last])[i].order >= (l + [last])[j].order {
          if j == |l| {
            assert (l + [last])[i] == l[i];
          }
        }
      }
    }
  }

  /** The objects updated are the active survivors: each is live, active and in `s`. */
  lemma {:induction false} ActiveOfLive(s: seq<View>)
    ensures forall v :: v in Active(Live(s)) <==> v in s && v.active && !v.disposed
  {
    if s != [] {
      var init := s[..|s| - 1];
      ActiveOfLive(init);
      assert s == init + [s[|s| - 1]];
      var last := s[|s| - 1];
      var l := Live(init);
      var tail := if last.disposed then [] else [last];
      ActiveAppend(l, tail);
    }
  }

  /** `Active` distributes over concatenation. */
  lemma {:induction false} ActiveAppend(a: seq<View>, b: seq<View>)
    ensures Active(a + b) == Active(a) + Active(b)
  {
    if b != [] {
      assert (a + b)[..|a + b| - 1] == a + b[..|b| - 1];
      ActiveAppend(a, b[..|b| - 1]);
    } else {
      assert a + b == a;
    }
  }

  /** `s` with `v` inserted after every view whose order is at least `v`'s. */
  function InsertByOrder(s: seq<View>, v: View): (r: seq<View>)
    ensures multiset(r) == multiset(s) + multiset{v}
  {
    if s == [] then [v]
    else
      assert s == [s[0]] + s[1..];
      if s[0].order < v.order then [v] + s
      else [s[0]] + InsertByOrder(s[1..], v)
  }

  /** Inserting into a sorted list keeps it sorted. */
  lemma {:induction false} InsertByOrderSorted(s: seq<View>, v: View)
    requires SortedByOrder(s)
    ensures SortedByOrder(InsertByOrder(s, v))
    ensures InsertByOrder(s, v) != [] && (InsertByOrder(s, v)[0] == v || InsertByOrder(s, v)[0] == s[0])
  {
    if s != [] && s[0].order >= v.order {
      assert SortedByOrder(s[1..]);
      InsertByOrderSorted(s[1..], v);
    }
  }

  /**
   * The sort of the update pass (`objects.sort` with a comparator that puts a
   * higher `order` first): a rearrangement of `s` in non-increasing order.
   */
  method SortByOrder(s: seq<View>) returns (r: seq<View>)
    ensures SortedByOrder(r)
    ensures multiset(r) == multiset(s)
  {
    r := [];
    var i := 0;
    while i < |s|
      invariant 0 <= i <= |s|
      invariant SortedByOrder(r)
      invariant multiset(r) == multiset(s[..i])
    {
      InsertByOrderSorted(r, s[i]);
      r := InsertByOrder(r, s[i]);
      assert s[..i + 1] == s[..i] + [s[i]];
      i := i + 1;
    }
    assert s[..i] == s;
  }

  /** One more visited object: it joins the survivors or the removed objects. */
  lemma PrefixStep(s: seq<View>, j: nat)
    requires j < |s|
    ensures s[j].disposed ==> Live(s[..j + 1]) == Live(s[..j]) && Dead(s[..j + 1]) == Dead(s[..j]) + [s[j]]
    ensures !s[j].disposed ==> Live(s[..j + 1]) == Live(s[..j]) + [s[j]] && Dead(s[..j + 1]) == Dead(s[..j])
  {
    assert s[..j + 1][..j] == s[..j];
  }

  /**
   * In the removal loop the current list is the survivors so far (`kept`)
   * followed by the unvisited rest. The next object visited is at index
   * `|kept|`; when it is disposed, removing its first occurrence removes
   * exactly that position, because no survivor is disposed.
   */
  lemma VisitStep(s: seq<View>, j: nat, kept: seq<View>)
    requires j < |s| && kept == Live(s[..j])
    ensures (kept + s[j..])[|kept|] == s[j]
    ensures s[j].disposed ==> RemoveFirst(kept + s[j..], s[j]) == kept + s[j + 1..]
    ensures !s[j].disposed ==> kept + s[j..] == (kept + [s[j]]) + s[j + 1..]
  {
    assert s[j..] == [s[j]] + s[j + 1..];
    if s[j].disposed {
      LiveMembers(s[..j]);
      RemoveFirstAfter(kept, s[j], s[j + 1..]);
    }
  }

  /** Unregistering one more removed object. */
  lemma RemovedStep(reg: Lists, d: seq<View>, x: View)
    ensures UnregisterAll(reg, d + [x]) == Unlist(UnregisterAll(reg, d), x.id, x.obj)
  {
    assert (d + [x])[..|d|] == d;
  }

  /** Updating one more survivor when it is active. */
  lemma UpdatedStep(l: seq<View>, x: View)
    ensures Objects(Active(l + [x])) == Objects(Active(l)) + (if x.active then [x.obj] else [])
  {
    assert (l + [x])[..|l|] == l;
    var a := Active(l);
    assert Objects(a + [x]) == Objects(a) + [x.obj];
  }

  /** Removing `x` from `p + [x] + q` when `x` does not occur in `p`. */
  lemma {:induction false} RemoveFirstAfter<T>(p: seq<T>, x: T, q: seq<T>)
    requires x !in p
    ensures RemoveFirst(p + ([x] + q), x) == p + q
  {
    var s := p + ([x] + q);
    if p == [] {
      assert s == [x] + q;
    } else {
      assert s[0] == p[0] && s[0] != x;
      assert s[1..] == p[1..] + ([x] + q);
      RemoveFirstAfter(p[1..], x, q);
      assert [p[0]] + (p[1..] + q) == p + q;
    }
  }

  /**
   * The loop of `update` over the views `s`, the registry `reg0` and the
   * record `upd0` of updated objects: a disposed object is removed with
   * `removeObject`, that is `remove` as written (list entry and id entry; its
   * group cleanup finds nothing, so the group dictionary is not touched), and
   * the index stays; otherwise the object is updated when active and the
   * index advances.
   */
  method SweepPass(s: seq<View>, reg0: Lists, upd0: seq<GameObject>)
    returns (live: seq<View>, reg: Lists, upd: seq<GameObject>)
    ensures live == Live(s)
    ensures upd == upd0 + Objects(Active(Live(s)))
    ensures reg == UnregisterAll(reg0, Dead(s))
  {
    ghost var j := 0;
    ghost var kept: seq<View> := [];
    ghost var dead: seq<View> := [];
    live, reg, upd := s, reg0, upd0;
    var i := 0;
    while i < |live|
      invariant 0 <= j <= |s|
      invariant kept == Live(s[..j]) && dead == Dead(s[..j])
      invariant live == kept + s[j..] && i == |kept|
      invariant upd == upd0 + Objects(Active(kept))
      invariant reg == UnregisterAll(reg0, dead)
      decreases |s| - j
    {
      VisitStep(s, j, kept);
      PrefixStep(s, j);
      var v := live[i];
      if v.disposed {
        RemovedStep(reg0, dead, v);
        live := RemoveFirst(live, v);
        reg := Unlist(reg, v.id, v.obj);
        dead := dead + [v];
      } else {
        UpdatedStep(kept, v);
        if v.active {
          upd := upd + [v.obj];
        }
        kept := kept + [v];
        i := i + 1;
      }
      j := j + 1;
    }
    assert s[..j] == s;
  }

  /** The manager. */
  class Manager {
    /** All managed game objects (`objects`). */
    var objects: seq<GameObject>
    /** Objects by id (`objectsById`). */
    var objectsById: Lists
    /** Objects by group (`objectsByGroup_`). */
    var objectsByGroup: Lists
    var active: bool
    var needsSort: bool
    /** The objects whose own `update` has been called, in call order. */
    var updated: seq<GameObject>

    constructor ()
      ensures objects == [] && objectsById == map[] && objectsByGroup == map[]
      ensures active && needsSort && updated == []
    {
      objects := [];
      objectsById := map[];
      objectsByGroup := map[];
      active := true;
      needsSort := true;
      updated := [];
    }

    /** `registerObject`. */
    method RegisterObject(o: GameObject)
      modifies this`objectsById
      ensures objectsById == Register(old(objectsById), o.id, o)
    {
      if o.id.Some? {
        var id := o.id.value;
        if id !in objectsById {
          objectsById := objectsById[id := []];
        }
        objectsById := objectsById[id := objectsById[id] + [o]];
      }
    }

    /** `unregisterObject`. */
    method UnregisterObject(o: GameObject)
      modifies this`objectsById
      ensures objectsById == Unlist(old(objectsById), o.id, o)
    {
      if o.id.Some? && o.id.value in objectsById {
        objectsById := objectsById[o.id.value := RemoveFirst(objectsById[o.id.value], o)];
      }
    }

    /** `addToGroup`. */
    method AddToGroup(o: GameObject, group: Option<string>)
      modifies this`objectsByGroup
      ensures objectsByGroup == JoinGroup(old(objectsByGroup), o.group, group, o)
    {
      if group.Some? {
        if o.group.Some? && o.group.value in objectsByGroup {
          objectsByGroup := objectsByGroup[o.group.value := RemoveFirst(objectsByGroup[o.group.value], o)];
        }
        assert objectsByGroup == Unlist(old(objectsByGroup), o.group, o);
        var list := if group.value in objectsByGroup then objectsByGroup[group.value] else [];
        objectsByGroup := objectsByGroup[group.value := list + [o]];
      }
    }

    /** `add` (and `addObject`): appends, asks for a sort, registers the id and joins the object's group. */
    method Add(o: GameObject)
      modifies this`objects, this`needsSort, this`objectsById, this`objectsByGroup
      ensures objects == old(objects) + [o] && needsSort
      ensures objectsById == Register(old(objectsById), o.id, o)
      ensures objectsByGroup == JoinGroup(old(objectsByGroup), o.group, o.group, o)
    {
      objects := objects + [o];
      needsSort := true;
      RegisterObject(o);
      AddToGroup(o, o.group);
    }

    /** `remove` (and `removeObject`) as the source is written: the object keeps its group entry. */
    method RemoveAsWritten(o: GameObject)
      modifies this`objects, this`objectsById
      ensures (objects, objectsById, objectsByGroup) ==
        AfterRemoveAsWritten(old(objects), old(objectsById), old(objectsByGroup), o.id, o)
    {
      objects := RemoveFirst(objects, o);
      UnregisterObject(o);
    }

    /** `remove` with its group cleanup applied to the group dictionary. */
    method Remove(o: GameObject)
      modifies this`objects, this`objectsById, this`objectsByGroup
      ensures objects == RemoveFirst(old(objects), o)
      ensures objectsById == Unlist(old(objectsById), o.id, o)
      ensures objectsByGroup == Unlist(old(objectsByGroup), o.group, o)
    {
      objects := RemoveFirst(objects, o);
      UnregisterObject(o);
      var group := o.group;
      if group.Some? && group.value in objectsByGroup {
        objectsByGroup := objectsByGroup[group.value := RemoveFirst(objectsByGroup[group.value], o)];
      }
    }

    /** `objectById` and `byId`: the object registered last under `id`, or nothing. */
    method ObjectById(id: string) returns (r: Option<GameObject>)
      ensures r.None? <==> (id !in objectsById || objectsById[id] == [])
      ensures r.Some? ==> r.value == objectsById[id][|objectsById[id]| - 1]
    {
      if id in objectsById && objectsById[id] != [] {
        r := Some(objectsById[id][|objectsById[id]| - 1]);
      } else {
        r := None;
      }
    }

    /**
     * `setObjectById`: with a falsy id (null or empty) nothing happens;
     * otherwise the object takes the id and is appended to its list.
     */
    method SetObjectById(o: GameObject, id: Option<string>)
      modifies this`objectsById, o`id
      ensures id.None? || id == Some("") ==> objectsById == old(objectsById) && o.id == old(o.id)
      ensures id.Some? && id != Some("") ==>
        o.id == id && objectsById == Register(old(objectsById), id, o)
    {
      if id.None? || id.value == "" {
        return;
      }
      o.id := id;
      var k := id.value;
      if k !in objectsById {
        assert [o] == Lookup(objectsById, k) + [o];
        objectsById := objectsById[k := [o]];
      } else {
        objectsById := objectsById[k := objectsById[k] + [o]];
      }
    }

    /** `objectsByGroup`: the group's list, or an empty list for an unknown group. */
    method ObjectsByGroup(group: string) returns (r: seq<GameObject>)
      ensures group in objectsByGroup ==> r == objectsByGroup[group]
      ensures group !in objectsByGroup ==> r == []
    {
      if group in objectsByGroup {
        r := objectsByGroup[group];
      } else {
        r := [];
      }
    }

    /**
     * `update`: sorts the objects by `order` (highest first) when a sort is
     * pending, then runs the removal loop over the `arranged` list. The
     * objects' own `update` is recorded in `updated` and taken to add,
     * dispose and reorder nothing. Disposed objects go through `remove` as
     * written, so they stay listed in their groups.
     */
    method Update() returns (ghost arranged: seq<View>)
      modifies this`objects, this`objectsById, this`updated, this`needsSort
      ensures !needsSort
      ensures old(needsSort) ==> SortedByOrder(arranged) && multiset(arranged) == multiset(old(Views(objects)))
      ensures !old(needsSort) ==> arranged == old(Views(objects))
      ensures objects == Objects(Live(arranged))
      ensures old(needsSort) ==> SortedByOrder(Live(arranged))
      ensures updated == old(updated) + Objects(Active(Live(arranged)))
      ensures objectsById == UnregisterAll(old(objectsById), Dead(arranged))
      ensures objectsByGroup == old(objectsByGroup)
    {
      var vs := Views(objects);
      if needsSort {
        vs := SortByOrder(vs);
        needsSort := false;
        LiveKeepsSorted(vs);
      }
      arranged := vs;
      var live, reg, upd := SweepPass(vs, objectsById, updated);
      objects, objectsById, updated := Objects(live), reg, upd;
    }
  }
}
