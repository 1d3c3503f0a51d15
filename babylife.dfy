/** The entity lifecycle library: a scene holds a forest of entities, a dictionary of state
    parameters and a dictionary of the parameters changed since the last reset. Entities are
    initialised parent-first, and on each update exactly the entities that depend on a
    changed parameter are updated, children first.

    An entity is a handle (its creation number) into the scene, which holds each entity's
    children, parent, dependency set and its two callbacks. A callback is modelled by the
    changes it asks `changeState` to make, as a function of the current parameters and
    changed parameters. */
module BabyLife {
  import opened Js

  /** What an `init` or `update` callback does to the scene: the dictionary it passes to
      `changeState` (empty for the default no-op callback), given the current parameters
      and the current changed parameters. */
  type Callback<!V> = (map<string, V>, map<string, V>) -> map<string, V>

  /** The default callback, which does nothing. */
  function NoOp<V>(params: map<string, V>, changed: map<string, V>): map<string, V>
  {
    map[]
  }

  /** The two parameter dictionaries of a scene. */
  datatype State<V> = State(params: map<string, V>, changed: map<string, V>)

  /** `Object.assign(params, p); Object.assign(changedParams, p)`: exactly the keys of `p`
      are overwritten in both dictionaries. */
  function Assign<V>(s: State<V>, p: map<string, V>): (t: State<V>)
    ensures t.params.Keys == s.params.Keys + p.Keys && t.changed.Keys == s.changed.Keys + p.Keys
    ensures forall k | k in p :: t.params[k] == p[k] && t.changed[k] == p[k]
    ensures forall k | k in s.params && k !in p :: t.params[k] == s.params[k]
    ensures forall k | k in s.changed && k !in p :: t.changed[k] == s.changed[k]
  {
    State(s.params + p, s.changed + p)
  }

  /** Assigning one key updates that key in both dictionaries. */
  lemma AssignOne<V>(s: State<V>, k: string, v: V)
    ensures Assign(s, map[k := v]) == State(s.params[k := v], s.changed[k := v])
  {
  }

  /** The state after the callbacks `fns[e]` ran for the entities of `order`, in order,
      each seeing the state the previous ones left. */
  function Run<V>(fns: seq<Callback<V>>, order: seq<nat>, s: State<V>): State<V>
    requires forall i | 0 <= i < |order| :: order[i] < |fns|
  {
    if order == [] then s
    else
      var t := Run(fns, order[..|order| - 1], s);
      var e := order[|order| - 1];
      Assign(t, fns[e](t.params, t.changed))
  }

  /** The names a list holds. */
  function Names(s: seq<string>): set<string>
  {
    set p | p in s
  }

  /** The elements of `s` that satisfy `p`, in their order. */
  function Filter(s: seq<nat>, p: nat -> bool): (r: seq<nat>)
    ensures |r| <= |s|
    ensures forall x :: x in r <==> x in s && p(x)
  {
    if s == [] then []
    else
      var r := Filter(s[..|s| - 1], p);
      assert forall x :: x in s <==> x in s[..|s| - 1] || x == s[|s| - 1];
      if p(s[|s| - 1]) then r + [s[|s| - 1]] else r
  }

  /** A scene together with the entities it manages. */
  class BabyScene<V> {
    /** `children[e]`: the children of entity `e`, in insertion order. */
    var children: seq<seq<nat>>
    /** `parentOf[e]`: the parent entity `e` was created with. */
    var parentOf: seq<Option<nat>>
    /** `dependencies[e]`: the parameter names entity `e` depends on. */
    var dependencies: seq<set<string>>
    var initFn: seq<Callback<V>>
    var updateFn: seq<Callback<V>>
    /** The top-level entities (those created without a parent), in insertion order. */
    var entities: seq<nat>
    var params: map<string, V>
    var changedParams: map<string, V>

    /** Every child is created after its parent, so the traversals terminate. */
    ghost predicate Ordered()
      reads this`children
    {
      forall e, i | 0 <= e < |children| && 0 <= i < |children[e]| :: e < children[e][i] < |children|
    }

    /** The top-level entities are entities of the scene. */
    ghost predicate Rooted()
      reads this`children, this`entities
    {
      forall i | 0 <= i < |entities| :: entities[i] < |children|
    }

    /** The entities form a forest: a child is created after its parent and is listed under
        exactly the parent it was created with; an entity without a parent is top-level. */
    ghost predicate Valid()
      reads this`children, this`parentOf, this`dependencies, this`initFn, this`updateFn, this`entities
    {
      |parentOf| == |children| && |dependencies| == |children|
      && |initFn| == |children| && |updateFn| == |children|
      && Ordered() && Rooted()
      && (forall e, i | 0 <= e < |children| && 0 <= i < |children[e]| :: parentOf[children[e][i]] == Some(e))
      && (forall i | 0 <= i < |entities| :: parentOf[entities[i]].None?)
      && (forall e | 0 <= e < |children| ::
            match parentOf[e]
            case None => e in entities
            case Some(p) => p < e && e in children[p])
    }

    /** The two parameter dictionaries. */
    function Current(): State<V>
      reads this
    {
      State(params, changedParams)
    }

    /** A scene starts with no entities, the given parameters and no changes. */
    constructor (initialParams: map<string, V>)
      ensures Valid()
      ensures children == [] && entities == [] && params == initialParams && changedParams == map[]
    {
      children, parentOf, dependencies, initFn, updateFn := [], [], [], [], [];
      entities := [];
      params := initialParams;
      changedParams := map[];
    }

    /** `new BabyEntity(scene, parent)`: the entity gets the next handle, no children, no
        dependencies and no-op callbacks, and is added to its parent's children or, without
        a parent, to the scene's top-level entities, and nowhere else. */
    method NewEntity(parent: Option<nat>) returns (e: nat)
      requires Valid() && (parent.Some? ==> parent.value < |children|)
      modifies this
      ensures Valid()
      ensures e == old(|children|)
      ensures parent.Some? ==> children == old(children)[parent.value := old(children)[parent.value] + [e]] + [[]]
                               && entities == old(entities)
      ensures parent.None? ==> children == old(children) + [[]] && entities == old(entities) + [e]
      ensures parentOf == old(parentOf) + [parent] && dependencies == old(dependencies) + [{}]
      ensures initFn == old(initFn) + [NoOp] && updateFn == old(updateFn) + [NoOp]
      ensures params == old(params) && changedParams == old(changedParams)
    {
      e := |children|;
      children := children + [[]];
      parentOf := parentOf + [parent];
      dependencies := dependencies + [{}];
      initFn := initFn + [NoOp];
      updateFn := updateFn + [NoOp];
      match parent
      case Some(p) =>
        children := children[p := children[p] + [e]];
      case None =>
        entities := entities + [e];
    }

    /** `setInit`. */
    method SetInit(e: nat, f: Callback<V>)
      requires Valid() && e < |children|
      modifies this
      ensures Valid() && initFn == old(initFn)[e := f]
      ensures children == old(children) && parentOf == old(parentOf) && entities == old(entities)
      ensures dependencies == old(dependencies) && updateFn == old(updateFn)
      ensures params == old(params) && changedParams == old(changedParams)
    {
      initFn := initFn[e := f];
    }

    /** `setUpdate`. */
    method SetUpdate(e: nat, f: Callback<V>)
      requires Valid() && e < |children|
      modifies this
      ensures Valid() && updateFn == old(updateFn)[e := f]
      ensures children == old(children) && parentOf == old(parentOf) && entities == old(entities)
      ensures dependencies == old(dependencies) && initFn == old(initFn)
      ensures params == old(params) && changedParams == old(changedParams)
    {
      updateFn := updateFn[e := f];
    }

    /** `dependsOn`: every listed name joins the entity's dependencies, which only grow;
        listing names that are already there changes nothing. */
    method DependsOn(e: nat, pList: seq<string>)
      requires Valid() && e < |children|
      modifies this
      ensures Valid()
      ensures dependencies == old(dependencies)[e := old(dependencies)[e] + Names(pList)]
      ensures (forall p | p in pList :: p in old(dependencies)[e]) ==> dependencies == old(dependencies)
      ensures children == old(children) && parentOf == old(parentOf) && entities == old(entities)
      ensures initFn == old(initFn) && updateFn == old(updateFn)
      ensures params == old(params) && changedParams == old(changedParams)
    {
      var i := 0;
      while i < |pList|
        invariant 0 <= i <= |pList|
        invariant children == old(children) && parentOf == old(parentOf) && entities == old(entities)
        invariant |dependencies| == |children|
        invariant forall x | 0 <= x < |dependencies| && x != e :: dependencies[x] == old(dependencies)[x]
        invariant dependencies[e] == old(dependencies)[e] + Names(pList[..i])
        invariant initFn == old(initFn) && updateFn == old(updateFn)
        invariant params == old(params) && changedParams == old(changedParams)
      {
        assert pList[..i + 1] == pList[..i] + [pList[i]];
        assert Names(pList[..i + 1]) == Names(pList[..i]) + {pList[i]};
        dependencies := dependencies[e := dependencies[e] + {pList[i]}];
        i := i + 1;
      }
      assert pList[..i] == pList;
      assert dependencies == old(dependencies)[e := old(dependencies)[e] + Names(pList)];
      if forall p | p in pList :: p in old(dependencies)[e] {
        assert old(dependencies)[e] + Names(pList) == old(dependencies)[e];
        assert old(dependencies)[e := old(dependencies)[e]] == old(dependencies);
      }
    }

    /** `changeState`: both dictionaries take the new values of exactly the given keys. */
    method ChangeState(newParams: map<string, V>)
      modifies this
      ensures Current() == Assign(old(Current()), newParams)
      ensures children == old(children) && parentOf == old(parentOf) && entities == old(entities)
      ensures dependencies == old(dependencies) && initFn == old(initFn) && updateFn == old(updateFn)
    {
      params := params + newParams;
      changedParams := changedParams + newParams;
    }

    /** `reset`: no parameter counts as changed any more; the values stay. */
    method Reset()
      modifies this
      ensures changedParams == map[] && params == old(params)
      ensures children == old(children) && parentOf == old(parentOf) && entities == old(entities)
      ensures dependencies == old(dependencies) && initFn == old(initFn) && updateFn == old(updateFn)
    {
      changedParams := map[];
    }

    /** `hasChanged`. */
    function HasChanged(p: string): (b: bool)
      reads this
      ensures b <==> p in changedParams
    {
      p in changedParams
    }

    /** `valueOf`: the parameter's value, or `undefined` for a name never set. */
    function ValueOf(p: string): (v: Option<V>)
      reads this
      ensures v.Some? <==> p in params
      ensures v.Some? ==> v.value == params[p]
    {
      if p in params then Some(params[p]) else None
    }

    /** The entities listed by `parentFirstTree` of `e`: `e`, then each child's list. */
    function ParentFirst(e: nat): seq<nat>
      reads this`children
      requires Ordered() && e < |children|
      decreases |children| - e, |children[e]| + 1
    {
      [e] + ParentFirstForest(children[e], e)
    }

    /** The `parentFirstTree` lists of the entities `cs`, all created after `lo`, one after
        the other. */
    function ParentFirstForest(cs: seq<nat>, lo: int): seq<nat>
      reads this`children
      requires Ordered() && forall i | 0 <= i < |cs| :: lo < cs[i] < |children|
      decreases |children| - lo, |cs|
    {
      if cs == [] then []
      else ParentFirstForest(cs[..|cs| - 1], lo) + ParentFirst(cs[|cs| - 1])
    }

    /** The entities listed by `childFirstTree` of `e`: each child's list, then `e`. */
    function ChildFirst(e: nat): seq<nat>
      reads this`children
      requires Ordered() && e < |children|
      decreases |children| - e, |children[e]| + 1
    {
      ChildFirstForest(children[e], e) + [e]
    }

    function ChildFirstForest(cs: seq<nat>, lo: int): seq<nat>
      reads this`children
      requires Ordered() && forall i | 0 <= i < |cs| :: lo < cs[i] < |children|
      decreases |children| - lo, |cs|
    {
      if cs == [] then []
      else ChildFirstForest(cs[..|cs| - 1], lo) + ChildFirst(cs[|cs| - 1])
    }

    /** `parentFirstTree`. */
    method ParentFirstTree(e: nat) returns (c: seq<nat>)
      requires Ordered() && e < |children|
      ensures c == ParentFirst(e)
      decreases |children| - e
    {
      c := [e];
      var kids := children[e];
      var i := 0;
      while i < |kids|
        invariant 0 <= i <= |kids|
        invariant c == [e] + ParentFirstForest(kids[..i], e)
      {
        var sub := ParentFirstTree(kids[i]);
        var j := 0;
        while j < |sub|
          invariant 0 <= j <= |sub|
          invariant c == [e] + ParentFirstForest(kids[..i], e) + sub[..j]
        {
          c := c + [sub[j]];
          j := j + 1;
        }
        assert kids[..i + 1][..i] == kids[..i];
        assert sub[..j] == sub;
        i := i + 1;
      }
      assert kids[..i] == kids;
    }

    /** `childFirstTree`. */
    method ChildFirstTree(e: nat) returns (c: seq<nat>)
      requires Ordered() && e < |children|
      ensures c == ChildFirst(e)
      decreases |children| - e
    {
      c := [];
      var kids := children[e];
      var i := 0;
      while i < |kids|
        invariant 0 <= i <= |kids|
        invariant c == ChildFirstForest(kids[..i], e)
      {
        var sub := ChildFirstTree(kids[i]);
        var j := 0;
        while j < |sub|
          invariant 0 <= j <= |sub|
          invariant c == ChildFirstForest(kids[..i], e) + sub[..j]
        {
          c := c + [sub[j]];
          j := j + 1;
        }
        assert kids[..i + 1][..i] == kids[..i];
        assert sub[..j] == sub;
        i := i + 1;
      }
      assert kids[..i] == kids;
      c := c + [e];
    }

    /** Every entity of the scene in parent-first order. */
    function ParentFirstAll(): seq<nat>
      reads this`children, this`entities
      requires Ordered() && Rooted()
    {
      ParentFirstForest(entities, -1)
    }

    /** Every entity of the scene in child-first order. */
    function ChildFirstAll(): seq<nat>
      reads this`children, this`entities
      requires Ordered() && Rooted()
    {
      ChildFirstForest(entities, -1)
    }

    /** `entitiesInOrderParentFirstWhere`. */
    method EntitiesParentFirstWhere(pred: nat -> bool) returns (cio: seq<nat>)
      requires Valid()
      ensures cio == Filter(ParentFirstAll(), pred)
      ensures forall i | 0 <= i < |cio| :: cio[i] < |children|
    {
      TreeBounds();
      cio := [];
      var i := 0;
      while i < |entities|
        invariant 0 <= i <= |entities|
        invariant cio == Filter(ParentFirstForest(entities[..i], -1), pred)
      {
        var tree := ParentFirstTree(entities[i]);
        cio := PushWhere(cio, ParentFirstForest(entities[..i], -1), tree, pred);
        assert entities[..i + 1][..i] == entities[..i];
        i := i + 1;
      }
      assert entities[..i] == entities;
      assert cio == Filter(ParentFirstAll(), pred);
      forall k | 0 <= k < |cio| ensures cio[k] < |children| { assert cio[k] in ParentFirstAll(); }
    }

    /** `entitiesInOrderChildrenFirstWhere`. */
    method EntitiesChildFirstWhere(pred: nat -> bool) returns (cio: seq<nat>)
      requires Valid()
      ensures cio == Filter(ChildFirstAll(), pred)
      ensures forall i | 0 <= i < |cio| :: cio[i] < |children|
    {
      TreeBounds();
      cio := [];
      var i := 0;
      while i < |entities|
        invariant 0 <= i <= |entities|
        invariant cio == Filter(ChildFirstForest(entities[..i], -1), pred)
      {
        var tree := ChildFirstTree(entities[i]);
        cio := PushWhere(cio, ChildFirstForest(entities[..i], -1), tree, pred);
        assert entities[..i + 1][..i] == entities[..i];
        i := i + 1;
      }
      assert entities[..i] == entities;
      assert cio == Filter(ChildFirstAll(), pred);
      forall k | 0 <= k < |cio| ensures cio[k] < |children| { assert cio[k] in ChildFirstAll(); }
    }

    /** Calls the callbacks `fns` of the entities `order` in turn, each one's changes going
        through `changeState`. */
    method RunCallbacks(fns: seq<Callback<V>>, order: seq<nat>)
      requires forall i | 0 <= i < |order| :: order[i] < |fns|
      modifies this
      ensures Current() == Run(fns, order, old(Current()))
      ensures children == old(children) && parentOf == old(parentOf) && entities == old(entities)
      ensures dependencies == old(dependencies) && initFn == old(initFn) && updateFn == old(updateFn)
    {
      var i := 0;
      while i < |order|
        invariant 0 <= i <= |order|
        invariant Current() == Run(fns, order[..i], old(Current()))
        invariant children == old(children) && parentOf == old(parentOf) && entities == old(entities)
        invariant dependencies == old(dependencies) && initFn == old(initFn) && updateFn == old(updateFn)
      {
        assert order[..i + 1][..i] == order[..i];
        ChangeState(fns[order[i]](params, changedParams));
        i := i + 1;
      }
      assert order[..i] == order;
    }

    /** `init`: every entity's `init` callback in parent-first order, then every entity's
        `update` callback in child-first order; the changes stay recorded as changed. */
    method Init() returns (inited: seq<nat>, updated: seq<nat>)
      requires Valid()
      modifies this
      ensures Valid()
      ensures children == old(children) && parentOf == old(parentOf) && entities == old(entities)
      ensures dependencies == old(dependencies) && initFn == old(initFn) && updateFn == old(updateFn)
      ensures inited == old(ParentFirstAll()) && updated == old(ChildFirstAll())
      ensures forall i | 0 <= i < |inited| :: inited[i] < |initFn|
      ensures forall i | 0 <= i < |updated| :: updated[i] < |updateFn|
      ensures Current() == Run(updateFn, updated, Run(initFn, inited, old(Current())))
    {
      var always := (e: nat) => true;
      inited := EntitiesParentFirstWhere(always);
      FilterAll(ParentFirstAll(), always);
      RunCallbacks(initFn, inited);
      updated := EntitiesChildFirstWhere(always);
      FilterAll(ChildFirstAll(), always);
      RunCallbacks(updateFn, updated);
    }

    /** `update`: the `update` callbacks of exactly the entities that depend on a parameter
        changed before the call, in child-first order (the list is fixed before any callback
        runs); then every change, including those the callbacks made, stops counting as
        changed while the values stay. */
    method Update() returns (updated: seq<nat>)
      requires Valid()
      modifies this
      ensures Valid()
      ensures children == old(children) && parentOf == old(parentOf) && entities == old(entities)
      ensures dependencies == old(dependencies) && initFn == old(initFn) && updateFn == old(updateFn)
      ensures updated == Filter(old(ChildFirstAll()), Touched(old(dependencies), old(changedParams.Keys)))
      ensures forall i | 0 <= i < |updated| :: updated[i] < |updateFn|
      ensures params == Run(updateFn, updated, old(Current())).params
      ensures changedParams == map[]
    {
      updated := EntitiesChildFirstWhere(Touched(dependencies, changedParams.Keys));
      RunCallbacks(updateFn, updated);
      Reset();
    }

    /** Every entity a traversal lists is an entity of the scene. */
    lemma TreeBounds()
      requires Ordered() && Rooted()
      ensures forall x | x in ParentFirstAll() :: x < |children|
      ensures forall x | x in ChildFirstAll() :: x < |children|
    {
      ForestBounds(entities, -1);
    }

    /** `parentFirstTree` lists the node first and `childFirstTree` lists it last, and the
        two list the same entities. */
    lemma {:induction false} SameNodes(e: nat)
      requires Ordered() && e < |children|
      ensures ParentFirst(e)[0] == e && ChildFirst(e)[|ChildFirst(e)| - 1] == e
      ensures multiset(ParentFirst(e)) == multiset(ChildFirst(e))
      decreases |children| - e, |children[e]| + 1
    {
      SameNodesForest(children[e], e);
    }

    lemma {:induction false} SameNodesForest(cs: seq<nat>, lo: int)
      requires Ordered() && forall i | 0 <= i < |cs| :: lo < cs[i] < |children|
      ensures multiset(ParentFirstForest(cs, lo)) == multiset(ChildFirstForest(cs, lo))
      decreases |children| - lo, |cs|
    {
      if cs != [] {
        SameNodesForest(cs[..|cs| - 1], lo);
        SameNodes(cs[|cs| - 1]);
      }
    }

    /** Whatever one subtree lists, the forest lists. */
    lemma {:induction false} InForest(cs: seq<nat>, lo: int, i: nat, x: nat)
      requires Ordered() && forall j | 0 <= j < |cs| :: lo < cs[j] < |children|
      requires i < |cs| && x in ParentFirst(cs[i])
      ensures x in ParentFirstForest(cs, lo)
      decreases |cs|
    {
      if i < |cs| - 1 {
        InForest(cs[..|cs| - 1], lo, i, x);
      }
    }

    /** Whatever the forest lists, one of its subtrees lists. */
    lemma {:induction false} FromForest(cs: seq<nat>, lo: int, x: nat) returns (i: nat)
      requires Ordered() && forall j | 0 <= j < |cs| :: lo < cs[j] < |children|
      requires x in ParentFirstForest(cs, lo)
      ensures i < |cs| && x in ParentFirst(cs[i])
      decreases |cs|
    {
      if x in ParentFirst(cs[|cs| - 1]) {
        i := |cs| - 1;
      } else {
        i := FromForest(cs[..|cs| - 1], lo, x);
      }
    }

    /** A child of a listed entity is listed in the same tree. */
    lemma {:induction false} ChildInTree(t: nat, p: nat, i: nat)
      requires Ordered() && t < |children| && p < |children| && i < |children[p]|
      requires p in ParentFirst(t)
      ensures children[p][i] in ParentFirst(t)
      decreases |children| - t
    {
      var c := children[p][i];
      if p == t {
        assert c in ParentFirst(c);
        InForest(children[t], t, i, c);
      } else {
        assert p in ParentFirstForest(children[t], t);
        var k := FromForest(children[t], t, p);
        ChildInTree(children[t][k], p, i);
        InForest(children[t], t, k, c);
      }
    }

    /** Every entity of the scene is visited by both scene-wide traversals, so `init` runs
        every entity's callbacks. */
    lemma {:induction false} EveryEntityListed(e: nat)
      requires Valid() && e < |children|
      ensures e in ParentFirstAll() && e in ChildFirstAll()
      decreases e
    {
      match parentOf[e] {
        case None =>
          var i :| 0 <= i < |entities| && entities[i] == e;
          assert e in ParentFirst(e);
          InForest(entities, -1, i, e);
        case Some(p) =>
          EveryEntityListed(p);
          var t := FromForest(entities, -1, p);
          var i :| 0 <= i < |children[p]| && children[p][i] == e;
          ChildInTree(entities[t], p, i);
          InForest(entities, -1, t, e);
      }
      SameNodesForest(entities, -1);
      assert e in multiset(ParentFirstAll());
    }

    /** `update` selects exactly the entities of the scene with a dependency among the
        changed parameters. */
    lemma UpdateSelects(changed: set<string>, e: nat)
      requires Valid()
      ensures e in Filter(ChildFirstAll(), Touched(dependencies, changed))
              <==> e < |children| && dependencies[e] * changed != {}
    {
      TreeBounds();
      if e < |children| {
        EveryEntityListed(e);
      }
    }

    lemma {:induction false} ForestBounds(cs: seq<nat>, lo: int)
      requires Ordered() && forall i | 0 <= i < |cs| :: lo < cs[i] < |children|
      ensures forall x | x in ParentFirstForest(cs, lo) :: x < |children|
      ensures forall x | x in ChildFirstForest(cs, lo) :: x < |children|
      decreases |children| - lo, |cs|
    {
      if cs != [] {
        ForestBounds(cs[..|cs| - 1], lo);
        TreeBoundsAt(cs[|cs| - 1]);
      }
    }

    lemma {:induction false} TreeBoundsAt(e: nat)
      requires Ordered() && e < |children|
      ensures forall x | x in ParentFirst(e) :: x < |children|
      ensures forall x | x in ChildFirst(e) :: x < |children|
      decreases |children| - e, |children[e]| + 1
    {
      ForestBounds(children[e], e);
    }
  }

  /** The inner loop of the traversals: pushes the entities of `tree` that satisfy `pred`
      onto `cio`, the filtered list of the entities `listed` before them. */
  method PushWhere(cio: seq<nat>, ghost listed: seq<nat>, tree: seq<nat>, pred: nat -> bool) returns (r: seq<nat>)
    requires cio == Filter(listed, pred)
    ensures r == Filter(listed + tree, pred)
  {
    r := cio;
    var j := 0;
    assert listed + tree[..0] == listed;
    while j < |tree|
      invariant 0 <= j <= |tree|
      invariant r == Filter(listed + tree[..j], pred)
    {
      assert listed + tree[..j + 1] == (listed + tree[..j]) + [tree[j]];
      FilterSnoc(listed + tree[..j], tree[j], pred);
      if pred(tree[j]) {
        r := r + [tree[j]];
      }
      j := j + 1;
    }
    assert tree[..j] == tree;
  }

  /** Filtering a sequence extended by one element. */
  lemma FilterSnoc(a: seq<nat>, x: nat, p: nat -> bool)
    ensures Filter(a + [x], p) == Filter(a, p) + (if p(x) then [x] else [])
  {
    assert (a + [x])[..|a|] == a;
  }

  /** An entity needs updating when one of its dependencies is a changed parameter. */
  function Touched(deps: seq<set<string>>, changed: set<string>): nat -> bool
  {
    (e: nat) => e < |deps| && deps[e] * changed != {}
  }

  /** Filtering with a predicate that always holds keeps everything. */
  lemma {:induction false} FilterAll(s: seq<nat>, p: nat -> bool)
    requires forall x :: p(x)
    ensures Filter(s, p) == s
  {
    if s != [] {
      FilterAll(s[..|s| - 1], p);
      assert s[..|s| - 1] + [s[|s| - 1]] == s;
    }
  }
}
