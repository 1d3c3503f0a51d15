/** The constellation table: three lists of features (figure boundaries, stick-figure
    lines and label positions), each tagged with a constellation id, are merged into one
    dictionary keyed by id. A feature creates the entry for its id when there is none yet,
    and otherwise updates the existing entry, setting only the field its list provides. */
module Constellations {
  import opened Js

  /** A sky position as the data gives it: right ascension and declination in degrees. */
  datatype Position = Position(ra: real, dec: real)

  type Polyline = seq<Position>

  /** One feature of a list: the id it belongs to and its geometry's coordinates. */
  datatype Feature<G> = Feature(id: string, coordinates: G)

  /** An entry of the table. A field that no feature has set yet is `None` (absent from the
      object `getConstellationData` builds). */
  datatype Constellation = Constellation(
    id: string,
    boundaryPoints: Option<Polyline>,
    lines: Option<seq<Polyline>>,
    coords: Option<Position>)

  /** The object `getConstellationData` creates for an id it has not seen: only `id` is set. */
  function Fresh(k: string): Constellation
  {
    Constellation(k, None, None, None)
  }

  /** A boundary feature stores the first ring of its polygon; a polygon without rings
      gives `undefined`, which is stored as well. */
  function SetBoundary(c: Constellation, rings: seq<Polyline>): Constellation
  {
    c.(boundaryPoints := if |rings| > 0 then Some(rings[0]) else None)
  }

  /** A line feature stores its polylines. */
  function SetLines(c: Constellation, lines: seq<Polyline>): Constellation
  {
    c.(lines := Some(lines))
  }

  /** A label feature stores its point. */
  function SetCoords(c: Constellation, p: Position): Constellation
  {
    c.(coords := Some(p))
  }

  /** The ids that a list of features mentions. */
  ghost function Ids<G>(fs: seq<Feature<G>>): set<string>
  {
    set i | 0 <= i < |fs| :: fs[i].id
  }

  /** The coordinates of the last feature with id `k`, if any feature has it. */
  function LastWith<G>(fs: seq<Feature<G>>, k: string): (r: Option<G>)
    ensures r.Some? <==> k in Ids(fs)
    ensures r.Some? ==> exists i :: 0 <= i < |fs| && fs[i].id == k && fs[i].coordinates == r.value
                                   && (forall j :: i < j < |fs| ==> fs[j].id != k)
  {
    if fs == [] then None
    else if fs[|fs| - 1].id == k then Some(fs[|fs| - 1].coordinates)
    else
      var r := LastWith(fs[..|fs| - 1], k);
      assert Ids(fs) == Ids(fs[..|fs| - 1]) + {fs[|fs| - 1].id};
      r
  }

  /** The entry a feature with id `k` starts from: the existing one, or a fresh one. */
  function Base(m: map<string, Constellation>, k: string): Constellation
  {
    if k in m then m[k] else Fresh(k)
  }

  /** Setting a field twice keeps only the second value. */
  ghost predicate Overwrites<G(!new)>(set_: (Constellation, G) -> Constellation)
  {
    forall c: Constellation, a: G, b: G {:trigger set_(set_(c, a), b)} :: set_(set_(c, a), b) == set_(c, b)
  }

  /** A setter never changes the id. */
  ghost predicate KeepsId<G(!new)>(set_: (Constellation, G) -> Constellation)
  {
    forall c: Constellation, a: G {:trigger set_(c, a)} :: set_(c, a).id == c.id
  }

  /** What one pass over `fs` leaves in the table `m`: every id of the list gets the entry it
      had (or a fresh one) with the field set from the LAST feature carrying that id; every
      other entry is untouched. */
  ghost function Merge<G>(m: map<string, Constellation>, fs: seq<Feature<G>>,
                          set_: (Constellation, G) -> Constellation): map<string, Constellation>
  {
    map k | k in m.Keys + Ids(fs) ::
      match LastWith(fs, k)
      case Some(g) => set_(Base(m, k), g)
      case None => m[k]
  }

  /** Processing one more feature updates the merge of the prefix at that feature's id. */
  lemma {:induction false} MergeStep<G(!new)>(m: map<string, Constellation>, fs: seq<Feature<G>>, i: nat,
                                         set_: (Constellation, G) -> Constellation)
    requires i < |fs| && Overwrites(set_)
    ensures Merge(m, fs[..i + 1], set_)
            == Merge(m, fs[..i], set_)[fs[i].id := set_(Base(Merge(m, fs[..i], set_), fs[i].id), fs[i].coordinates)]
  {
    var pre, post := fs[..i], fs[..i + 1];
    assert post[..|post| - 1] == pre;
    assert Ids(post) == Ids(pre) + {fs[i].id};
    var k := fs[i].id;
    var mp := Merge(m, pre, set_);
    var lhs := Merge(m, post, set_);
    var rhs := mp[k := set_(Base(mp, k), fs[i].coordinates)];
    assert lhs.Keys == rhs.Keys;
    forall x | x in lhs.Keys
      ensures lhs[x] == rhs[x]
    {
      MergeStepAt(m, pre, post, fs[i], set_, x);
    }
  }

  /** One key of MergeStep: the key of the new feature gets its field overwritten, every
      other key keeps what the prefix gave it. */
  lemma MergeStepAt<G(!new)>(m: map<string, Constellation>, pre: seq<Feature<G>>, post: seq<Feature<G>>,
                             f: Feature<G>, set_: (Constellation, G) -> Constellation, x: string)
    requires |post| > 0 && post[..|post| - 1] == pre && post[|post| - 1] == f && Overwrites(set_)
    requires x in Merge(m, post, set_)
    ensures x == f.id ==> Merge(m, post, set_)[x] == set_(Base(Merge(m, pre, set_), x), f.coordinates)
    ensures x != f.id ==> x in Merge(m, pre, set_) && Merge(m, post, set_)[x] == Merge(m, pre, set_)[x]
  {
    if x == f.id {
      MergeStepAtNew(m, pre, post, f, set_);
    } else {
      MergeStepAtOther(m, pre, post, f, set_, x);
    }
  }

  lemma MergeStepAtNew<G(!new)>(m: map<string, Constellation>, pre: seq<Feature<G>>, post: seq<Feature<G>>,
                                f: Feature<G>, set_: (Constellation, G) -> Constellation)
    requires |post| > 0 && post[..|post| - 1] == pre && post[|post| - 1] == f && Overwrites(set_)
    requires f.id in Merge(m, post, set_)
    ensures Merge(m, post, set_)[f.id] == set_(Base(Merge(m, pre, set_), f.id), f.coordinates)
  {
    var x := f.id;
    assert LastWith(post, x) == Some(f.coordinates);
    assert Merge(m, post, set_)[x] == set_(Base(m, x), f.coordinates);
    var mp := Merge(m, pre, set_);
    match LastWith(pre, x)
    case Some(g) =>
      assert x in mp && mp[x] == set_(Base(m, x), g);
      assert set_(set_(Base(m, x), g), f.coordinates) == set_(Base(m, x), f.coordinates);
    case None =>
      assert x in mp <==> x in m;
      assert x in mp ==> mp[x] == m[x];
  }

  lemma MergeStepAtOther<G>(m: map<string, Constellation>, pre: seq<Feature<G>>, post: seq<Feature<G>>,
                            f: Feature<G>, set_: (Constellation, G) -> Constellation, x: string)
    requires |post| > 0 && post[..|post| - 1] == pre && post[|post| - 1] == f
    requires x in Merge(m, post, set_) && x != f.id
    ensures x in Merge(m, pre, set_) && Merge(m, post, set_)[x] == Merge(m, pre, set_)[x]
  {
    assert LastWith(post, x) == LastWith(pre, x);
    assert Ids(post) == Ids(pre) + {f.id};
  }

  /** The table of constellations, keyed by id. */
  class ConstellationTable {
    var entries: map<string, Constellation>

    /** Every entry's id is its key. */
    ghost predicate Valid()
      reads this
    {
      forall k :: k in entries ==> entries[k].id == k
    }

    /** The table starts empty. */
    constructor ()
      ensures entries == map[] && Valid()
    {
      entries := map[];
    }

    /** The first pass: boundary features. */
    method MergeBoundaries(features: seq<Feature<seq<Polyline>>>)
      modifies this
      ensures entries == Merge(old(entries), features, SetBoundary)
    {
      SetBoundaryOverwrites();
      var i := 0;
      while i < |features|
        invariant 0 <= i <= |features|
        invariant entries == Merge(old(entries), features[..i], SetBoundary)
      {
        var c := features[i];
        var cid := if c.id in entries then entries[c.id] else Fresh(c.id);
        cid := SetBoundary(cid, c.coordinates);
        MergeStep(old(entries), features, i, SetBoundary);
        entries := entries[c.id := cid];
        i := i + 1;
      }
      assert features[..i] == features;
    }

    /** The second pass: stick-figure line features. */
    method MergeLines(features: seq<Feature<seq<Polyline>>>)
      modifies this
      ensures entries == Merge(old(entries), features, SetLines)
    {
      SetLinesOverwrites();
      var i := 0;
      while i < |features|
        invariant 0 <= i <= |features|
        invariant entries == Merge(old(entries), features[..i], SetLines)
      {
        var c := features[i];
        var cid := if c.id in entries then entries[c.id] else Fresh(c.id);
        cid := SetLines(cid, c.coordinates);
        MergeStep(old(entries), features, i, SetLines);
        entries := entries[c.id := cid];
        i := i + 1;
      }
      assert features[..i] == features;
    }

    /** The third pass: label features. */
    method MergeLabels(features: seq<Feature<Position>>)
      modifies this
      ensures entries == Merge(old(entries), features, SetCoords)
    {
      SetCoordsOverwrites();
      var i := 0;
      while i < |features|
        invariant 0 <= i <= |features|
        invariant entries == Merge(old(entries), features[..i], SetCoords)
      {
        var c := features[i];
        var cid := if c.id in entries then entries[c.id] else Fresh(c.id);
        cid := SetCoords(cid, c.coordinates);
        MergeStep(old(entries), features, i, SetCoords);
        entries := entries[c.id := cid];
        i := i + 1;
      }
      assert features[..i] == features;
    }

    /** `getConstellationData`: the three passes in order. The data lists are parameters. */
    method GetConstellationData(bounds: seq<Feature<seq<Polyline>>>, lines: seq<Feature<seq<Polyline>>>,
                                labels: seq<Feature<Position>>)
      requires Valid()
      modifies this
      ensures entries == All(old(entries), bounds, lines, labels)
      ensures Valid()
    {
      MergeBoundaries(bounds);
      MergeLines(lines);
      MergeLabels(labels);
      AllKeepsIds(old(entries), bounds, lines, labels);
    }
  }

  lemma SetBoundaryOverwrites()
    ensures Overwrites(SetBoundary) && KeepsId(SetBoundary)
  {
  }

  lemma SetLinesOverwrites()
    ensures Overwrites(SetLines) && KeepsId(SetLines)
  {
  }

  lemma SetCoordsOverwrites()
    ensures Overwrites(SetCoords) && KeepsId(SetCoords)
  {
  }

  /** The table after all three passes. */
  ghost function All(m: map<string, Constellation>, bounds: seq<Feature<seq<Polyline>>>,
                     lines: seq<Feature<seq<Polyline>>>, labels: seq<Feature<Position>>): map<string, Constellation>
  {
    Merge(Merge(Merge(m, bounds, SetBoundary), lines, SetLines), labels, SetCoords)
  }

  /** The field a pass sets, for an id: the last feature's value if the list has the id,
      and otherwise what the entry had before. */
  function Latest<G, F>(last: Option<G>, convert: G -> F, before: F): F
  {
    match last
    case Some(g) => convert(g)
    case None => before
  }

  function FirstRing(rings: seq<Polyline>): Option<Polyline>
  {
    if |rings| > 0 then Some(rings[0]) else None
  }

  function SomeLines(ls: seq<Polyline>): Option<seq<Polyline>> { Some(ls) }

  function SomePosition(p: Position): Option<Position> { Some(p) }

  /** The entry the run leaves at key `k`, field by field. */
  function Expected(m: map<string, Constellation>, bounds: seq<Feature<seq<Polyline>>>,
                    lines: seq<Feature<seq<Polyline>>>, labels: seq<Feature<Position>>, k: string): Constellation
  {
    Constellation(
      Base(m, k).id,
      Latest(LastWith(bounds, k), FirstRing, Base(m, k).boundaryPoints),
      Latest(LastWith(lines, k), SomeLines, Base(m, k).lines),
      Latest(LastWith(labels, k), SomePosition, Base(m, k).coords))
  }

  /** The key set after the run is the pre-existing keys plus every id of the three lists. */
  lemma AllKeys(m: map<string, Constellation>, bounds: seq<Feature<seq<Polyline>>>,
                lines: seq<Feature<seq<Polyline>>>, labels: seq<Feature<Position>>)
    ensures All(m, bounds, lines, labels).Keys == m.Keys + Ids(bounds) + Ids(lines) + Ids(labels)
  {
  }

  /** Each entry after the run: the id is kept (a new entry gets its key); each field comes
      from the last feature with that id in its own list, and a field whose list lacks the id
      keeps the value the entry had before (absent for a new entry), so a later pass keeps
      the fields set by earlier ones. */
  lemma {:induction false} AllAt(m: map<string, Constellation>, bounds: seq<Feature<seq<Polyline>>>,
                                 lines: seq<Feature<seq<Polyline>>>, labels: seq<Feature<Position>>, k: string)
    requires k in All(m, bounds, lines, labels)
    ensures All(m, bounds, lines, labels)[k] == Expected(m, bounds, lines, labels, k)
  {
    var m1 := Merge(m, bounds, SetBoundary);
    var m2 := Merge(m1, lines, SetLines);
    assert Base(m1, k) == Base(m, k).(boundaryPoints := Latest(LastWith(bounds, k), FirstRing, Base(m, k).boundaryPoints));
    assert Base(m2, k) == Base(m1, k).(lines := Latest(LastWith(lines, k), SomeLines, Base(m1, k).lines));
  }

  /** A run keeps every entry's id equal to its key, so new entries carry their key as id. */
  lemma {:induction false} AllKeepsIds(m: map<string, Constellation>, bounds: seq<Feature<seq<Polyline>>>,
                                       lines: seq<Feature<seq<Polyline>>>, labels: seq<Feature<Position>>)
    requires forall k :: k in m ==> m[k].id == k
    ensures forall k :: k in All(m, bounds, lines, labels) ==> All(m, bounds, lines, labels)[k].id == k
  {
    forall k | k in All(m, bounds, lines, labels)
      ensures All(m, bounds, lines, labels)[k].id == k
    {
      AllAt(m, bounds, lines, labels, k);
    }
  }

  /** Running `getConstellationData` a second time on the same data changes nothing. */
  lemma {:induction false} AllIdempotent(m: map<string, Constellation>, bounds: seq<Feature<seq<Polyline>>>,
                                         lines: seq<Feature<seq<Polyline>>>, labels: seq<Feature<Position>>)
    ensures All(All(m, bounds, lines, labels), bounds, lines, labels) == All(m, bounds, lines, labels)
  {
    var once := All(m, bounds, lines, labels);
    var twice := All(once, bounds, lines, labels);
    AllKeys(m, bounds, lines, labels);
    AllKeys(once, bounds, lines, labels);
    assert twice.Keys == once.Keys;
    forall k | k in twice
      ensures twice[k] == once[k]
    {
      AllAt(m, bounds, lines, labels, k);
      AllAt(once, bounds, lines, labels, k);
      assert Base(once, k) == Expected(m, bounds, lines, labels, k);
    }
  }
}
