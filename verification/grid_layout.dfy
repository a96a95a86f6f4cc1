/**
 * The layout-change handler of the draggable dashboard grid
 * (`handleLayoutChange` in src/layout/Layout.tsx).
 *
 * The grid engine reports geometry-only records; the dashboard keeps, per
 * widget, the same geometry plus the component `C` that renders it. The
 * handler maps over the INCOMING records and, for each one, spreads it over
 * the first existing entry with the same id `i`, so that the entry keeps its
 * component and takes the new geometry. A record whose id matches no entry
 * passes through as it is, without a component.
 */
module GridLayout {
  import opened Wrappers

  /** A geometry record as the grid engine reports it (react-grid-layout's `Layout`). */
  datatype LayoutDef = LayoutDef(i: string, x: int, y: int, w: int, h: int)

  /**
   * A layout entry as the dashboard keeps it: `LayoutDef & { C }`. The
   * component is optional because the handler can hand back bare records.
   */
  datatype Placement<Component> = Placement(i: string, x: int, y: int, w: int, h: int, C: Option<Component>)

  /** The geometry part of an entry: everything the engine knows about it. */
  function Geometry<Component>(p: Placement<Component>): LayoutDef
  {
    LayoutDef(p.i, p.x, p.y, p.w, p.h)
  }

  /** A geometry record used as an entry as it is: it carries no component. */
  function Bare<Component>(item: LayoutDef): Placement<Component>
  {
    Placement(item.i, item.x, item.y, item.w, item.h, None)
  }

  /** Some entry of `layout` has id `id`. */
  predicate HasId<Component>(layout: seq<Placement<Component>>, id: string)
  {
    exists j | 0 <= j < |layout| :: layout[j].i == id
  }

  /** Index `j` holds the first entry of `layout` whose id is `id`. */
  predicate IsFirst<Component>(layout: seq<Placement<Component>>, id: string, j: int)
  {
    && 0 <= j < |layout|
    && layout[j].i == id
    && forall k | 0 <= k < j :: layout[k].i != id
  }

  /** Some incoming record has id `id`. */
  predicate Reported(newLayout: seq<LayoutDef>, id: string)
  {
    exists k | 0 <= k < |newLayout| :: newLayout[k].i == id
  }

  /**
   * `layout.find(l => l.i === id)`, as the index of the entry it returns:
   * the first entry with that id, or nothing when there is none.
   */
  function FindIndex<Component>(layout: seq<Placement<Component>>, id: string): (r: Option<nat>)
    ensures r.None? <==> !HasId(layout, id)
    ensures r.Some? ==> IsFirst(layout, id, r.value)
  {
    if |layout| == 0 then None
    else if layout[0].i == id then Some(0)
    else
      match FindIndex(layout[1..], id)
      case None => None
      case Some(j) => Some(j + 1)
  }

  /**
   * `{ ...existingItem, ...item }`: every key of the incoming record wins,
   * and `C`, which the record does not have, is kept from the entry.
   */
  function Spread<Component>(existing: Placement<Component>, item: LayoutDef): (r: Placement<Component>)
    ensures Geometry(r) == item
    ensures r.C == existing.C
  {
    Placement(item.i, item.x, item.y, item.w, item.h, existing.C)
  }

  /** The callback given to `newLayout.map`: merge one incoming record. */
  function MergeItem<Component>(layout: seq<Placement<Component>>, item: LayoutDef): (r: Placement<Component>)
    ensures Geometry(r) == item
    ensures forall j | IsFirst(layout, item.i, j) :: r.C == layout[j].C
    ensures !HasId(layout, item.i) ==> r == Bare(item)
  {
    match FindIndex(layout, item.i)
    case Some(j) => Spread(layout[j], item)
    case None => Bare(item)
  }

  /**
   * The list `handleLayoutChange` passes to `onLayoutChange`: one entry per
   * incoming record, in the incoming order, each with the incoming geometry
   * and the component of the first existing entry with the same id.
   */
  function HandleLayoutChange<Component>(layout: seq<Placement<Component>>, newLayout: seq<LayoutDef>): (r: seq<Placement<Component>>)
    ensures |r| == |newLayout|
    ensures forall k | 0 <= k < |r| :: Geometry(r[k]) == newLayout[k]
    ensures forall k, j | 0 <= k < |r| && IsFirst(layout, newLayout[k].i, j) :: r[k].C == layout[j].C
    ensures forall k | 0 <= k < |r| && !HasId(layout, newLayout[k].i) :: r[k] == Bare(newLayout[k])
  {
    seq(|newLayout|, k requires 0 <= k < |newLayout| => MergeItem(layout, newLayout[k]))
  }

  /** Every entry of `layout` carries a component, as the dashboard's own layout does. */
  predicate AllRendered<Component>(layout: seq<Placement<Component>>)
  {
    forall j | 0 <= j < |layout| :: layout[j].C.Some?
  }

  /** The first match always exists when some entry has the id. */
  lemma FirstMatchExists<Component>(layout: seq<Placement<Component>>, id: string)
    requires HasId(layout, id)
    ensures exists j :: IsFirst(layout, id, j)
  {
    var r := FindIndex(layout, id);
    assert IsFirst(layout, id, r.value);
  }

  /**
   * The component an incoming record ends up with depends on its id alone:
   * two records with the same id receive the same component.
   */
  lemma ComponentDependsOnIdOnly<Component>(layout: seq<Placement<Component>>, a: LayoutDef, b: LayoutDef)
    requires a.i == b.i
    ensures MergeItem(layout, a).C == MergeItem(layout, b).C
  {
  }

  /**
   * Output ids are exactly the incoming ids: an existing entry whose id is
   * not reported is dropped, and an unknown incoming id is kept.
   */
  lemma {:induction false} OutputIdsAreIncomingIds<Component>(layout: seq<Placement<Component>>, newLayout: seq<LayoutDef>, id: string)
    ensures HasId(HandleLayoutChange(layout, newLayout), id) <==> Reported(newLayout, id)
  {
    var r := HandleLayoutChange(layout, newLayout);
    if HasId(r, id) {
      var k :| 0 <= k < |r| && r[k].i == id;
      assert Geometry(r[k]) == newLayout[k];
      assert newLayout[k].i == id;
    }
    if Reported(newLayout, id) {
      var k :| 0 <= k < |newLayout| && newLayout[k].i == id;
      assert Geometry(r[k]) == newLayout[k];
      assert r[k].i == id;
    }
  }

  /** An existing entry whose id the engine did not report does not survive. */
  lemma UnreportedEntryDropped<Component>(layout: seq<Placement<Component>>, newLayout: seq<LayoutDef>, p: Placement<Component>)
    requires p in layout
    requires !Reported(newLayout, p.i)
    ensures p !in HandleLayoutChange(layout, newLayout)
  {
    OutputIdsAreIncomingIds(layout, newLayout, p.i);
  }

  /**
   * When the dashboard's layout has a component everywhere, an output entry
   * has a component exactly when its id was known: only unknown incoming ids
   * come back bare, despite the cast on the handed-back list.
   */
  lemma {:induction false} RenderedIffKnown<Component>(layout: seq<Placement<Component>>, newLayout: seq<LayoutDef>, k: int)
    requires AllRendered(layout)
    requires 0 <= k < |newLayout|
    ensures HandleLayoutChange(layout, newLayout)[k].C.Some? <==> HasId(layout, newLayout[k].i)
  {
    var r := HandleLayoutChange(layout, newLayout);
    if HasId(layout, newLayout[k].i) {
      FirstMatchExists(layout, newLayout[k].i);
      var j :| IsFirst(layout, newLayout[k].i, j);
      assert r[k].C == layout[j].C;
    } else {
      assert r[k] == Bare(newLayout[k]);
    }
  }

  /**
   * Each output entry depends only on its own incoming record, so reordering
   * the incoming records reorders the output the same way.
   */
  lemma FollowsIncomingOrder<Component>(layout: seq<Placement<Component>>, newLayout: seq<LayoutDef>, reordered: seq<LayoutDef>, perm: seq<nat>)
    requires |perm| == |reordered|
    requires forall m | 0 <= m < |perm| :: perm[m] < |newLayout| && reordered[m] == newLayout[perm[m]]
    ensures forall m | 0 <= m < |perm| ::
      HandleLayoutChange(layout, reordered)[m] == HandleLayoutChange(layout, newLayout)[perm[m]]
  {
  }

  /**
   * Merging the handed-back list again with the same incoming records gives
   * the same list: the first entry carrying an id in the output has the
   * component that id received the first time.
   */
  lemma {:induction false} Idempotent<Component>(layout: seq<Placement<Component>>, newLayout: seq<LayoutDef>)
    ensures HandleLayoutChange(HandleLayoutChange(layout, newLayout), newLayout) == HandleLayoutChange(layout, newLayout)
  {
    var r := HandleLayoutChange(layout, newLayout);
    var r2 := HandleLayoutChange(r, newLayout);
    forall k | 0 <= k < |newLayout|
      ensures r2[k] == r[k]
    {
      var id := newLayout[k].i;
      assert r[k].i == id;
      assert HasId(r, id);
      FirstMatchExists(r, id);
      var j :| IsFirst(r, id, j);
      assert Geometry(r[j]) == newLayout[j];
      ComponentDependsOnIdOnly(layout, newLayout[j], newLayout[k]);
      assert r2[k].C == r[j].C;
    }
  }

  /**
   * When the engine reports every widget in the dashboard's own order and
   * ids are unique, each entry keeps its component and takes the reported
   * geometry: the case in which the handler behaves as a reconciler.
   */
  lemma {:induction false} AlignedUpdateKeepsComponents<Component>(layout: seq<Placement<Component>>, newLayout: seq<LayoutDef>)
    requires |newLayout| == |layout|
    requires forall k | 0 <= k < |layout| :: newLayout[k].i == layout[k].i
    requires forall k1, k2 | 0 <= k1 < k2 < |layout| :: layout[k1].i != layout[k2].i
    ensures forall k | 0 <= k < |layout| :: HandleLayoutChange(layout, newLayout)[k] == Spread(layout[k], newLayout[k])
  {
    var r := HandleLayoutChange(layout, newLayout);
    forall k | 0 <= k < |layout|
      ensures r[k] == Spread(layout[k], newLayout[k])
    {
      assert IsFirst(layout, newLayout[k].i, k);
    }
  }

  /**
   * Reporting only widget "B" drops widget "A": with A = (0,0,6,5) rendered
   * by 1 and B = (6,0,6,5) rendered by 2, the record B = (0,5,12,10) yields
   * the single entry B = (0,5,12,10) rendered by 2.
   */
  lemma PartialReportDropsOthers()
    ensures HandleLayoutChange(
              [Placement("A", 0, 0, 6, 5, Some(1)), Placement("B", 6, 0, 6, 5, Some(2))],
              [LayoutDef("B", 0, 5, 12, 10)])
         == [Placement("B", 0, 5, 12, 10, Some(2))]
  {
    var layout := [Placement("A", 0, 0, 6, 5, Some(1)), Placement("B", 6, 0, 6, 5, Some(2))];
    assert IsFirst(layout, "B", 1);
  }

  /** An unknown id passes through bare and the known widgets are dropped. */
  lemma UnknownReportPassesThrough()
    ensures HandleLayoutChange([Placement("A", 0, 0, 6, 5, Some(1))], [LayoutDef("C", 1, 1, 1, 1)])
         == [Placement("C", 1, 1, 1, 1, None)]
  {
    assert !HasId([Placement("A", 0, 0, 6, 5, Some(1))], "C");
  }
}
