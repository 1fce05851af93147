/** What the three updaters do to the list they address, when they leave the
    canvas alone, and the invariant every reachable canvas keeps. */
module CanvasProperties {
  import opened Wrappers
  import opened CanvasDocument
  import opened ItemLists
  import opened CanvasMutations

  /** `addItem` with a falsy title appends one empty item to a flat list
      that has room. */
  lemma AddItemAppendsBlankToList(c: Canvas, sectionId: string, subsectionTitle: Option<string>, k: int)
    requires 0 <= k < |c| && c[k].id == sectionId
    requires !Truthy(subsectionTitle) && c[k].items.Some? && |c[k].items.value| < MaxItems
    ensures AddItem(c, sectionId, subsectionTitle)[k].items == Some(c[k].items.value + [""])
  {
  }

  /** `addItem` with a truthy title appends one empty item to every
      subsection of that title that has room. */
  lemma AddItemAppendsBlankToSubsection(
    c: Canvas, sectionId: string, subsectionTitle: Option<string>, k: int, j: int)
    requires 0 <= k < |c| && c[k].id == sectionId && c[k].subsections.Some?
    requires 0 <= j < |c[k].subsections.value|
    requires Targets(c[k].subsections.value[j], subsectionTitle)
    requires |c[k].subsections.value[j].items| < MaxItems
    ensures var after := AddItem(c, sectionId, subsectionTitle)[k].subsections;
      after.Some? && after.value[j].items == c[k].subsections.value[j].items + [""]
  {
  }

  /** A section in which every list `addItem` addresses is already full. */
  predicate NoRoom(s: Section, subsectionTitle: Option<string>) {
    && (Truthy(subsectionTitle) && s.subsections.Some? ==>
          forall j :: 0 <= j < |s.subsections.value| && Targets(s.subsections.value[j], subsectionTitle) ==>
            |s.subsections.value[j].items| >= MaxItems)
    && (!Truthy(subsectionTitle) && s.items.Some? ==> |s.items.value| >= MaxItems)
  }

  /** When every addressed list already holds three items, `addItem`
      returns a canvas equal to its input. */
  lemma AddItemWhenFullIsNoOp(c: Canvas, sectionId: string, subsectionTitle: Option<string>)
    requires forall k :: 0 <= k < |c| && c[k].id == sectionId ==> NoRoom(c[k], subsectionTitle)
    ensures AddItem(c, sectionId, subsectionTitle) == c
  {
    var r := AddItem(c, sectionId, subsectionTitle);
    forall k | 0 <= k < |c|
      ensures r[k] == c[k]
    {
      if c[k].id == sectionId && Truthy(subsectionTitle) && c[k].subsections.Some? {
        var before, after := c[k].subsections.value, r[k].subsections.value;
        assert NoRoom(c[k], subsectionTitle);
        assert |after| == |before|;
        forall j | 0 <= j < |before|
          ensures after[j] == before[j]
        {
          if Targets(before[j], subsectionTitle) {
            assert |before[j].items| >= MaxItems;
          }
        }
        assert after == before;
      }
    }
  }

  /** `removeItem` with a falsy title cuts position `index` out of the flat
      list; an index outside the list leaves it as it was. */
  lemma RemoveItemCutsOutOfList(c: Canvas, sectionId: string, index: int, subsectionTitle: Option<string>, k: int)
    requires 0 <= k < |c| && c[k].id == sectionId
    requires !Truthy(subsectionTitle) && c[k].items.Some?
    ensures var l := c[k].items.value;
      RemoveItem(c, sectionId, index, subsectionTitle)[k].items
        == Some(if 0 <= index < |l| then l[..index] + l[index + 1..] else l)
  {
    RemoveAtCutsOut(c[k].items.value, index);
  }

  /** `removeItem` with a truthy title cuts position `index` out of every
      subsection of that title. */
  lemma RemoveItemCutsOutOfSubsection(
    c: Canvas, sectionId: string, index: int, subsectionTitle: Option<string>, k: int, j: int)
    requires 0 <= k < |c| && c[k].id == sectionId && c[k].subsections.Some?
    requires 0 <= j < |c[k].subsections.value|
    requires Targets(c[k].subsections.value[j], subsectionTitle)
    ensures var l := c[k].subsections.value[j].items;
      var after := RemoveItem(c, sectionId, index, subsectionTitle)[k].subsections;
      after.Some? && after.value[j].items == (if 0 <= index < |l| then l[..index] + l[index + 1..] else l)
  {
    RemoveAtCutsOut(c[k].subsections.value[j].items, index);
  }

  /** `updateItem` with a falsy title overwrites position `index` of the flat
      list, keeping its length; an index outside the list changes nothing. */
  lemma UpdateItemReplacesInList(
    c: Canvas, sectionId: string, index: int, value: string, subsectionTitle: Option<string>, k: int)
    requires 0 <= k < |c| && c[k].id == sectionId
    requires !Truthy(subsectionTitle) && c[k].items.Some?
    ensures var l := c[k].items.value;
      UpdateItem(c, sectionId, index, value, subsectionTitle)[k].items
        == Some(if 0 <= index < |l| then l[index := value] else l)
  {
  }

  /** `updateItem` with a truthy title overwrites position `index` of every
      subsection of that title. */
  lemma UpdateItemReplacesInSubsection(
    c: Canvas, sectionId: string, index: int, value: string, subsectionTitle: Option<string>, k: int, j: int)
    requires 0 <= k < |c| && c[k].id == sectionId && c[k].subsections.Some?
    requires 0 <= j < |c[k].subsections.value|
    requires Targets(c[k].subsections.value[j], subsectionTitle)
    ensures var l := c[k].subsections.value[j].items;
      var after := UpdateItem(c, sectionId, index, value, subsectionTitle)[k].subsections;
      after.Some? && after.value[j].items == (if 0 <= index < |l| then l[index := value] else l)
  {
  }

  /** A truthy title on a section without subsections, or a falsy title on a
      section without a flat list, addresses nothing: all three updaters
      leave that section as it was. */
  lemma MissingListIsNoOp(
    c: Canvas, sectionId: string, index: int, value: string, subsectionTitle: Option<string>, k: int)
    requires 0 <= k < |c| && c[k].id == sectionId
    requires (Truthy(subsectionTitle) && c[k].subsections.None?) || (!Truthy(subsectionTitle) && c[k].items.None?)
    ensures AddItem(c, sectionId, subsectionTitle)[k] == c[k]
    ensures RemoveItem(c, sectionId, index, subsectionTitle)[k] == c[k]
    ensures UpdateItem(c, sectionId, index, value, subsectionTitle)[k] == c[k]
  {
  }

  /** A mutation's frame keeps the document invariant, provided it also
      keeps every list within capacity. */
  lemma FramedKeepsWellFormed(before: Canvas, after: Canvas, sectionId: string, subsectionTitle: Option<string>)
    requires WellFormed(before) && WithinCapacity(after)
    requires Framed(before, after, sectionId, subsectionTitle)
    ensures WellFormed(after)
  {
    assert Orders(after) == Orders(before);
    forall k | 0 <= k < |after|
      ensures WellShaped(after[k])
    {
      assert SectionFramed(before[k], after[k], sectionId, subsectionTitle);
      assert WellShaped(before[k]);
    }
  }

  /** Every updater call keeps the document invariant. */
  lemma EditKeepsWellFormed(c: Canvas, e: Edit)
    requires WellFormed(c)
    ensures WellFormed(Apply(c, e))
  {
    FramedKeepsWellFormed(c, Apply(c, e), e.sectionId, e.subsectionTitle);
  }

  /** Any sequence of updater calls keeps the document invariant. */
  lemma {:induction false} EditsKeepWellFormed(c: Canvas, edits: seq<Edit>)
    requires WellFormed(c)
    ensures WellFormed(ApplyAll(c, edits))
    decreases |edits|
  {
    if |edits| > 0 {
      EditKeepsWellFormed(c, edits[0]);
      EditsKeepWellFormed(Apply(c, edits[0]), edits[1..]);
    }
  }

  /** The initial canvas: nine uniquely named, well-shaped sections with
      display orders 1..9, and every list empty. */
  lemma InitialCanvasWellFormed()
    ensures WellFormed(InitialCanvas)
    ensures AllListsEmpty(InitialCanvas)
  {
    InitialIdsDistinct();
    InitialOrdersArePermutation();
    InitialShapesAndLists();
  }

  lemma InitialIdsDistinct()
    ensures DistinctIds(InitialCanvas)
  {
  }

  lemma InitialOrdersArePermutation()
    ensures OrdersArePermutation(InitialCanvas)
  {
    InitialOrders();
    DisplayOrdersArePermutation();
  }

  /** The display orders of the initial sections, in declaration order. */
  const InitialDisplayOrders: seq<int> := [2, 4, 8, 3, 9, 5, 1, 7, 6]

  lemma InitialOrders()
    ensures Orders(InitialCanvas) == InitialDisplayOrders
  {
  }

  lemma DisplayOrdersArePermutation()
    ensures IsPermutationOfOneTo(InitialDisplayOrders)
  {
  }

  lemma InitialShapesAndLists()
    ensures forall k :: 0 <= k < |InitialCanvas| ==> WellShaped(InitialCanvas[k])
    ensures WithinCapacity(InitialCanvas)
    ensures AllListsEmpty(InitialCanvas)
  {
    InitialSectionsAreWellShaped();
    InitialListsAreEmpty();
  }

  lemma InitialSectionsAreWellShaped()
    ensures forall k :: 0 <= k < |InitialCanvas| ==> WellShaped(InitialCanvas[k])
  {
  }

  lemma InitialListsAreEmpty()
    ensures AllListsEmpty(InitialCanvas)
  {
  }

  /** Every canvas the editor can reach from its initial state satisfies the
      document invariant; in particular no list ever exceeds three items. */
  lemma ReachableCanvasIsWellFormed(edits: seq<Edit>)
    ensures WellFormed(ApplyAll(InitialCanvas, edits))
  {
    InitialCanvasWellFormed();
    EditsKeepWellFormed(InitialCanvas, edits);
  }

  /** `getSectionById` finds a section for an id after an updater call
      exactly when it found one before, and the section it finds keeps the
      display order and title of the one found before. */
  lemma LookupSurvivesEdit(c: Canvas, e: Edit, id: string)
    ensures FindSection(Apply(c, e), id).Some? <==> FindSection(c, id).Some?
    ensures FindSection(c, id).Some? ==>
      && FindSection(Apply(c, e), id).Some?
      && FindSection(Apply(c, e), id).value.order == FindSection(c, id).value.order
      && FindSection(Apply(c, e), id).value.title == FindSection(c, id).value.title
  {
    LookupSurvivesSameKeys(c, Apply(c, e), id);
  }

  lemma {:induction false} LookupSurvivesSameKeys(before: Canvas, after: Canvas, id: string)
    requires SameKeys(before, after)
    ensures FindSection(after, id).Some? <==> FindSection(before, id).Some?
    ensures FindSection(before, id).Some? ==>
      && FindSection(after, id).Some?
      && FindSection(after, id).value.order == FindSection(before, id).value.order
      && FindSection(after, id).value.title == FindSection(before, id).value.title
    decreases |before|
  {
    if |before| > 0 && before[0].id != id {
      assert SameKeys(before[1..], after[1..]);
      LookupSurvivesSameKeys(before[1..], after[1..], id);
    }
  }
}
