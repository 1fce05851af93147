/** The canvas document: an ordered sequence of sections, each holding either
    one flat list of text items or a sequence of titled subsections with a
    list each. Every list is meant to hold at most `MaxItems` items. */
module CanvasDocument {
  import opened Wrappers

  /** The capacity of every item list (the `< 3` guards of `addItem`). */
  const MaxItems: nat := 3

  /** The number of sections of the canvas. */
  const SectionCount: nat := 9

  datatype Subsection = Subsection(title: string, items: seq<string>)

  /** A `CanvasSection`: `title`, `items` and `subsections` are optional. */
  datatype Section = Section(
    id: string,
    order: int,
    title: Option<string>,
    items: Option<seq<string>>,
    subsections: Option<seq<Subsection>>)

  type Canvas = seq<Section>

  predicate SubsectionsWithinCapacity(subs: seq<Subsection>) {
    forall j :: 0 <= j < |subs| ==> |subs[j].items| <= MaxItems
  }

  predicate SectionWithinCapacity(s: Section) {
    && (s.items.Some? ==> |s.items.value| <= MaxItems)
    && (s.subsections.Some? ==> SubsectionsWithinCapacity(s.subsections.value))
  }

  /** Every list of the canvas, flat or in a subsection, holds at most three items. */
  predicate WithinCapacity(c: Canvas) {
    forall k :: 0 <= k < |c| ==> SectionWithinCapacity(c[k])
  }

  /** One of the two shapes a section takes: a titled flat list, or exactly
      two subsections with distinct titles and no flat list. */
  predicate WellShaped(s: Section) {
    || (s.title.Some? && s.items.Some? && s.subsections.None?)
    || (&& s.title.None? && s.items.None? && s.subsections.Some?
        && |s.subsections.value| == 2
        && s.subsections.value[0].title != s.subsections.value[1].title)
  }

  predicate DistinctIds(c: Canvas) {
    forall i, j :: 0 <= i < j < |c| ==> c[i].id != c[j].id
  }

  /** The display orders are exactly 1..|c|, each used by one section. */
  predicate OrdersArePermutation(c: Canvas) {
    IsPermutationOfOneTo(Orders(c))
  }

  /** `s` holds each of 1..|s| exactly once. */
  predicate IsPermutationOfOneTo(s: seq<int>) {
    && (forall k :: 0 <= k < |s| ==> 1 <= s[k] <= |s|)
    && (forall i, j :: 0 <= i < j < |s| ==> s[i] != s[j])
    && (forall v :: 1 <= v <= |s| ==> v in s)
  }

  /** The display orders of the sections, in sequence order. */
  function Orders(c: Canvas): (r: seq<int>)
    ensures |r| == |c|
  {
    seq(|c|, k requires 0 <= k < |c| => c[k].order)
  }

  /** The invariant of the document: nine uniquely named sections, display
      orders 1..9, every section well shaped, every list within capacity. */
  predicate WellFormed(c: Canvas) {
    && |c| == SectionCount
    && DistinctIds(c)
    && OrdersArePermutation(c)
    && (forall k :: 0 <= k < |c| ==> WellShaped(c[k]))
    && WithinCapacity(c)
  }

  predicate SectionIsEmpty(s: Section) {
    && (s.items.Some? ==> s.items.value == [])
    && (s.subsections.Some? ==>
          forall j :: 0 <= j < |s.subsections.value| ==> s.subsections.value[j].items == [])
  }

  predicate AllListsEmpty(c: Canvas) {
    forall k :: 0 <= k < |c| ==> SectionIsEmpty(c[k])
  }

  function Composite(id: string, order: int, first: string, second: string): (r: Section) {
    Section(id, order, None, None, Some([Subsection(first, []), Subsection(second, [])]))
  }

  function Simple(id: string, order: int, title: string): (r: Section) {
    Section(id, order, Some(title), Some([]), None)
  }

  /** `initialCanvas`: the nine sections in declaration order. */
  const InitialCanvas: Canvas := [
    Composite("problem", 2, "Problem", "Existing Alternatives"),
    Simple("solution", 4, "Solution"),
    Simple("key-metrics", 8, "Key Metrics"),
    Composite("unique-value-proposition", 3, "Unique Value Proposition", "High Level Concept"),
    Simple("unfair-advantage", 9, "Unfair Advantage"),
    Simple("channels", 5, "Channels"),
    Composite("customer-segments", 1, "Customer Segments", "Early Adopter"),
    Simple("cost-structure", 7, "Cost Structure"),
    Simple("revenue-streams", 6, "Revenue Streams")
  ]

  /** `getSectionById`: the first section carrying `id`, or `None` when no
      section does (the lookup yields `undefined` then). */
  function FindSection(c: Canvas, id: string): (r: Option<Section>)
    ensures r.None? <==> forall k :: 0 <= k < |c| ==> c[k].id != id
    ensures r.Some? ==>
      exists k :: 0 <= k < |c| && c[k] == r.value && c[k].id == id
        && forall j :: 0 <= j < k ==> c[j].id != id
  {
    if |c| == 0 then None
    else if c[0].id == id then Some(c[0])
    else FindSection(c[1..], id)
  }
}
