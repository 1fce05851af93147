/** The three updaters the editor hands to its state setter: each maps the
    whole canvas to a new canvas, changing only the list addressed by a
    section id and an optional subsection title. */
module CanvasMutations {
  import opened Wrappers
  import opened CanvasDocument
  import opened ItemLists

  /** Truthiness of the optional `subsectionTitle` argument: both an absent
      title and the empty string are falsy. */
  function Truthy(subsectionTitle: Option<string>): (truthy: bool)
    ensures !truthy <==> subsectionTitle == None || subsectionTitle == Some("")
  {
    subsectionTitle.Some? && subsectionTitle.value != ""
  }

  /** The subsections a mutation with this title argument acts upon: all
      those whose title equals a truthy argument, not only the first. */
  predicate Targets(sub: Subsection, subsectionTitle: Option<string>) {
    Truthy(subsectionTitle) && sub.title == subsectionTitle.value
  }

  /** What every mutation keeps of the subsections of one section: whether
      they exist, how many there are, their titles, and every subsection it
      does not target. */
  predicate SubsectionsFramed(
    before: Option<seq<Subsection>>, after: Option<seq<Subsection>>, subsectionTitle: Option<string>)
  {
    && (before.Some? <==> after.Some?)
    && (before.Some? && after.Some? ==>
          && |after.value| == |before.value|
          && forall j :: 0 <= j < |before.value| ==>
               && after.value[j].title == before.value[j].title
               && (!Targets(before.value[j], subsectionTitle) ==> after.value[j] == before.value[j]))
  }

  /** What every mutation keeps of one section: its id, order and title,
      which optional lists it has, the whole section when the id differs,
      the flat list when a subsection is addressed, and the subsections
      when none is. */
  predicate SectionFramed(before: Section, after: Section, sectionId: string, subsectionTitle: Option<string>) {
    && after.id == before.id
    && after.order == before.order
    && after.title == before.title
    && (before.id != sectionId ==> after == before)
    && (after.items.Some? <==> before.items.Some?)
    && (Truthy(subsectionTitle) ==> after.items == before.items)
    && (!Truthy(subsectionTitle) ==> after.subsections == before.subsections)
    && SubsectionsFramed(before.subsections, after.subsections, subsectionTitle)
  }

  /** Section by section, `after` differs from `before` only where the
      mutation addressed by `sectionId` and `subsectionTitle` may act. */
  predicate Framed(before: Canvas, after: Canvas, sectionId: string, subsectionTitle: Option<string>) {
    && |after| == |before|
    && forall k :: 0 <= k < |before| ==> SectionFramed(before[k], after[k], sectionId, subsectionTitle)
  }

  /** The per-section step of `addItem`. */
  function AddToSection(s: Section, sectionId: string, subsectionTitle: Option<string>): (r: Section)
    ensures SectionFramed(s, r, sectionId, subsectionTitle)
    ensures SectionWithinCapacity(s) ==> SectionWithinCapacity(r)
  {
    if s.id != sectionId then s
    else if Truthy(subsectionTitle) && s.subsections.Some? then
      var subs := s.subsections.value;
      s.(subsections := Some(seq(|subs|, j requires 0 <= j < |subs| =>
        if subs[j].title == subsectionTitle.value && |subs[j].items| < MaxItems
        then subs[j].(items := subs[j].items + [""])
        else subs[j])))
    else if !Truthy(subsectionTitle) && s.items.Some? && |s.items.value| < MaxItems then
      s.(items := Some(s.items.value + [""]))
    else s
  }

  /** `addItem(sectionId, subsectionTitle?)`. */
  function AddItem(c: Canvas, sectionId: string, subsectionTitle: Option<string>): (r: Canvas)
    ensures Framed(c, r, sectionId, subsectionTitle)
    ensures WithinCapacity(c) ==> WithinCapacity(r)
  {
    seq(|c|, k requires 0 <= k < |c| => AddToSection(c[k], sectionId, subsectionTitle))
  }

  /** The per-section step of `removeItem`. A falsy title on a section with
      no flat list writes the absent list back, so the section is unchanged. */
  function RemoveFromSection(s: Section, sectionId: string, index: int, subsectionTitle: Option<string>): (r: Section)
    ensures SectionFramed(s, r, sectionId, subsectionTitle)
    ensures SectionWithinCapacity(s) ==> SectionWithinCapacity(r)
  {
    if s.id != sectionId then s
    else if Truthy(subsectionTitle) && s.subsections.Some? then
      var subs := s.subsections.value;
      s.(subsections := Some(seq(|subs|, j requires 0 <= j < |subs| =>
        if subs[j].title == subsectionTitle.value
        then subs[j].(items := RemoveAt(subs[j].items, index))
        else subs[j])))
    else if !Truthy(subsectionTitle) then
      s.(items := if s.items.Some? then Some(RemoveAt(s.items.value, index)) else None)
    else s
  }

  /** `removeItem(sectionId, index, subsectionTitle?)`. */
  function RemoveItem(c: Canvas, sectionId: string, index: int, subsectionTitle: Option<string>): (r: Canvas)
    ensures Framed(c, r, sectionId, subsectionTitle)
    ensures WithinCapacity(c) ==> WithinCapacity(r)
  {
    seq(|c|, k requires 0 <= k < |c| => RemoveFromSection(c[k], sectionId, index, subsectionTitle))
  }

  /** The per-section step of `updateItem`. */
  function UpdateInSection(
    s: Section, sectionId: string, index: int, value: string, subsectionTitle: Option<string>): (r: Section)
    ensures SectionFramed(s, r, sectionId, subsectionTitle)
    ensures SectionWithinCapacity(s) ==> SectionWithinCapacity(r)
  {
    if s.id != sectionId then s
    else if Truthy(subsectionTitle) && s.subsections.Some? then
      var subs := s.subsections.value;
      s.(subsections := Some(seq(|subs|, j requires 0 <= j < |subs| =>
        if subs[j].title == subsectionTitle.value
        then subs[j].(items := ReplaceAt(subs[j].items, index, value))
        else subs[j])))
    else if !Truthy(subsectionTitle) then
      s.(items := if s.items.Some? then Some(ReplaceAt(s.items.value, index, value)) else None)
    else s
  }

  /** `updateItem(sectionId, index, value, subsectionTitle?)`. */
  function UpdateItem(c: Canvas, sectionId: string, index: int, value: string, subsectionTitle: Option<string>): (r: Canvas)
    ensures Framed(c, r, sectionId, subsectionTitle)
    ensures WithinCapacity(c) ==> WithinCapacity(r)
  {
    seq(|c|, k requires 0 <= k < |c| => UpdateInSection(c[k], sectionId, index, value, subsectionTitle))
  }

  /** One call of an updater, with its arguments. */
  datatype Edit =
    | Add(sectionId: string, subsectionTitle: Option<string>)
    | Remove(sectionId: string, index: int, subsectionTitle: Option<string>)
    | Update(sectionId: string, index: int, value: string, subsectionTitle: Option<string>)

  function Apply(c: Canvas, e: Edit): (r: Canvas)
    ensures Framed(c, r, e.sectionId, e.subsectionTitle)
    ensures WithinCapacity(c) ==> WithinCapacity(r)
  {
    match e
    case Add(id, sub) => AddItem(c, id, sub)
    case Remove(id, i, sub) => RemoveItem(c, id, i, sub)
    case Update(id, i, v, sub) => UpdateItem(c, id, i, v, sub)
  }

  /** Sections keep their id, order and title, position by position. */
  predicate SameKeys(before: Canvas, after: Canvas) {
    && |after| == |before|
    && forall k :: 0 <= k < |before| ==>
         && after[k].id == before[k].id
         && after[k].order == before[k].order
         && after[k].title == before[k].title
  }

  /** Successive updater calls, applied in order. */
  function ApplyAll(c: Canvas, edits: seq<Edit>): (r: Canvas)
    ensures SameKeys(c, r)
    ensures WithinCapacity(c) ==> WithinCapacity(r)
    decreases |edits|
  {
    if |edits| == 0 then c else ApplyAll(Apply(c, edits[0]), edits[1..])
  }
}
