# Lean canvas editor: document mutation engine

A Dafny model of the canvas document of the Lean Canvas editor
(`src/App.tsx`) and of the three state updaters that edit it. The canvas
is an ordered sequence of nine sections. A section holds either a titled
flat list of text items or a sequence of titled subsections, each with its
own list. The editor caps every list at three items. The updaters
`addItem`, `removeItem` and `updateItem` each map the whole canvas to a
new one: they find the section by `id`, optionally a subsection by title,
and then append an empty item, drop the item at a position, or overwrite
the item at a position.

Modules:

- `Wrappers` (`wrappers.dfy`): `Option`, for the optional record fields and the optional title argument.
- `CanvasDocument` (`canvas.dfy`): `Section` and `Subsection`, the capacity `MaxItems = 3`, the document invariant `WellFormed`, `InitialCanvas` and the `getSectionById` lookup.
- `ItemLists` (`item_lists.dfy`): the two positional list edits. `RemoveAt` is the index `filter`. `ReplaceAt` is the index `map`.
- `CanvasMutations` (`mutations.dfy`): the per-section steps, the three updaters and the frame predicates. `Apply` and `ApplyAll` model successive updater calls.
- `CanvasProperties` (`properties.dfy`): what each updater does to the list it addresses, when it changes nothing, and why every reachable canvas keeps the invariant.

Modelling choices:

- The optional fields `title`, `items` and `subsections` are `Option`s. The `subsectionTitle` argument is an `Option<string>`. Its JavaScript truthiness is `Truthy`, so `Some("")` behaves like `None`.
- Subsection matching maps over all subsections. Every subsection with the matching title is affected, not only the first.
- `index` is an `int`. A negative or too-large index matches no position.

Facts about `src/App.tsx` the model follows:

- `addItem` and `removeItem` return nothing (src/App.tsx:78-131).
- `getSectionById` yields `undefined` for an unknown id (src/App.tsx:258-259). `FindSection` returns `None` then.
- The record type does not force composite sections to have exactly two subsections. That shape is part of `WellFormed`. `WellFormed` holds of the initial canvas and is preserved by every updater.

## Model

| member | source | states |
|---|---|---|
| CanvasDocument.FindSection | src/App.tsx:258-259 | yields no section exactly when no section has the id; otherwise yields a section with that id that no earlier section shares |
| ItemLists.RemoveAt | src/App.tsx:117 | filtering out one position shortens the list by one when the index is in range, and leaves the length alone otherwise |
| ItemLists.RemoveAtCutsOut | src/App.tsx:117 | filtering out position `index` equals cutting `items[index]` out of the list; an out-of-range index leaves the list unchanged |
| ItemLists.RemoveAtInRange | src/App.tsx:117 | for an in-range index, the filter result is the list with that one position cut out |
| ItemLists.RemoveAtOutOfRange | src/App.tsx:117 | for a negative or too-large index, the filter result is the list itself |
| ItemLists.RemoveAtShiftsDown | src/App.tsx:117 | after removal, earlier items keep their positions and every later item moves down by one |
| ItemLists.RemoveAtLosesOneItem | src/App.tsx:117 | removal loses exactly the item at the index: the multiset of the rest plus that item is the original multiset |
| ItemLists.ReplaceAt | src/App.tsx:149-151 | the index map keeps the length, is a sequence update at an in-range index, and changes nothing for an out-of-range index |
| CanvasMutations.Truthy | src/App.tsx:82-92 | the title guard is false exactly for an absent title and for the empty string; the same guard recurs at src/App.tsx:112,121,142,156 |
| CanvasMutations.AddToSection | src/App.tsx:81-99 | the per-section step of addItem keeps id, order, title and subsection titles, touches only the addressed list, and keeps the section within capacity |
| CanvasMutations.AddItem | src/App.tsx:78-102 | keeps section count and order, every id, order and title, every other section and every untargeted subsection; preserves the three-item cap |
| CanvasMutations.RemoveFromSection | src/App.tsx:110-128 | the per-section step of removeItem keeps everything outside the addressed list and keeps the section within capacity |
| CanvasMutations.RemoveItem | src/App.tsx:104-131 | same frame as AddItem; preserves the three-item cap |
| CanvasMutations.UpdateInSection | src/App.tsx:140-165 | the per-section step of updateItem keeps everything outside the addressed list and keeps the section within capacity |
| CanvasMutations.UpdateItem | src/App.tsx:133-168 | same frame as AddItem; preserves the three-item cap |
| CanvasMutations.Apply | src/App.tsx:78-168 | any single updater call respects the frame of its section id and title and preserves the cap |
| CanvasMutations.ApplyAll | src/App.tsx:76-168 | any sequence of updater calls keeps the number of sections and each section's id, order and title, and preserves the cap |
| CanvasProperties.AddItemAppendsBlankToList | src/App.tsx:91-96 | with a falsy title and room in the flat list, addItem appends exactly one empty item at its end |
| CanvasProperties.AddItemAppendsBlankToSubsection | src/App.tsx:82-90 | with a truthy title, addItem appends exactly one empty item to each matching subsection that has room |
| CanvasProperties.AddItemWhenFullIsNoOp | src/App.tsx:80-100 | when every list addItem addresses already holds three items, the result equals the input canvas |
| CanvasProperties.RemoveItemCutsOutOfList | src/App.tsx:121-125 | with a falsy title, removeItem cuts position index out of the flat list, or leaves it unchanged when index is out of range |
| CanvasProperties.RemoveItemCutsOutOfSubsection | src/App.tsx:112-120 | with a truthy title, removeItem does the same to every matching subsection |
| CanvasProperties.UpdateItemReplacesInList | src/App.tsx:156-162 | with a falsy title, updateItem overwrites position index of the flat list, or changes nothing when index is out of range |
| CanvasProperties.UpdateItemReplacesInSubsection | src/App.tsx:142-155 | with a truthy title, updateItem does the same to every matching subsection |
| CanvasProperties.MissingListIsNoOp | src/App.tsx:82-161 | a truthy title on a section without subsections, or a falsy title on a section without a flat list, leaves the section unchanged under all three updaters |
| CanvasProperties.FramedKeepsWellFormed | src/App.tsx:78-168 | any result that keeps the updaters' frame and the cap keeps the document invariant |
| CanvasProperties.EditKeepsWellFormed | src/App.tsx:78-168 | every updater call keeps the document invariant |
| CanvasProperties.EditsKeepWellFormed | src/App.tsx:78-168 | every sequence of updater calls keeps the document invariant |
| CanvasProperties.InitialCanvasWellFormed | src/App.tsx:12-73 | the initial canvas satisfies the document invariant and all its lists are empty |
| CanvasProperties.InitialIdsDistinct | src/App.tsx:12-73 | the nine initial section ids are pairwise distinct |
| CanvasProperties.InitialOrdersArePermutation | src/App.tsx:12-73 | the initial display orders are exactly 1..9, each used once |
| CanvasProperties.InitialShapesAndLists | src/App.tsx:12-73 | every initial section is a titled flat list or two subsections with distinct titles, and every list is empty |
| CanvasProperties.ReachableCanvasIsWellFormed | src/App.tsx:12-168 | every canvas reachable from the initial one by updater calls satisfies the document invariant, so no list ever holds more than three items |
| CanvasProperties.LookupSurvivesEdit | src/App.tsx:258-259 | the lookup finds a section for an id after an updater call exactly when it found one before, and the found section keeps its display order and title |

## Left out

- React state plumbing (`useState`, `setCanvas`). Each updater lambda is modelled as a pure function. Batching and re-render timing are not modelled.
- Rendering: `renderItems`, `renderSection`, the grid layout, the `n/3` counters, styling and icons. This is presentation only. The Add button's own `< 3` guard repeats the check inside `addItem`.
- The Save button. It has no handler.
- The non-null assertion in `getSectionById`. It is a compile-time annotation, so `FindSection` returns `None` where the lookup yields `undefined`.
- Non-integer indices. `index` is a JavaScript number. A fractional or NaN index matches no position, just like an out-of-range `int`.
- The explicit `items: undefined` key. `removeItem` and `updateItem` write it when a falsy title meets a section without a flat list. It is modelled as `None`, the same as an absent key.
