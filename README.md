# Canvas board

A model of the `Canvas` component of a small card-board widget: an ordered
list of draggable, resizable text cards, each linked by an arrow to the next,
with an inline text editor and a "Show More" detail overlay.

- `wrappers.dfy` — `Option`, for the `editIndex` state that is null or an index.
- `decimal.dfy` — the decimal rendering of a card number inside the new-card
  text template, and its reading back.
- `cards.dfy` — the `Card` record, the two seed cards, the board invariant
  (the card at position i has id i + 1, and every size lies in
  [100,500] × [50,300]) and the pure list updates behind drag, resize, save
  and add, each with its frame conditions; the 20-character preview.
- `links.dfy` — the derived arrow view: one arrow from the centre of card i
  to the centre of card i + 1 for every i < length − 1.
- `board.dfy` — class `Board` with the component's five state fields and one
  method per event handler. Each method keeps `Valid()` and states the whole
  new state in terms of the old one and the pure updates. `ShowMoreClick` models
  one click on "Show More", which also reaches the enclosing preview (see
  "## Findings"). Four client methods (`SeedAddScenario`, `EditScenario`,
  `ShowMoreDropsDraftScenario`, `OverlayScenario`) show what callers
  can derive from those contracts alone.

## Model

| member | source | states |
|---|---|---|
| Decimal.Show | components/Canvas.tsx:68 | the rendered card number is non-empty, all decimal digits, with no leading zero |
| Decimal.ParseShow | components/Canvas.tsx:68 | reading the rendered number back gives the number |
| Cards.InitialCards | components/Canvas.tsx:13-16 | the board starts with two cards that satisfy the invariant: ids 1 and 2, sizes within bounds |
| Cards.WellFormedIdsUnique | components/Canvas.tsx:13-16 | under the invariant, two cards have the same id exactly when they are at the same position |
| Cards.NewCardTextNamesId | components/Canvas.tsx:68 | the placeholder text of a new card names exactly that card's id after "This is card number " |
| Cards.NewCard | components/Canvas.tsx:65-73 | a new card has the given id and a text naming it, size 200 × 100 within bounds, and x, y in [0,400) |
| Cards.MoveCard | components/Canvas.tsx:25-31 | only x and y of card i change, to the given values; length, card i's other fields and every other card are unchanged; the invariant is kept |
| Cards.ResizeCard | components/Canvas.tsx:33-39 | only width and height of card i change; everything else is unchanged; the invariant is kept when the new size is within the constraints |
| Cards.SetText | components/Canvas.tsx:55-60 | only the text of card i changes, to the buffer; everything else is unchanged; the invariant is kept |
| Cards.AddCard | components/Canvas.tsx:64-75 | exactly one card is appended after the unchanged old ones; its id is the old length + 1, its text names that id, its size is 200 × 100 and its position lies in [0,400)²; the invariant is kept |
| Cards.AddCards | components/Canvas.tsx:64-75 | N additions grow the list by exactly N, keep the old cards as a prefix, and give every new card id = position + 1 and size 200 × 100; the invariant is kept |
| Cards.Preview | components/Canvas.tsx:124 | the preview is a prefix of the text, of length 20, or the whole text when it is shorter |
| Cards.PreviewLabel | components/Canvas.tsx:124 | the label is `Preview` of the text followed by "...": a text of at most 20 characters is shown whole, a longer one as its first 20 characters and "..." |
| LinkView.Center | components/Canvas.tsx:162-165 | the arrow end point of a card is equally far from its opposite edges on both axes |
| LinkView.CenterInside | components/Canvas.tsx:162-165 | that point lies inside the card's box |
| LinkView.Links | components/Canvas.tsx:138-165 | there are exactly length − 1 arrows (none for an empty board) and arrow i goes from the centre of card i to the centre of card i + 1 |
| LinkView.LinksChained | components/Canvas.tsx:161-165 | the arrows form one chain: each ends where the next one starts |
| LinkView.LinksAppend | components/Canvas.tsx:138-165 | adding a card keeps every arrow and adds one from the old last card to the new one |
| LinkView.LinksReplace | components/Canvas.tsx:161-165 | changing card i moves only the end of the arrow into it and the start of the arrow out of it |
| LinkView.LinksIgnoreText | components/Canvas.tsx:161-165 | saving an edit changes no arrow |
| Canvas.AtMostOneEditor | components/Canvas.tsx:105 | at most one card shows the editor at a time |
| Canvas.Board.constructor | components/Canvas.tsx:19-23 | the board starts with the seed cards, nothing edited, an empty buffer and the overlay hidden and empty |
| Canvas.Board.HandleDrag | components/Canvas.tsx:25-31 | the cards become `MoveCard` of the old cards; no other field changes; the invariant is kept |
| Canvas.Board.HandleResize | components/Canvas.tsx:33-39 | given a size within the resize constraints, the cards become `ResizeCard` of the old cards; no other field changes; the invariant is kept |
| Canvas.Board.HandleShowMore | components/Canvas.tsx:41-44 | the overlay becomes visible showing the given text; cards and edit state are unchanged |
| Canvas.Board.ShowMoreClick | components/Canvas.tsx:120-127 | one click on card i's "Show More" opens the overlay with card i's text and also makes card i the edited card with its text in the buffer; the cards are unchanged |
| Canvas.Board.HandleClose | components/Canvas.tsx:180-183 | the overlay is hidden, its content kept; nothing else changes |
| Canvas.Board.HandleEditClick | components/Canvas.tsx:46-49 | card i becomes the edited card and the buffer holds its text, dropping any earlier draft; cards and overlay are unchanged; card i now shows the editor seeded with its text and every other card shows its preview label (`CardFace`) |
| Canvas.Board.HandleTextChange | components/Canvas.tsx:51-53 | only the buffer changes, to the typed value; the edited card's editor shows that value |
| Canvas.Board.HandleSaveEdit | components/Canvas.tsx:55-62 | the buffer becomes the text of the edited card (`SetText`), editing ends, and the buffer and overlay are unchanged; every card then shows its preview label, the saved card the label of the saved buffer |
| Canvas.Board.AddNewCard | components/Canvas.tsx:64-75 | the cards become `AddCard` of the old cards with the two random draws; no other field changes; the invariant is kept |

## Left out

- Rendering (markup, styling, the SVG arrowhead marker) at components/Canvas.tsx:77-190, apart from what is modelled: the arrow view, the preview label, which card shows the editor (`CardFace`), and the nesting of the "Show More" button inside the clickable preview (`ShowMoreClick`).
- The drag and resize libraries' gesture mechanics: their final results are method arguments; the resize constraints of components/Canvas.tsx:99-100 are a precondition of `HandleResize`, since the library clamps the size before calling back.
- `Math.random()`: each draw is a parameter in [0, 1), and the new position is that draw times 400.
- Floating point: positions and sizes are reals, so rounding of `width / 2` and of `random * 400` is not modelled.
- React's scheduling: each handler is one atomic step, so the difference between `addNewCard` reading the length from its closure and appending to the latest list, and the batching of the two setters in `handleSaveEdit`, is not modelled.
- Canvas.Board.HandleSaveEdit: the source assigns the text into the existing card object (components/Canvas.tsx:58), which is shared with the previous list and, for a seed card that has not yet been dragged or resized, with the module-level `initialCards` (a drag or resize replaces the object, components/Canvas.tsx:28 and 36); the model uses value semantics, so that sharing is not captured.
- Canvas.Board.HandleSaveEdit: saving with no card being edited would fail in the source; it is excluded by precondition, since the Save button exists only while a card is edited (components/Canvas.tsx:105-117).
- Cards.Preview: JavaScript's `substring` counts UTF-16 code units; the model counts characters. The space rendered after "..." (components/Canvas.tsx:124) is not part of `PreviewLabel`.
- Position bounds: a drag may end anywhere, including at negative coordinates, so the invariant bounds sizes and ids but not positions; only a new card's position is bounded.
- The intermediate positions during a drag: the source updates state only when a drag or resize ends (`onStop`, `onResizeStop`).

## Findings

| source | as written | input that shows it | evidently intended | confidence | as-written member | corrected member |
|---|---|---|---|---|---|---|
| components/Canvas.tsx:120-127 | the "Show More" button lies inside the preview paragraph whose click enters edit mode, and the click is not stopped, so one click runs `handleShowMore` and then `handleEditClick` | edit the first card, type a draft, then click "Show More" on the second card: the overlay opens, the second card enters edit mode and the draft for the first card is lost (`ShowMoreDropsDraftScenario`) | "Show More" only opens the overlay and leaves the edit state alone | not executed; medium, relies on the browser's event bubbling | Canvas.Board.ShowMoreClick | Canvas.Board.HandleShowMore |
