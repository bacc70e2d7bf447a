/**
 * The cards of the canvas and the pure updates the board's handlers apply
 * to them. Coordinates and sizes, JavaScript numbers in the component, are
 * reals here.
 */
module Cards {
  import opened Wrappers
  import Decimal

  /** One card: a stable id, its text, its top-left corner and its size. */
  datatype Card = Card(id: nat, text: string, x: real, y: real, width: real, height: real)

  // The resize surface's min and max constraints.
  const MinWidth: real := 100.0
  const MinHeight: real := 50.0
  const MaxWidth: real := 500.0
  const MaxHeight: real := 300.0

  // The size and the position range of a card made by "Add New Card".
  const DefaultWidth: real := 200.0
  const DefaultHeight: real := 100.0
  const SpawnRange: real := 400.0

  // The number of characters of a card's text shown before "...".
  const PreviewLength: nat := 20

  const TextPrefix: string := "This is card number "
  const TextSuffix: string := ". Here is some more dummy text to show."

  predicate SizeInBounds(width: real, height: real) {
    MinWidth <= width <= MaxWidth && MinHeight <= height <= MaxHeight
  }

  /**
   * The board invariant on the card list: the card at position i has id
   * i + 1, and every card's size lies within the resize constraints.
   */
  predicate WellFormed(cards: seq<Card>) {
    forall i :: 0 <= i < |cards| ==>
      cards[i].id == i + 1 && SizeInBounds(cards[i].width, cards[i].height)
  }

  /** In a well-formed list no two cards share an id. */
  lemma WellFormedIdsUnique(cards: seq<Card>, i: nat, j: nat)
    requires WellFormed(cards)
    requires i < |cards| && j < |cards|
    ensures cards[i].id == cards[j].id <==> i == j
  {
  }

  /** The two seed cards the board starts with. */
  function InitialCards(): (r: seq<Card>)
    ensures |r| == 2 && WellFormed(r)
  {
    [ Card(1, "This is a card with some text.", 50.0, 50.0, 200.0, 100.0),
      Card(2, "Another card with more text.", 300.0, 150.0, 200.0, 100.0) ]
  }

  /** The placeholder text of the card numbered `id`. */
  function NewCardText(id: nat): string {
    TextPrefix + Decimal.Show(id) + TextSuffix
  }

  /**
   * The card number a placeholder text names: the digits right after
   * `TextPrefix`, or None when the text does not have that shape.
   */
  function CardNumberOf(text: string): Option<nat> {
    if |TextPrefix| <= |text| && text[..|TextPrefix|] == TextPrefix then
      var digits := Decimal.LeadingDigits(text[|TextPrefix|..]);
      if digits == [] then None else Some(Decimal.Parse(digits))
    else
      None
  }

  /** The text of a new card names that card's id. */
  lemma NewCardTextNamesId(id: nat)
    ensures CardNumberOf(NewCardText(id)) == Some(id)
  {
    var t := NewCardText(id);
    assert t[..|TextPrefix|] == TextPrefix;
    assert t[|TextPrefix|..] == Decimal.Show(id) + TextSuffix;
    assert TextSuffix[0] == '.';
    Decimal.LeadingDigitsOfNumeral(Decimal.Show(id), TextSuffix);
    Decimal.ParseShow(id);
  }

  /**
   * The card "Add New Card" makes: `rx` and `ry` are the two draws of the
   * random source, each in [0, 1).
   */
  function NewCard(id: nat, rx: real, ry: real): (c: Card)
    requires 0.0 <= rx < 1.0 && 0.0 <= ry < 1.0
    ensures c.id == id && CardNumberOf(c.text) == Some(id)
    ensures 0.0 <= c.x < SpawnRange && 0.0 <= c.y < SpawnRange
    ensures c.width == DefaultWidth && c.height == DefaultHeight
    ensures SizeInBounds(c.width, c.height)
  {
    NewCardTextNamesId(id);
    Card(id, NewCardText(id), rx * SpawnRange, ry * SpawnRange, DefaultWidth, DefaultHeight)
  }

  /** The list after a drag of card i ends at (x, y). */
  function MoveCard(cards: seq<Card>, i: nat, x: real, y: real): (r: seq<Card>)
    requires i < |cards|
    ensures |r| == |cards|
    ensures r[i].x == x && r[i].y == y
    ensures r[i].id == cards[i].id && r[i].text == cards[i].text
    ensures r[i].width == cards[i].width && r[i].height == cards[i].height
    ensures forall j :: 0 <= j < |r| && j != i ==> r[j] == cards[j]
    ensures WellFormed(cards) ==> WellFormed(r)
  {
    cards[i := cards[i].(x := x, y := y)]
  }

  /** The list after a resize of card i ends at width w and height h. */
  function ResizeCard(cards: seq<Card>, i: nat, w: real, h: real): (r: seq<Card>)
    requires i < |cards|
    ensures |r| == |cards|
    ensures r[i].width == w && r[i].height == h
    ensures r[i].id == cards[i].id && r[i].text == cards[i].text
    ensures r[i].x == cards[i].x && r[i].y == cards[i].y
    ensures forall j :: 0 <= j < |r| && j != i ==> r[j] == cards[j]
    ensures WellFormed(cards) && SizeInBounds(w, h) ==> WellFormed(r)
  {
    cards[i := cards[i].(width := w, height := h)]
  }

  /** The list after the edit buffer `t` is saved into card i. */
  function SetText(cards: seq<Card>, i: nat, t: string): (r: seq<Card>)
    requires i < |cards|
    ensures |r| == |cards|
    ensures r[i].text == t
    ensures r[i].id == cards[i].id
    ensures r[i].x == cards[i].x && r[i].y == cards[i].y
    ensures r[i].width == cards[i].width && r[i].height == cards[i].height
    ensures forall j :: 0 <= j < |r| && j != i ==> r[j] == cards[j]
    ensures WellFormed(cards) ==> WellFormed(r)
  {
    cards[i := cards[i].(text := t)]
  }

  /** The list after "Add New Card", with random draws `rx` and `ry`. */
  function AddCard(cards: seq<Card>, rx: real, ry: real): (r: seq<Card>)
    requires 0.0 <= rx < 1.0 && 0.0 <= ry < 1.0
    ensures |r| == |cards| + 1 && r[..|cards|] == cards
    ensures r[|cards|].id == |cards| + 1
    ensures CardNumberOf(r[|cards|].text) == Some(|cards| + 1)
    ensures r[|cards|].width == DefaultWidth && r[|cards|].height == DefaultHeight
    ensures 0.0 <= r[|cards|].x < SpawnRange && 0.0 <= r[|cards|].y < SpawnRange
    ensures WellFormed(cards) ==> WellFormed(r)
  {
    cards + [NewCard(|cards| + 1, rx, ry)]
  }

  predicate ValidDraws(draws: seq<(real, real)>) {
    forall k :: 0 <= k < |draws| ==> 0.0 <= draws[k].0 < 1.0 && 0.0 <= draws[k].1 < 1.0
  }

  /** The list after one "Add New Card" click per pair of random draws. */
  function AddCards(cards: seq<Card>, draws: seq<(real, real)>): (r: seq<Card>)
    requires ValidDraws(draws)
    ensures |r| == |cards| + |draws| && r[..|cards|] == cards
    ensures forall k :: |cards| <= k < |r| ==>
      r[k].id == k + 1 && r[k].width == DefaultWidth && r[k].height == DefaultHeight
    ensures WellFormed(cards) ==> WellFormed(r)
    decreases |draws|
  {
    if draws == [] then cards
    else
      var next := AddCard(cards, draws[0].0, draws[0].1);
      assert ValidDraws(draws[1..]) by {
        forall k | 0 <= k < |draws| - 1 ensures draws[1..][k] == draws[k + 1] { }
      }
      var r := AddCards(next, draws[1..]);
      assert r[..|cards|] == r[..|next|][..|cards|];
      assert forall k :: |cards| <= k < |r| ==>
          r[k].id == k + 1 && r[k].width == DefaultWidth && r[k].height == DefaultHeight by {
        forall k | |cards| <= k < |r|
          ensures r[k].id == k + 1 && r[k].width == DefaultWidth && r[k].height == DefaultHeight
        {
          if k == |cards| {
            assert r[k] == r[..|next|][k] == next[k];
          }
        }
      }
      r
  }

  /**
   * The preview of a card's text: its first `PreviewLength` characters, or
   * the whole text when it is shorter.
   */
  function Preview(text: string): (r: string)
    ensures r <= text
    ensures |r| == if |text| < PreviewLength then |text| else PreviewLength
  {
    if |text| <= PreviewLength then text else text[..PreviewLength]
  }

  /** The label a card shows when it is not being edited. */
  function PreviewLabel(text: string): (r: string)
    ensures |r| >= 3 && r[..|r| - 3] == Preview(text) && r[|r| - 3..] == "..."
    ensures r[..|r| - 3] <= text
    ensures |text| <= PreviewLength ==> r == text + "..."
    ensures |text| > PreviewLength ==> |r| == PreviewLength + 3 && r[..PreviewLength] == text[..PreviewLength]
  {
    Preview(text) + "..."
  }
}
