/**
 * The Canvas component's state and its event handlers. Each handler of
 * components/Canvas.tsx is one method that runs as a single atomic step.
 */
module Canvas {
  import opened Wrappers
  import opened Cards
  import opened LinkView

  /** What a card shows inside its box: the editor with the draft, or the preview. */
  datatype Face = Editor(draft: string) | Label(preview: string)

  /**
   * The face of card i: the editor exactly when card i is the one being
   * edited, showing the edit buffer; the truncated preview otherwise.
   */
  function CardFace(cards: seq<Card>, editIndex: Option<nat>, editText: string, i: nat): Face
    requires i < |cards|
  {
    if editIndex == Some(i) then Editor(editText) else Label(PreviewLabel(cards[i].text))
  }

  /** At most one card shows the editor at a time. */
  lemma AtMostOneEditor(cards: seq<Card>, editIndex: Option<nat>, editText: string, i: nat, j: nat)
    requires i < |cards| && j < |cards|
    requires CardFace(cards, editIndex, editText, i).Editor?
    requires CardFace(cards, editIndex, editText, j).Editor?
    ensures i == j
  {
  }

  class Board {
    var cards: seq<Card>
    var editIndex: Option<nat>
    var editText: string
    var showModal: bool
    var modalContent: string

    /** Ids follow positions, sizes stay in bounds, and the edited card exists. */
    ghost predicate Valid()
      reads this
    {
      WellFormed(cards) && (editIndex.Some? ==> editIndex.value < |cards|)
    }

    constructor ()
      ensures Valid()
      ensures cards == InitialCards()
      ensures editIndex == None && editText == ""
      ensures !showModal && modalContent == ""
    {
      cards := InitialCards();
      showModal := false;
      modalContent := "";
      editIndex := None;
      editText := "";
    }

    /** A drag of card `index` ended at (x, y). */
    method HandleDrag(index: nat, x: real, y: real)
      requires Valid() && index < |cards|
      modifies this
      ensures Valid()
      ensures cards == MoveCard(old(cards), index, x, y)
      ensures editIndex == old(editIndex) && editText == old(editText)
      ensures showModal == old(showModal) && modalContent == old(modalContent)
    {
      var newCards := cards;
      newCards := newCards[index := newCards[index].(x := x, y := y)];
      cards := newCards;
    }

    /**
     * A resize of card `index` ended at w by h; the resize surface keeps
     * the size within its constraints.
     */
    method HandleResize(index: nat, w: real, h: real)
      requires Valid() && index < |cards|
      requires SizeInBounds(w, h)
      modifies this
      ensures Valid()
      ensures cards == ResizeCard(old(cards), index, w, h)
      ensures editIndex == old(editIndex) && editText == old(editText)
      ensures showModal == old(showModal) && modalContent == old(modalContent)
    {
      var newCards := cards;
      newCards := newCards[index := newCards[index].(width := w, height := h)];
      cards := newCards;
    }

    /** "Show More": the overlay opens showing `text`. */
    method HandleShowMore(text: string)
      requires Valid()
      modifies this
      ensures Valid()
      ensures showModal && modalContent == text
      ensures cards == old(cards) && editIndex == old(editIndex) && editText == old(editText)
    {
      modalContent := text;
      showModal := true;
    }

    /**
     * One click on card `index`'s "Show More" button. The button sits inside
     * the card's clickable preview and the click is not stopped there, so
     * after the button's handler the preview's handler runs as well: the
     * overlay opens and the card also enters edit mode.
     */
    method ShowMoreClick(index: nat)
      requires Valid() && index < |cards|
      modifies this
      ensures Valid()
      ensures showModal && modalContent == old(cards)[index].text
      ensures editIndex == Some(index) && editText == old(cards)[index].text
      ensures cards == old(cards)
    {
      HandleShowMore(cards[index].text);
      HandleEditClick(index);
    }

    /** "Close": the overlay hides; its content is kept. */
    method HandleClose()
      requires Valid()
      modifies this
      ensures Valid()
      ensures !showModal && modalContent == old(modalContent)
      ensures cards == old(cards) && editIndex == old(editIndex) && editText == old(editText)
    {
      showModal := false;
    }

    /**
     * A click on card `index`'s preview: that card becomes the edited one
     * and the buffer is seeded with its text; an unsaved buffer for any
     * other card is dropped.
     */
    method HandleEditClick(index: nat)
      requires Valid() && index < |cards|
      modifies this
      ensures Valid()
      ensures editIndex == Some(index) && editText == cards[index].text
      ensures cards == old(cards)
      ensures showModal == old(showModal) && modalContent == old(modalContent)
      ensures CardFace(cards, editIndex, editText, index) == Editor(cards[index].text)
      ensures forall j :: 0 <= j < |cards| && j != index ==>
        CardFace(cards, editIndex, editText, j) == Label(PreviewLabel(cards[j].text))
    {
      editIndex := Some(index);
      editText := cards[index].text;
    }

    /** Typing in the editor replaces the buffer. */
    method HandleTextChange(value: string)
      requires Valid()
      modifies this
      ensures Valid()
      ensures editText == value
      ensures cards == old(cards) && editIndex == old(editIndex)
      ensures showModal == old(showModal) && modalContent == old(modalContent)
      ensures editIndex.Some? ==> CardFace(cards, editIndex, editText, editIndex.value) == Editor(value)
    {
      editText := value;
    }

    /**
     * "Save": the buffer becomes the text of the edited card and editing
     * ends. The button exists only while a card is being edited. The
     * buffer itself is not cleared.
     */
    method HandleSaveEdit()
      requires Valid() && editIndex.Some?
      modifies this
      ensures Valid()
      ensures cards == SetText(old(cards), old(editIndex).value, old(editText))
      ensures editIndex == None && editText == old(editText)
      ensures showModal == old(showModal) && modalContent == old(modalContent)
      ensures forall j :: 0 <= j < |cards| ==> CardFace(cards, editIndex, editText, j).Label?
      ensures CardFace(cards, editIndex, editText, old(editIndex).value) == Label(PreviewLabel(old(editText)))
    {
      var newCards := cards;
      newCards := newCards[editIndex.value := newCards[editIndex.value].(text := editText)];
      cards := newCards;
      editIndex := None;
    }

    /**
     * "Add New Card": `rx` and `ry` are the two draws of the random source
     * that place the new card.
     */
    method AddNewCard(rx: real, ry: real)
      requires Valid()
      requires 0.0 <= rx < 1.0 && 0.0 <= ry < 1.0
      modifies this
      ensures Valid()
      ensures cards == AddCard(old(cards), rx, ry)
      ensures editIndex == old(editIndex) && editText == old(editText)
      ensures showModal == old(showModal) && modalContent == old(modalContent)
    {
      var newCardId := |cards| + 1;
      var newCard := NewCard(newCardId, rx, ry);
      cards := cards + [newCard];
    }
  }

  /** Two seed cards, one click on "Add New Card": three cards, two arrows. */
  method SeedAddScenario(rx: real, ry: real)
    requires 0.0 <= rx < 1.0 && 0.0 <= ry < 1.0
  {
    var board := new Board();
    var seeds := board.cards;
    board.AddNewCard(rx, ry);
    assert |board.cards| == 3;
    assert board.cards[2].id == 3;
    assert CardNumberOf(board.cards[2].text) == Some(3);
    assert board.cards[2].width == 200.0 && board.cards[2].height == 100.0;
    var arrows := Links(board.cards);
    assert |arrows| == 2;
    assert arrows[0] == Link(Center(seeds[0]), Center(seeds[1]));
    assert arrows[1] == Link(Center(seeds[1]), Center(board.cards[2]));
  }

  /**
   * Editing card 0 and then card 1 drops the draft for card 0; saving
   * writes the draft into card 1 only and ends editing.
   */
  method EditScenario() {
    var board := new Board();
    var before := board.cards;
    board.HandleEditClick(0);
    board.HandleTextChange("draft");
    board.HandleEditClick(1);
    assert board.editText == before[1].text;
    board.HandleTextChange("hello");
    board.HandleSaveEdit();
    assert board.cards[1].text == "hello";
    assert board.cards[0] == before[0];
    assert board.editIndex == None;
    assert CardFace(board.cards, board.editIndex, board.editText, 1).Label?;
  }

  /**
   * A draft for card 0 is lost when "Show More" of card 1 is clicked: the
   * click also puts card 1 into edit mode.
   */
  method ShowMoreDropsDraftScenario() {
    var board := new Board();
    board.HandleEditClick(0);
    board.HandleTextChange("draft");
    board.ShowMoreClick(1);
    assert board.showModal && board.modalContent == InitialCards()[1].text;
    assert board.editIndex == Some(1) && board.editText != "draft";
    board.HandleClose();
    assert CardFace(board.cards, board.editIndex, board.editText, 1).Editor?;
  }

  /** The overlay shows what it was opened with, and closing keeps the board as it was. */
  method OverlayScenario() {
    var board := new Board();
    board.HandleShowMore("foo");
    assert board.showModal && board.modalContent == "foo";
    board.HandleClose();
    assert !board.showModal;
    assert board.cards == InitialCards();
  }
}
