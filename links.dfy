/**
 * The link view: the canvas draws an arrow from the centre of each card to
 * the centre of the next card in list order, and none from the last card.
 */
module LinkView {
  import opened Cards

  datatype Point = Point(x: real, y: real)

  /** An arrow drawn from `from` to `to`. */
  datatype Link = Link(from: Point, to: Point)

  /** The centre of a card: equally far from its left and right edges, and from its top and bottom edges. */
  function Center(c: Card): (p: Point)
    ensures p.x - c.x == c.x + c.width - p.x
    ensures p.y - c.y == c.y + c.height - p.y
  {
    Point(c.x + c.width / 2.0, c.y + c.height / 2.0)
  }

  /** A card's centre lies inside its box when its size is non-negative. */
  lemma CenterInside(c: Card)
    requires c.width >= 0.0 && c.height >= 0.0
    ensures c.x <= Center(c).x <= c.x + c.width
    ensures c.y <= Center(c).y <= c.y + c.height
  {
  }

  /** The arrows drawn for `cards`, in list order. */
  function Links(cards: seq<Card>): (r: seq<Link>)
    ensures |r| == if cards == [] then 0 else |cards| - 1
    ensures forall i :: 0 <= i < |r| ==> r[i] == Link(Center(cards[i]), Center(cards[i + 1]))
  {
    if |cards| < 2 then [] else [Link(Center(cards[0]), Center(cards[1]))] + Links(cards[1..])
  }

  /** The arrows form one chain: each ends where the next one starts. */
  lemma LinksChained(cards: seq<Card>, i: nat)
    requires i + 1 < |Links(cards)|
    ensures Links(cards)[i].to == Links(cards)[i + 1].from
  {
    var r := Links(cards);
    assert r[i].to == Center(cards[i + 1]);
    assert r[i + 1] == Link(Center(cards[i + 1]), Center(cards[i + 2]));
  }

  /** Adding a card after the last one keeps every arrow and adds one to the new card. */
  lemma LinksAppend(cards: seq<Card>, c: Card)
    requires cards != []
    ensures Links(cards + [c]) == Links(cards) + [Link(Center(cards[|cards| - 1]), Center(c))]
  {
    var r, s := Links(cards + [c]), Links(cards) + [Link(Center(cards[|cards| - 1]), Center(c))];
    assert |r| == |s|;
    forall i | 0 <= i < |r| ensures r[i] == s[i] {
      assert (cards + [c])[i] == if i < |cards| then cards[i] else c;
      assert (cards + [c])[i + 1] == if i + 1 < |cards| then cards[i + 1] else c;
    }
  }

  /**
   * Replacing card i only moves the arrow into card i and the arrow out of
   * it; every other arrow stays as it was.
   */
  lemma LinksReplace(cards: seq<Card>, i: nat, c: Card, j: nat)
    requires i < |cards| && j < |Links(cards)|
    ensures |Links(cards[i := c])| == |Links(cards)|
    ensures j + 1 != i && j != i ==> Links(cards[i := c])[j] == Links(cards)[j]
    ensures j + 1 == i ==> Links(cards[i := c])[j] == Link(Links(cards)[j].from, Center(c))
    ensures j == i ==> Links(cards[i := c])[j] == Link(Center(c), Links(cards)[j].to)
  {
    var after, before := Links(cards[i := c]), Links(cards);
    assert after[j] == Link(Center(cards[i := c][j]), Center(cards[i := c][j + 1]));
    assert before[j] == Link(Center(cards[j]), Center(cards[j + 1]));
  }

  /** Saving an edit changes no arrow: text plays no part in the geometry. */
  lemma LinksIgnoreText(cards: seq<Card>, i: nat, t: string)
    requires i < |cards|
    ensures Links(SetText(cards, i, t)) == Links(cards)
  {
    var edited := SetText(cards, i, t);
    forall k | 0 <= k < |cards| ensures Center(edited[k]) == Center(cards[k]) {
      if k == i {
        assert edited[k].x == cards[k].x && edited[k].width == cards[k].width;
        assert edited[k].y == cards[k].y && edited[k].height == cards[k].height;
      }
    }
    var r, s := Links(edited), Links(cards);
    forall j | 0 <= j < |r| ensures r[j] == s[j] {
      assert r[j] == Link(Center(edited[j]), Center(edited[j + 1]));
    }
  }
}
