// The flashcard page: the cards it is given are normalised to numbered
// cards with defaults, and a deck keeps the current card's index and which
// cards are turned over.  Rendering and loading the cards are left out; the
// loaded list arrives as a parameter.

module Flashcards {
  import opened Wrappers
  import opened Js

  datatype Card = Card(id: nat, front: JsValue, back: JsValue, category: JsValue, difficulty: JsValue)

  /** Shown when the index is not that of a card. */
  const Placeholder := Card(0, Str(""), Str(""), Str("General"), Str("easy"))

  /** `a || b || c || fallback` */
  function FirstOf(a: JsValue, b: JsValue, c: JsValue, fallback: string): (r: JsValue)
    requires |fallback| > 0
    ensures Truthy(r)
    ensures Truthy(a) ==> r == a
    ensures !Truthy(a) && Truthy(b) ==> r == b
    ensures !Truthy(a) && !Truthy(b) && Truthy(c) ==> r == c
    ensures !Truthy(a) && !Truthy(b) && !Truthy(c) ==> r == Str(fallback)
  {
    Or(Or(Or(a, b), c), Str(fallback))
  }

  /** One raw card as the page shows it, numbered `id`. */
  function NormalizeCard(c: JsValue, id: nat): (r: Card)
    ensures r.id == id
    ensures Truthy(r.front) && Truthy(r.back) && Truthy(r.category) && Truthy(r.difficulty)
    ensures Truthy(Prop(c, "category")) ==> r.category == Prop(c, "category")
    ensures Truthy(Prop(c, "difficulty")) ==> r.difficulty == Prop(c, "difficulty")
  {
    Card(id,
      FirstOf(Prop(c, "term"), Prop(c, "front"), Prop(c, "question"), "Term"),
      FirstOf(Prop(c, "definition"), Prop(c, "back"), Prop(c, "answer"), "Definition"),
      Or(Prop(c, "category"), Str("General")),
      Or(Prop(c, "difficulty"), Str("easy")))
  }

  /**
   * The cards to show: the ones passed in by navigation when truthy,
   * otherwise the loaded ones.  `None` is a TypeError: a truthy value that
   * is not an array, or a null or undefined card.
   */
  function Normalize(passed: JsValue, loaded: seq<JsValue>): (r: Option<seq<Card>>)
    ensures r.None? <==>
      || (Truthy(passed) && !passed.Arr?)
      || (exists i :: 0 <= i < |RawCards(passed, loaded)| && Nullish(RawCards(passed, loaded)[i]))
    ensures r.Some? ==> |r.value| == |RawCards(passed, loaded)|
  {
    var raw := if Truthy(passed) then (if passed.Arr? then Some(passed.items) else None) else Some(loaded);
    if raw.None? then None
    else
      assert raw.value == RawCards(passed, loaded);
      if exists i :: 0 <= i < |raw.value| && Nullish(raw.value[i]) then None
      else Some(seq(|raw.value|, i requires 0 <= i < |raw.value| => NormalizeCard(raw.value[i], i + 1)))
  }

  /** The raw list normalisation reads: the passed cards when truthy, the loaded ones otherwise. */
  function RawCards(passed: JsValue, loaded: seq<JsValue>): seq<JsValue>
  {
    if Truthy(passed) && passed.Arr? then passed.items else loaded
  }

  /**
   * Cards are numbered 1..n in input order, and every card has a truthy
   * front and back, taken from the first truthy of its alternative fields.
   */
  lemma NormalizedCards(passed: JsValue, loaded: seq<JsValue>, i: nat)
    requires Normalize(passed, loaded).Some?
    requires i < |RawCards(passed, loaded)|
    ensures |Normalize(passed, loaded).value| == |RawCards(passed, loaded)|
    ensures Normalize(passed, loaded).value[i] == NormalizeCard(RawCards(passed, loaded)[i], i + 1)
    ensures Normalize(passed, loaded).value[i].id == i + 1
    ensures Truthy(Normalize(passed, loaded).value[i].front) && Truthy(Normalize(passed, loaded).value[i].back)
  {
  }

  /** The front is the first truthy of term, front and question, and "Term" when none is. */
  lemma CardFront(c: JsValue, id: nat)
    ensures Truthy(Prop(c, "term")) ==> NormalizeCard(c, id).front == Prop(c, "term")
    ensures !Truthy(Prop(c, "term")) && Truthy(Prop(c, "front")) ==> NormalizeCard(c, id).front == Prop(c, "front")
    ensures !Truthy(Prop(c, "term")) && !Truthy(Prop(c, "front")) && !Truthy(Prop(c, "question"))
      ==> NormalizeCard(c, id).front == Str("Term")
    ensures !Truthy(Prop(c, "definition")) && !Truthy(Prop(c, "back")) && !Truthy(Prop(c, "answer"))
      ==> NormalizeCard(c, id).back == Str("Definition")
  {
  }

  /** A null card in the list, or a truthy non-array, makes normalisation throw. */
  lemma NormalizeThrows(passed: JsValue, loaded: seq<JsValue>)
    requires Truthy(passed) && !passed.Arr?
    ensures Normalize(passed, loaded) == None
  {
  }

  // ---------------------------------------------------------------------------
  // Navigation
  // ---------------------------------------------------------------------------

  function NextIndex(i: nat, n: nat): (r: nat)
    requires n > 0
    ensures r < n
  {
    (i + 1) % n
  }

  /** `(i - 1 + n) % n`; the operand is never negative, so JavaScript's `%` agrees. */
  function PrevIndex(i: nat, n: nat): (r: nat)
    requires n > 0
    ensures r < n
  {
    (i - 1 + n) % n
  }

  /** From a card's index, next then previous, or previous then next, comes back to it. */
  lemma NavigationInverse(i: nat, n: nat)
    requires i < n
    ensures PrevIndex(NextIndex(i, n), n) == i
    ensures NextIndex(PrevIndex(i, n), n) == i
  {
    ModBelowTwice(i + 1, n);
    ModBelowTwice(i - 1 + n, n);
    var j := NextIndex(i, n);
    ModBelowTwice(j - 1 + n, n);
    var k := PrevIndex(i, n);
    ModBelowTwice(k + 1, n);
  }

  /** `x % n` for `0 <= x < 2n`. */
  lemma ModBelowTwice(x: int, n: int)
    requires n > 0 && 0 <= x < 2 * n
    ensures x % n == if x < n then x else x - n
  {
    if x >= n {
      assert x == 1 * n + (x - n);
    }
  }

  /** Whether a card is turned over: `flipped[id] || false`. */
  function IsFlippedIn(flipped: map<nat, bool>, id: nat): bool
  {
    id in flipped && flipped[id]
  }

  /** Turning card `id` over: its state toggles and no other card's changes. */
  function Toggled(flipped: map<nat, bool>, id: nat): (r: map<nat, bool>)
    ensures IsFlippedIn(r, id) == !IsFlippedIn(flipped, id)
    ensures forall k :: k != id ==> IsFlippedIn(r, k) == IsFlippedIn(flipped, k)
  {
    flipped[id := !IsFlippedIn(flipped, id)]
  }

  class Deck {
    var cards: seq<Card>
    var currentIndex: nat
    var flipped: map<nat, bool>

    constructor(cards: seq<Card>)
      ensures this.cards == cards && currentIndex == 0 && flipped == map[]
    {
      this.cards := cards;
      currentIndex := 0;
      flipped := map[];
    }

    /** The card shown: the one at the index, or the placeholder when there is none there. */
    function CurrentCard(): (c: Card)
      reads this
      ensures currentIndex < |cards| ==> c == cards[currentIndex]
      ensures currentIndex >= |cards| ==> c == Placeholder
    {
      if currentIndex < |cards| then cards[currentIndex] else Placeholder
    }

    function IsFlipped(): bool
      reads this
    {
      IsFlippedIn(flipped, CurrentCard().id)
    }

    /** New cards arrive; the index and flip state are kept. */
    method SetCards(cards: seq<Card>)
      modifies this
      ensures this.cards == cards
      ensures currentIndex == old(currentIndex) && flipped == old(flipped)
    {
      this.cards := cards;
    }

    method FlipCard(id: nat)
      modifies this
      ensures flipped == Toggled(old(flipped), id)
      ensures cards == old(cards) && currentIndex == old(currentIndex)
    {
      flipped := flipped[id := !IsFlippedIn(flipped, id)];
    }

    /** The "next" button: ignored on an empty deck; otherwise moves on and turns every card face up. */
    method Next()
      modifies this
      ensures cards == old(cards)
      ensures |cards| == 0 ==> currentIndex == old(currentIndex) && flipped == old(flipped)
      ensures |cards| > 0 ==> currentIndex == NextIndex(old(currentIndex), |cards|) && flipped == map[]
    {
      if |cards| > 0 {
        currentIndex := (currentIndex + 1) % |cards|;
        flipped := map[];
      }
    }

    /** The "previous" button, likewise. */
    method Prev()
      modifies this
      ensures cards == old(cards)
      ensures |cards| == 0 ==> currentIndex == old(currentIndex) && flipped == old(flipped)
      ensures |cards| > 0 ==> currentIndex == PrevIndex(old(currentIndex), |cards|) && flipped == map[]
    {
      if |cards| > 0 {
        currentIndex := (currentIndex - 1 + |cards|) % |cards|;
        flipped := map[];
      }
    }

    /** A dot button: jumps to that card and turns every card face up. */
    method Jump(index: nat)
      requires index < |cards|
      modifies this
      ensures cards == old(cards) && currentIndex == index && flipped == map[]
    {
      currentIndex := index;
      flipped := map[];
    }
  }
}
