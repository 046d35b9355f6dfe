/**
 * The testimonials carousel of src/components/Testimonials.jsx: a current index over the testimonial cards,
 * cyclic next/previous, dot selection, the position each card is drawn at relative to the current one, and
 * the autoplay flag that pauses while the pointer is over the carousel or after manual navigation.
 */
module Testimonials {

  /** The number of testimonials the component shows. */
  const COUNT: int := 3

  /** `(i + 1) % n`. */
  function NextIndex(i: int, n: int): (r: int)
    requires 0 <= i < n
    ensures 0 <= r < n
    ensures r == if i == n - 1 then 0 else i + 1
  {
    (i + 1) % n
  }

  /** `(i - 1 + n) % n`. */
  function PrevIndex(i: int, n: int): (r: int)
    requires 0 <= i < n
    ensures 0 <= r < n
    ensures r == if i == 0 then n - 1 else i - 1
  {
    (i - 1 + n) % n
  }

  datatype Position = Center | Right | Left | Hidden

  /** `getPosition`: where card `index` is drawn when card `current` is in front. */
  function CardPosition(index: int, current: int, n: int): (p: Position)
    ensures p == Center <==> index == current
    ensures 0 <= index < n && 0 <= current < n && n <= 3 ==> p != Hidden
  {
    var diff := index - current;
    if diff == 0 then Center
    else if diff == 1 || diff == -(n - 1) then Right
    else if diff == -1 || diff == n - 1 then Left
    else Hidden
  }

  /** `k` autoplay ticks (or presses of "next") from index `i`. */
  function Advance(i: int, k: nat, n: int): (r: int)
    requires 0 <= i < n
    ensures 0 <= r < n
  {
    if k == 0 then i else NextIndex(Advance(i, k - 1, n), n)
  }

  // ---------------------------------------------------------------------------------------------
  // Properties
  // ---------------------------------------------------------------------------------------------

  /** "Previous" undoes "next" and "next" undoes "previous". */
  lemma NextPrevInverse(i: int, n: int)
    requires 0 <= i < n
    ensures PrevIndex(NextIndex(i, n), n) == i
    ensures NextIndex(PrevIndex(i, n), n) == i
  {
  }

  /** Stepping `a + b` times is stepping `a` times and then `b` times. */
  lemma {:induction false} AdvanceAdd(i: int, a: nat, b: nat, n: int)
    requires 0 <= i < n
    ensures Advance(i, a + b, n) == Advance(Advance(i, a, n), b, n)
    decreases b
  {
    if b > 0 {
      AdvanceAdd(i, a, b - 1, n);
    }
  }

  /** Before the end is reached, `k` steps from `i` land on `i + k`. */
  lemma {:induction false} AdvanceLinear(i: int, k: nat, n: int)
    requires 0 <= i && i + k < n
    ensures Advance(i, k, n) == i + k
  {
    if k > 0 {
      AdvanceLinear(i, k - 1, n);
    }
  }

  /** A full round of `n` steps brings the carousel back to where it started. */
  lemma FullRound(i: int, n: int)
    requires 0 <= i < n
    ensures Advance(i, n as nat, n) == i
  {
    var toLast: nat := n - 1 - i;
    AdvanceAdd(i, toLast, i + 1, n);
    AdvanceLinear(i, toLast, n);
    AdvanceAdd(n - 1, 1, i, n);
    assert Advance(n - 1, 1, n) == 0;
    AdvanceLinear(0, i, n);
  }

  /** With the three testimonials, `k` steps from `i` land on `(i + k) % 3`. */
  lemma {:induction false} AdvanceModCount(i: int, k: nat)
    requires 0 <= i < COUNT
    ensures Advance(i, k, COUNT) == (i + k) % COUNT
  {
    if k > 0 {
      AdvanceModCount(i, k - 1);
      ModNext(i + k - 1);
    }
  }

  /** One step from `x % 3` lands on `(x + 1) % 3`. */
  lemma ModNext(x: nat)
    ensures NextIndex(x % COUNT, COUNT) == (x + 1) % COUNT
  {
    var q, m := x / COUNT, x % COUNT;
    assert x == COUNT * q + m;
    if m == COUNT - 1 {
      assert x + 1 == COUNT * (q + 1);
    } else {
      assert x + 1 == COUNT * q + (m + 1);
    }
  }

  /** Exactly the current card is in the centre. */
  lemma CenterIffCurrent(index: int, current: int, n: int)
    ensures CardPosition(index, current, n) == Center <==> index == current
  {
  }

  /** With three or more cards, the next card is drawn on the right and the previous one on the left. */
  lemma NeighboursFlank(current: int, n: int)
    requires 3 <= n && 0 <= current < n
    ensures CardPosition(NextIndex(current, n), current, n) == Right
    ensures CardPosition(PrevIndex(current, n), current, n) == Left
  {
  }

  /** With the three testimonials, every card is visible: centre, right and left, never hidden. */
  lemma ThreeCardsAllVisible(index: int, current: int)
    requires 0 <= index < COUNT && 0 <= current < COUNT
    ensures CardPosition(index, current, COUNT) != Hidden
    ensures CardPosition((current + 1) % COUNT, current, COUNT) == Right
    ensures CardPosition((current + 2) % COUNT, current, COUNT) == Left
  {
  }

  /** With two cards, the other card is always drawn on the right: the "right" test comes first and also matches -1. */
  lemma TwoCardsNoLeft(index: int, current: int)
    requires 0 <= index < 2 && 0 <= current < 2
    ensures CardPosition(index, current, 2) != Left && CardPosition(index, current, 2) != Hidden
  {
  }

  // ---------------------------------------------------------------------------------------------
  // The component
  // ---------------------------------------------------------------------------------------------

  class Carousel {
    var currentIndex: int
    var isAutoPlaying: bool

    ghost predicate Valid()
      reads this
    {
      0 <= currentIndex < COUNT
    }

    constructor ()
      ensures Valid() && currentIndex == 0 && isAutoPlaying
    {
      currentIndex := 0;
      isAutoPlaying := true;
    }

    /** The position of card `index` in the current state. */
    function PositionOf(index: int): (p: Position)
      reads this
      requires Valid() && 0 <= index < COUNT
      ensures p != Hidden
      ensures p == Center <==> index == currentIndex
    {
      CardPosition(index, currentIndex, COUNT)
    }

    /** The autoplay interval firing: it advances only while autoplay is on. */
    method Tick()
      requires Valid()
      modifies this`currentIndex
      ensures Valid()
      ensures currentIndex == if isAutoPlaying then NextIndex(old(currentIndex), COUNT) else old(currentIndex)
    {
      if isAutoPlaying {
        currentIndex := (currentIndex + 1) % COUNT;
      }
    }

    method HandleNext()
      requires Valid()
      modifies this
      ensures Valid() && !isAutoPlaying
      ensures currentIndex == NextIndex(old(currentIndex), COUNT)
    {
      isAutoPlaying := false;
      currentIndex := (currentIndex + 1) % COUNT;
    }

    method HandlePrev()
      requires Valid()
      modifies this
      ensures Valid() && !isAutoPlaying
      ensures currentIndex == PrevIndex(old(currentIndex), COUNT)
    {
      isAutoPlaying := false;
      currentIndex := (currentIndex - 1 + COUNT) % COUNT;
    }

    /** A dot: one per testimonial, so `index` is always a card's index. */
    method SelectDot(index: int)
      requires 0 <= index < COUNT
      modifies this
      ensures Valid() && !isAutoPlaying && currentIndex == index
    {
      isAutoPlaying := false;
      currentIndex := index;
    }

    method MouseEnter()
      modifies this`isAutoPlaying
      ensures !isAutoPlaying
    {
      isAutoPlaying := false;
    }

    method MouseLeave()
      modifies this`isAutoPlaying
      ensures isAutoPlaying
    {
      isAutoPlaying := true;
    }
  }
}
