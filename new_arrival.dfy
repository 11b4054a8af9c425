/** The new-arrival slider (frontend/Product/Newarrival.jsx): a window of four
    products over a fixed list, stepped with wrap-around by the next and previous
    buttons and set directly by the dots. */
module NewArrival {

  const ItemsPerView: nat := 4
  /** The number of products in the component's fixed list. */
  const ProductCount: nat := 5

  /** `Math.max(0, length - itemsPerView)`: the first index of the last full window. */
  function MaxIndex(length: nat): (m: nat)
    ensures length >= ItemsPerView ==> m + ItemsPerView == length
    ensures length <= ItemsPerView ==> m == 0
  {
    if length > ItemsPerView then length - ItemsPerView else 0
  }

  /** With the five products there are two window positions. */
  lemma FiveProductsTwoPositions()
    ensures MaxIndex(ProductCount) == 1 && DotCount(MaxIndex(ProductCount)) == 2
  {
  }

  function Next(i: int, maxIndex: nat): (r: int)
    ensures i >= maxIndex ==> r == 0
    ensures i < maxIndex ==> r == i + 1
  {
    if i >= maxIndex then 0 else i + 1
  }

  function Prev(i: int, maxIndex: nat): (r: int)
    ensures i <= 0 ==> r == maxIndex
    ensures i > 0 ==> r == i - 1
  {
    if i <= 0 then maxIndex else i - 1
  }

  predicate InWindow(i: int, maxIndex: nat) {
    0 <= i <= maxIndex
  }

  /** Both buttons keep the index a window position; an index past the last one
      returns to 0 on next, a negative one to the last on previous. */
  lemma StepsStayInWindow(i: int, maxIndex: nat)
    ensures i >= -1 ==> InWindow(Next(i, maxIndex), maxIndex)
    ensures i <= maxIndex + 1 ==> InWindow(Prev(i, maxIndex), maxIndex)
  {
  }

  /** On the window positions next and previous undo each other. */
  lemma NextPrevInverse(i: int, maxIndex: nat)
    requires InWindow(i, maxIndex)
    ensures Prev(Next(i, maxIndex), maxIndex) == i
    ensures Next(Prev(i, maxIndex), maxIndex) == i
  {
  }

  /** `Array.from({ length: maxIndex + 1 })`: one dot per window position. */
  function DotCount(maxIndex: nat): (n: nat)
    ensures forall k :: 0 <= k < n <==> InWindow(k, maxIndex)
  {
    maxIndex + 1
  }

  /** `k` presses of next. */
  function NextTimes(i: int, maxIndex: nat, k: nat): int
    decreases k
  {
    if k == 0 then i else NextTimes(Next(i, maxIndex), maxIndex, k - 1)
  }

  /** Pressing next once per position from position `i` comes back to `i`. */
  lemma {:induction false} NextCycles(i: nat, maxIndex: nat)
    requires i <= maxIndex
    ensures NextTimes(i, maxIndex, maxIndex + 1) == i
  {
    NextTimesCount(i, maxIndex, maxIndex - i);
    assert NextTimes(i, maxIndex, maxIndex - i) == maxIndex;
    NextTimesSplit(i, maxIndex, maxIndex - i, 1);
    assert NextTimes(maxIndex, maxIndex, 1) == 0;
    NextTimesSplit(i, maxIndex, maxIndex - i + 1, i);
    NextTimesCount(0, maxIndex, i);
  }

  lemma {:induction false} NextTimesCount(i: nat, maxIndex: nat, k: nat)
    requires i + k <= maxIndex
    ensures NextTimes(i, maxIndex, k) == i + k
    decreases k
  {
    if k > 0 {
      NextTimesCount(i + 1, maxIndex, k - 1);
    }
  }

  lemma {:induction false} NextTimesSplit(i: int, maxIndex: nat, j: nat, k: nat)
    ensures NextTimes(i, maxIndex, j + k) == NextTimes(NextTimes(i, maxIndex, j), maxIndex, k)
    decreases j
  {
    if j > 0 {
      NextTimesSplit(Next(i, maxIndex), maxIndex, j - 1, k);
    }
  }

  class Slider {
    var currentIndex: int
    const maxIndex: nat

    ghost predicate Valid()
      reads this
    {
      InWindow(currentIndex, maxIndex)
    }

    constructor (productCount: nat)
      ensures Valid() && currentIndex == 0 && maxIndex == MaxIndex(productCount)
    {
      currentIndex := 0;
      maxIndex := MaxIndex(productCount);
    }

    method NextSlide()
      requires Valid()
      modifies this
      ensures Valid() && currentIndex == Next(old(currentIndex), maxIndex)
    {
      currentIndex := if currentIndex >= maxIndex then 0 else currentIndex + 1;
    }

    method PrevSlide()
      requires Valid()
      modifies this
      ensures Valid() && currentIndex == Prev(old(currentIndex), maxIndex)
    {
      currentIndex := if currentIndex <= 0 then maxIndex else currentIndex - 1;
    }

    /** A dot click; the rendered dots are the positions below `DotCount(maxIndex)`. */
    method ClickDot(k: nat)
      requires k < DotCount(maxIndex)
      modifies this
      ensures Valid() && currentIndex == k
    {
      currentIndex := k;
    }
  }
}
