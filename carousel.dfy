/** The front-page carousel (frontend/Component/carousel.jsx): an image list
    fetched once, falling back to three built-in images, and an index advanced
    by a timer with wrap-around at the last image or set by a dot. */
module Carousel {
  import opened Wrappers

  const DefaultImages: seq<string> := [
    "https://images.unsplash.com/photo-1497436072909-60f360e1d4b1?ixlib=rb-4.0.3&auto=format&fit=crop&w=2560&q=80",
    "https://images.unsplash.com/photo-1493246507139-91e8fad9978e?ixlib=rb-4.0.3&auto=format&fit=crop&w=2940&q=80",
    "https://images.unsplash.com/photo-1518623489648-a173ef7824f3?ixlib=rb-4.0.3&auto=format&fit=crop&w=2762&q=80"
  ]

  /** The images after the fetch: the answer when it is a non-empty list, the
      defaults when it is empty or the fetch failed (`None`). */
  function Fetched(answer: Option<seq<string>>): (r: seq<string>)
    ensures answer.Some? && answer.value != [] ==> r == answer.value
    ensures answer.None? || answer.value == [] ==> r == DefaultImages
    ensures r != []
  {
    if answer.Some? && answer.value != [] then answer.value else DefaultImages
  }

  /** One timer tick: back to 0 from the last image, otherwise one further. */
  function Advance(i: int, length: nat): (r: int)
    ensures i == length - 1 ==> r == 0
    ensures i != length - 1 ==> r == i + 1
  {
    if i == length - 1 then 0 else i + 1
  }

  function AdvanceTimes(i: int, length: nat, k: nat): int
    decreases k
  {
    if k == 0 then i else AdvanceTimes(Advance(i, length), length, k - 1)
  }

  /** On a non-empty list the index stays a valid position. */
  lemma AdvanceInRange(i: int, length: nat)
    requires 0 <= i < length
    ensures 0 <= Advance(i, length) < length
  {
  }

  lemma {:induction false} AdvanceTimesCount(i: nat, length: nat, k: nat)
    requires i + k < length
    ensures AdvanceTimes(i, length, k) == i + k
    decreases k
  {
    if k > 0 {
      AdvanceTimesCount(i + 1, length, k - 1);
    }
  }

  lemma {:induction false} AdvanceTimesSplit(i: int, length: nat, j: nat, k: nat)
    ensures AdvanceTimes(i, length, j + k) == AdvanceTimes(AdvanceTimes(i, length, j), length, k)
    decreases j
  {
    if j > 0 {
      AdvanceTimesSplit(Advance(i, length), length, j - 1, k);
    }
  }

  /** `length` ticks bring a valid index back to where it started. */
  lemma AdvanceCycles(i: nat, length: nat)
    requires i < length
    ensures AdvanceTimes(i, length, length) == i
  {
    AdvanceTimesCount(i, length, length - 1 - i);
    AdvanceTimesSplit(i, length, length - 1 - i, 1);
    assert AdvanceTimes(length - 1, length, 1) == 0;
    AdvanceTimesSplit(i, length, length - i, i);
    if i > 0 {
      AdvanceTimesCount(0, length, i - 1);
      AdvanceTimesSplit(0, length, i - 1, 1);
      assert AdvanceTimes(i - 1, length, 1) == i;
    }
  }

  /** An index at or past the end (the list shrank under it) is never wrapped: it only grows. */
  lemma {:induction false} StaleIndexNeverWraps(i: int, length: nat, k: nat)
    requires i >= length
    ensures AdvanceTimes(i, length, k) == i + k
    decreases k
  {
    if k > 0 {
      StaleIndexNeverWraps(i + 1, length, k - 1);
    }
  }

  class Slideshow {
    var images: seq<string>
    var currentIndex: int

    constructor ()
      ensures images == DefaultImages && currentIndex == 0
    {
      images := DefaultImages;
      currentIndex := 0;
    }

    /** The fetch completing; the index is left as it is. */
    method Load(answer: Option<seq<string>>)
      modifies this
      ensures images == Fetched(answer) && currentIndex == old(currentIndex)
    {
      if answer.Some? && answer.value != [] {
        images := answer.value;
      } else {
        images := DefaultImages;
      }
    }

    /** The interval callback. */
    method Tick()
      modifies this
      ensures currentIndex == Advance(old(currentIndex), |images|) && images == old(images)
    {
      currentIndex := if currentIndex == |images| - 1 then 0 else currentIndex + 1;
    }

    /** A dot click; a dot is rendered for every image. */
    method ClickDot(idx: nat)
      requires idx < |images|
      modifies this
      ensures currentIndex == idx && images == old(images)
    {
      currentIndex := idx;
    }
  }
}
