/** The header-image carousel of the profile view: a cyclic index over the
    profile's header images, the navigation buttons, and the role label. */
module Carousel {
  import opened Common

  /** The index after `handleNextImage`. */
  function NextIndex(i: int, len: int): int
  {
    if i == len - 1 then 0 else i + 1
  }

  /** The index after `handlePrevImage`. */
  function PrevIndex(i: int, len: int): int
  {
    if i == 0 then len - 1 else i - 1
  }

  lemma ModBelowLength(x: int, len: int)
    requires 0 <= x < len
    ensures x % len == x
  {
  }

  lemma ModPlusLength(x: int, len: int)
    requires 0 <= x < len
    ensures (x + len) % len == x
  {
  }

  /** Both steps keep an index inside the image list, and `next` moves one
      place forward modulo the length, `prev` one place back. */
  lemma StepsStayInRange(i: int, len: int)
    requires 0 <= i < len
    ensures 0 <= NextIndex(i, len) < len && NextIndex(i, len) == (i + 1) % len
    ensures 0 <= PrevIndex(i, len) < len && PrevIndex(i, len) == (i - 1 + len) % len
  {
    if i == len - 1 {
      ModPlusLength(0, len);
    } else {
      ModBelowLength(i + 1, len);
    }
    if i == 0 {
      ModBelowLength(len - 1, len);
    } else {
      ModPlusLength(i - 1, len);
    }
  }

  /** `prev` undoes `next` and `next` undoes `prev`. */
  lemma StepsAreInverse(i: int, len: int)
    requires 0 <= i < len
    ensures PrevIndex(NextIndex(i, len), len) == i
    ensures NextIndex(PrevIndex(i, len), len) == i
  {
  }

  /** `k` presses of the next button. */
  function Advance(i: int, len: int, k: nat): int
  {
    if k == 0 then i else NextIndex(Advance(i, len, k - 1), len)
  }

  /** Up to one full round, `k` presses of next move `k` places forward,
      wrapping past the last image once. */
  lemma {:induction false} AdvanceWithinCycle(i: int, len: int, k: nat)
    requires 0 <= i < len && k <= len
    ensures Advance(i, len, k) == if i + k < len then i + k else i + k - len
  {
    if k > 0 {
      AdvanceWithinCycle(i, len, k - 1);
    }
  }

  /** `len` presses of next come back to the start. */
  lemma FullCycle(i: int, len: int)
    requires 0 <= i < len
    ensures Advance(i, len, len) == i
  {
    AdvanceWithinCycle(i, len, len);
  }

  /** `profile.headerImages?.[0]`: the header shows an image. */
  predicate ShowsHeader(images: Option<seq<string>>)
  {
    images.Some? && |images.value| > 0 && images.value[0] != ""
  }

  /** The navigation buttons are drawn inside the header when there are at
      least two images. */
  function ShowsNavButtons(images: Option<seq<string>>): (shown: bool)
    ensures shown <==> ShowsHeader(images) && |images.value| > 1
  {
    ShowsHeader(images) && |images.value| > 1
  }

  function RoleLabel(role: Option<Value>): (text: string)
    ensures text == "Artist" <==> role == Some(Str("artist"))
    ensures text == "Venue" <==> role != Some(Str("artist"))
  {
    if role == Some(Str("artist")) then "Artist" else "Venue"
  }

  /** The viewed profile's header carousel. */
  class ViewProfileScreen {
    const headerImages: Option<seq<string>>
    var currentHeaderIndex: int

    constructor (headerImages: Option<seq<string>>)
      ensures this.headerImages == headerImages && currentHeaderIndex == 0
    {
      this.headerImages := headerImages;
      currentHeaderIndex := 0;
    }

    /** The index is a valid position whenever there are images. */
    ghost predicate Valid()
      reads this
    {
      headerImages.Some? && |headerImages.value| > 0 ==> 0 <= currentHeaderIndex < |headerImages.value|
    }

    method HandleNextImage()
      modifies this
      requires Valid()
      ensures Valid()
      ensures currentHeaderIndex ==
        if headerImages.Some? && |headerImages.value| > 0
        then (old(currentHeaderIndex) + 1) % |headerImages.value|
        else old(currentHeaderIndex)
    {
      if headerImages.Some? && |headerImages.value| > 0 {
        StepsStayInRange(currentHeaderIndex, |headerImages.value|);
        currentHeaderIndex := NextIndex(currentHeaderIndex, |headerImages.value|);
      }
    }

    method HandlePrevImage()
      modifies this
      requires Valid()
      ensures Valid()
      ensures currentHeaderIndex ==
        if headerImages.Some? && |headerImages.value| > 0
        then (old(currentHeaderIndex) - 1 + |headerImages.value|) % |headerImages.value|
        else old(currentHeaderIndex)
    {
      if headerImages.Some? && |headerImages.value| > 0 {
        StepsStayInRange(currentHeaderIndex, |headerImages.value|);
        currentHeaderIndex := PrevIndex(currentHeaderIndex, |headerImages.value|);
      }
    }
  }
}
