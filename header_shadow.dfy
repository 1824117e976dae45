/** The header shadow (script.js, `updateHeaderShadow`): the `.header` element
    carries the `scrolled` class exactly when the page is scrolled at least two
    pixels down. */
module HeaderShadow {

  /** The smallest scroll offset that counts as scrolled. */
  const Threshold := 2

  /** The page is at its top. */
  predicate AtTop(offset: int) { offset < Threshold }

  /** The header's `scrolled` class after the update, given whether it had it. */
  function Update(scrolled: bool, offset: int, headerPresent: bool): bool {
    if headerPresent then !AtTop(offset) else scrolled
  }

  /** With a header, the class is present exactly at offsets of two or more,
      the boundary included; without one nothing changes. */
  lemma UpdateFollowsThreshold(scrolled: bool, offset: int, headerPresent: bool)
    ensures headerPresent ==> (Update(scrolled, offset, headerPresent) <==> offset >= 2)
    ensures !headerPresent ==> Update(scrolled, offset, headerPresent) == scrolled
  {
  }

  /** Running the update twice at one offset is running it once. */
  lemma UpdateIdempotent(scrolled: bool, offset: int, headerPresent: bool)
    ensures Update(Update(scrolled, offset, headerPresent), offset, headerPresent)
         == Update(scrolled, offset, headerPresent)
  {
  }
}
