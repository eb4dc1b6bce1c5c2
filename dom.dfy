/** The one piece of page state the interactive components share: the page body's
    `style.overflow`, which scroll-locking components write. */
module Dom {

  /** Values written to `document.body.style.overflow`; `Unset` is the empty initial value. */
  datatype Overflow = Unset | Hidden | Auto

  /** `document.body`. */
  class Body {
    var overflow: Overflow

    constructor ()
      ensures overflow == Unset
    {
      overflow := Unset;
    }
  }

  /** The overflow that locks page scrolling while `open` and releases it otherwise. */
  function LockFor(open: bool): (o: Overflow)
    ensures o == Hidden <==> open
    ensures o == Auto <==> !open
  {
    if open then Hidden else Auto
  }
}
