/** The card carousel (`src/components/ui/apple-cards-carousel.tsx`): the carousel's scroll
    flags, paging and re-centring, each card's open state with its page scroll lock and hover
    counter, and the blur image's loading flags. The browser's smooth scrolling and clamping
    are not modelled: the container's metrics are inputs and the model records the scroll
    commands issued. */
module AppleCardsCarousel {
  import opened Options
  import opened Dom

  /** The container's `scrollLeft`, `scrollWidth` and `clientWidth`. */
  datatype ScrollMetrics = ScrollMetrics(scrollLeft: int, scrollWidth: int, clientWidth: int)

  /** A command issued to the scroll container. */
  datatype ScrollCommand =
    | SetScrollLeft(left: int)   // `scrollLeft = ...`
    | ScrollBy(delta: int)       // `scrollBy({ left: delta, behavior: "smooth" })`
    | ScrollTo(left: int)        // `scrollTo({ left, behavior: "smooth" })`

  /** The paging step of the arrow buttons. */
  const PageStep: int := 300
  /** The viewport width below which the mobile card presets apply. */
  const MobileBreakpoint: int := 768
  const MobileCardWidth: int := 230
  const MobileGap: int := 4
  const DesktopCardWidth: int := 384
  const DesktopGap: int := 8

  /** Further left scrolling is possible. */
  predicate CanScrollLeftAt(m: ScrollMetrics) {
    m.scrollLeft > 0
  }

  /** Further right scrolling is possible. */
  predicate CanScrollRightAt(m: ScrollMetrics) {
    m.scrollLeft < m.scrollWidth - m.clientWidth
  }

  /** At the left end of overflowing content only right scrolling is possible; at the right
      end only left scrolling; when the content fits and sits at 0, neither. */
  lemma ScrollBounds(m: ScrollMetrics)
    ensures m.scrollLeft == 0 && m.scrollWidth > m.clientWidth ==>
              !CanScrollLeftAt(m) && CanScrollRightAt(m)
    ensures m.scrollLeft == m.scrollWidth - m.clientWidth > 0 ==>
              CanScrollLeftAt(m) && !CanScrollRightAt(m)
    ensures m.scrollLeft == 0 && m.scrollWidth <= m.clientWidth ==>
              !CanScrollLeftAt(m) && !CanScrollRightAt(m)
  {
  }

  /** `isMobile()`: the viewport is narrower than 768 pixels. */
  predicate IsMobile(innerWidth: int) {
    innerWidth < MobileBreakpoint
  }

  /** The card width plus the gap for the viewport width. */
  function CardPitch(innerWidth: int): (p: int)
    ensures IsMobile(innerWidth) ==> p == 234
    ensures !IsMobile(innerWidth) ==> p == 392
  {
    if IsMobile(innerWidth) then MobileCardWidth + MobileGap else DesktopCardWidth + DesktopGap
  }

  /** The offset `handleCardClose(index)` scrolls to: `(cardWidth + gap) * (index + 1)`. */
  function CloseOffset(index: int, innerWidth: int): int {
    CardPitch(innerWidth) * (index + 1)
  }

  /** The card index whose close offset is `offset`. */
  function IndexAtOffset(offset: int, innerWidth: int): int {
    offset / CardPitch(innerWidth) - 1
  }

  /** The close offset determines the card: it is a whole multiple of the pitch, positive for
      every card index, and strictly increasing in the index. */
  lemma CloseOffsetDeterminesCard(i: int, j: int, innerWidth: int)
    ensures IndexAtOffset(CloseOffset(i, innerWidth), innerWidth) == i
    ensures CloseOffset(i, innerWidth) % CardPitch(innerWidth) == 0
    ensures i >= 0 ==> CloseOffset(i, innerWidth) >= CardPitch(innerWidth) > 0
    ensures i < j ==> CloseOffset(i, innerWidth) < CloseOffset(j, innerWidth)
  {
    var p := CardPitch(innerWidth);
    assert CloseOffset(i, innerWidth) == p * (i + 1);
    assert (p * (i + 1)) / p == i + 1;
    if i < j {
      assert p * (j + 1) - p * (i + 1) == p * (j - i);
    }
  }

  /** The carousel's state, and the commands it has issued to its scroll container. */
  class Carousel {
    var canScrollLeft: bool
    var canScrollRight: bool
    var currentIndex: int
    var commands: seq<ScrollCommand>

    /** Initial state: cannot scroll left, can scroll right, index 0. */
    constructor ()
      ensures !canScrollLeft && canScrollRight && currentIndex == 0 && commands == []
    {
      canScrollLeft, canScrollRight, currentIndex, commands := false, true, 0, [];
    }

    /** The left arrow button's `disabled` attribute. */
    function LeftDisabled(): (d: bool)
      reads this
      ensures d <==> !canScrollLeft
    {
      !canScrollLeft
    }

    /** The right arrow button's `disabled` attribute. */
    function RightDisabled(): (d: bool)
      reads this
      ensures d <==> !canScrollRight
    {
      !canScrollRight
    }

    /** `checkScrollability`, run on every scroll event: recomputes both flags from the
        container's metrics, or does nothing while the container is not mounted. */
    method CheckScrollability(container: Option<ScrollMetrics>)
      modifies this
      ensures container.Some? ==> canScrollLeft == CanScrollLeftAt(container.value)
                                  && canScrollRight == CanScrollRightAt(container.value)
      ensures container.None? ==> canScrollLeft == old(canScrollLeft) && canScrollRight == old(canScrollRight)
      ensures currentIndex == old(currentIndex) && commands == old(commands)
    {
      if container.Some? {
        var m := container.value;
        canScrollLeft := m.scrollLeft > 0;
        canScrollRight := m.scrollLeft < m.scrollWidth - m.clientWidth;
      }
    }

    /** The mount effect: sets the container's scroll offset to `initialScroll`, then checks
        scrollability against the metrics observed afterwards. */
    method Mount(initialScroll: int, container: Option<ScrollMetrics>)
      modifies this
      ensures container.Some? ==> commands == old(commands) + [SetScrollLeft(initialScroll)]
                                  && canScrollLeft == CanScrollLeftAt(container.value)
                                  && canScrollRight == CanScrollRightAt(container.value)
      ensures container.None? ==> commands == old(commands) && canScrollLeft == old(canScrollLeft)
                                  && canScrollRight == old(canScrollRight)
      ensures currentIndex == old(currentIndex)
    {
      if container.Some? {
        commands := commands + [SetScrollLeft(initialScroll)];
        CheckScrollability(container);
      }
    }

    /** `scrollLeft`: asks the container to scroll 300 pixels left, if it is mounted. */
    method ScrollLeft(mounted: bool)
      modifies this
      ensures commands == old(commands) + (if mounted then [ScrollBy(-300)] else [])
      ensures canScrollLeft == old(canScrollLeft) && canScrollRight == old(canScrollRight)
      ensures currentIndex == old(currentIndex)
    {
      if mounted {
        commands := commands + [ScrollBy(-PageStep)];
      }
    }

    /** `scrollRight`: asks the container to scroll 300 pixels right, if it is mounted. */
    method ScrollRight(mounted: bool)
      modifies this
      ensures commands == old(commands) + (if mounted then [ScrollBy(300)] else [])
      ensures canScrollLeft == old(canScrollLeft) && canScrollRight == old(canScrollRight)
      ensures currentIndex == old(currentIndex)
    {
      if mounted {
        commands := commands + [ScrollBy(PageStep)];
      }
    }

    /** `handleCardClose(index)`: scrolls to the closed card and records it as current; does
        nothing while the container is not mounted. */
    method HandleCardClose(index: int, mounted: bool, innerWidth: int)
      modifies this
      ensures mounted ==> commands == old(commands) + [ScrollTo(CloseOffset(index, innerWidth))]
                          && currentIndex == index
      ensures !mounted ==> commands == old(commands) && currentIndex == old(currentIndex)
      ensures canScrollLeft == old(canScrollLeft) && canScrollRight == old(canScrollRight)
    {
      if mounted {
        var cardWidth := if IsMobile(innerWidth) then MobileCardWidth else DesktopCardWidth;
        var gap := if IsMobile(innerWidth) then MobileGap else DesktopGap;
        commands := commands + [ScrollTo((cardWidth + gap) * (index + 1))];
        currentIndex := index;
      }
    }
  }

  /** The environment a card's close handler runs in: whether the carousel's container is
      mounted, and the viewport width. */
  datatype Environment = Environment(containerMounted: bool, innerWidth: int)

  const EscapeKey: string := "Escape"

  /** One carousel card. `carousel` is the enclosing carousel, or null when the card is rendered
      outside one and reads the default context, whose `onCardClose` does nothing. */
  class Card {
    const index: int
    const body: Body
    const carousel: Carousel?
    var open: bool
    var isHovered: bool
    var animationTrigger: nat

    /** Mounting: closed, not hovered, counter 0; the mount effect writes `overflow = 'auto'`. */
    constructor (index: int, body: Body, carousel: Carousel?)
      modifies body
      ensures this.index == index && this.body == body && this.carousel == carousel
      ensures !open && !isHovered && animationTrigger == 0
      ensures body.overflow == Auto && LockHeld()
    {
      this.index, this.body, this.carousel := index, body, carousel;
      open, isHovered, animationTrigger := false, false, 0;
      body.overflow := Auto;
    }

    /** The page body holds the lock that matches the card's state: hidden while open, auto
        while closed. Every handler preserves it. */
    predicate LockHeld()
      reads this, body
    {
      body.overflow == LockFor(open)
    }

    /** `setOpen(v)`; the effect depending on `open` re-runs only when the value changes, and
        then writes the page lock for the new value. */
    method SetOpen(v: bool)
      modifies this, body
      ensures open == v
      ensures old(open) != v ==> body.overflow == LockFor(v)
      ensures old(open) == v ==> body.overflow == old(body.overflow)
      ensures old(LockHeld()) ==> LockHeld()
      ensures isHovered == old(isHovered) && animationTrigger == old(animationTrigger)
    {
      if open != v {
        open := v;
        body.overflow := if v then Hidden else Auto;
      }
    }

    /** `handleOpen`. */
    method HandleOpen()
      modifies this, body
      ensures open
      ensures !old(open) ==> body.overflow == Hidden
      ensures old(open) ==> body.overflow == old(body.overflow)
      ensures old(LockHeld()) ==> LockHeld()
      ensures isHovered == old(isHovered) && animationTrigger == old(animationTrigger)
    {
      SetOpen(true);
    }

    /** `handleClose`: closes the card and always reports its index to the carousel, even when
        the card was already closed. */
    method HandleClose(env: Environment)
      modifies this, body, carousel
      ensures !open
      ensures old(open) ==> body.overflow == Auto
      ensures !old(open) ==> body.overflow == old(body.overflow)
      ensures old(LockHeld()) ==> LockHeld()
      ensures isHovered == old(isHovered) && animationTrigger == old(animationTrigger)
      ensures carousel != null && env.containerMounted ==>
                carousel.currentIndex == index
                && carousel.commands == old(carousel.commands) + [ScrollTo(CloseOffset(index, env.innerWidth))]
      ensures carousel != null && !env.containerMounted ==>
                carousel.currentIndex == old(carousel.currentIndex) && carousel.commands == old(carousel.commands)
      ensures carousel != null ==> carousel.canScrollLeft == old(carousel.canScrollLeft)
                                   && carousel.canScrollRight == old(carousel.canScrollRight)
    {
      SetOpen(false);
      if carousel != null {
        carousel.HandleCardClose(index, env.containerMounted, env.innerWidth);
      }
    }

    /** The window `keydown` listener, installed whether or not the card is open: Escape
        closes the card and notifies the carousel, exactly as `handleClose` does, even when
        the card was already closed; other keys change nothing. */
    method KeyDown(key: string, env: Environment)
      modifies this, body, carousel
      ensures key == "Escape" ==> !open
      ensures key == "Escape" && old(open) ==> body.overflow == Auto
      ensures key == "Escape" && !old(open) ==> body.overflow == old(body.overflow)
      ensures key == "Escape" && carousel != null && env.containerMounted ==>
                carousel.currentIndex == index
                && carousel.commands == old(carousel.commands) + [ScrollTo(CloseOffset(index, env.innerWidth))]
      ensures key == "Escape" && carousel != null && !env.containerMounted ==>
                carousel.currentIndex == old(carousel.currentIndex) && carousel.commands == old(carousel.commands)
      ensures key != "Escape" ==> open == old(open) && body.overflow == old(body.overflow)
      ensures key != "Escape" && carousel != null ==>
                carousel.currentIndex == old(carousel.currentIndex) && carousel.commands == old(carousel.commands)
      ensures old(LockHeld()) ==> LockHeld()
      ensures isHovered == old(isHovered) && animationTrigger == old(animationTrigger)
      ensures carousel != null ==> carousel.canScrollLeft == old(carousel.canScrollLeft)
                                   && carousel.canScrollRight == old(carousel.canScrollRight)
    {
      if key == EscapeKey {
        HandleClose(env);
      }
    }

    /** A pointer event outside the card's expanded panel. The panel element that the
        outside-click hook watches is rendered only while the card is open, so on an open card
        the event runs `handleClose` (closing it and notifying the carousel) and on a closed
        card it changes nothing. */
    method OutsideClick(env: Environment)
      modifies this, body, carousel
      ensures old(open) ==> !open && body.overflow == Auto
      ensures old(open) && carousel != null && env.containerMounted ==>
                carousel.currentIndex == index
                && carousel.commands == old(carousel.commands) + [ScrollTo(CloseOffset(index, env.innerWidth))]
      ensures !old(open) ==> open == old(open) && body.overflow == old(body.overflow)
      ensures (!old(open) || !env.containerMounted) && carousel != null ==>
                carousel.currentIndex == old(carousel.currentIndex) && carousel.commands == old(carousel.commands)
      ensures old(LockHeld()) ==> LockHeld()
      ensures isHovered == old(isHovered) && animationTrigger == old(animationTrigger)
      ensures carousel != null ==> carousel.canScrollLeft == old(carousel.canScrollLeft)
                                   && carousel.canScrollRight == old(carousel.canScrollRight)
    {
      if open {
        HandleClose(env);
      }
    }

    /** `onMouseEnter`: marks the card hovered and bumps the title animation counter by one. */
    method MouseEnter()
      modifies this
      ensures isHovered && animationTrigger == old(animationTrigger) + 1
      ensures open == old(open)
    {
      isHovered := true;
      animationTrigger := animationTrigger + 1;
    }

    /** `onMouseLeave`. */
    method MouseLeave()
      modifies this
      ensures !isHovered && animationTrigger == old(animationTrigger)
      ensures open == old(open)
    {
      isHovered := false;
    }
  }

  /** Transparent (`opacity-0`) exactly while loading without an error. */
  predicate Transparent(isLoading: bool, hasError: bool) {
    isLoading && !hasError
  }

  const DefaultAlt: string := "Background of a beautiful view"

  /** The `alt` text: the given one when non-empty, otherwise a fixed description. */
  function AltText(alt: Option<string>): (r: string)
    ensures r != ""
    ensures Truthy(alt) ==> r == alt.value
  {
    if Truthy(alt) then alt.value else DefaultAlt
  }

  /** An image that fades in once loaded. */
  class BlurImage {
    var isLoading: bool
    var hasError: bool

    /** A failed image is never still loading. */
    ghost predicate Valid()
      reads this
    {
      hasError ==> !isLoading
    }

    constructor ()
      ensures Valid() && isLoading && !hasError && Transparent(isLoading, hasError)
    {
      isLoading, hasError := true, false;
    }

    /** `onLoad`: loading ends; an earlier error is kept. */
    method OnLoad()
      requires Valid()
      modifies this
      ensures Valid() && !isLoading && hasError == old(hasError)
      ensures !Transparent(isLoading, hasError)
    {
      isLoading := false;
    }

    /** `onError`: records the error and ends loading. */
    method OnError()
      requires Valid()
      modifies this
      ensures Valid() && !isLoading && hasError
      ensures !Transparent(isLoading, hasError)
    {
      hasError := true;
      isLoading := false;
    }
  }
}
