/**
 * The image carousel of a project card: the index of the slide on show, the
 * direction of the last move (which side the next slide enters from), the
 * hover pause that gates autoplay, and the full-size preview opened by a
 * click on the slide.
 */
module ProjectCarousel {
  import opened Wrappers

  /** One slide: an image source and its accessible description. */
  datatype Image = Image(src: string, alt: string)

  /** Autoplay period used when the host gives none, in milliseconds. */
  const DefaultInterval: nat := 5000

  /** The slide after `i` in a list of `n` slides: `(i + 1) % n`. */
  function NextIndex(i: nat, n: nat): (r: nat)
    requires i < n
    ensures r < n
    ensures r == if i == n - 1 then 0 else i + 1
  {
    (i + 1) % n
  }

  /** The slide before `i` in a list of `n` slides: `(i - 1 + n) % n`. */
  function PrevIndex(i: nat, n: nat): (r: nat)
    requires i < n
    ensures r < n
    ensures r == if i == 0 then n - 1 else i - 1
  {
    (i - 1 + n) % n
  }

  /** The direction a dot click records: forward only when the target lies strictly ahead. */
  function DotDirection(target: nat, current: nat): (d: int)
    ensures d == 1 || d == -1
    ensures d == 1 <==> target > current
  {
    if target > current then 1 else -1
  }

  lemma PrevUndoesNext(i: nat, n: nat)
    requires i < n
    ensures PrevIndex(NextIndex(i, n), n) == i
  {
  }

  lemma NextUndoesPrev(i: nat, n: nat)
    requires i < n
    ensures NextIndex(PrevIndex(i, n), n) == i
  {
  }

  /** The slide reached from `i` after `k` moves forward. */
  function NextN(i: nat, n: nat, k: nat): (r: nat)
    requires i < n
    ensures r < n
  {
    if k == 0 then i else NextIndex(NextN(i, n, k - 1), n)
  }

  /** Moving forward without reaching the wrap only adds to the index. */
  lemma {:induction false} NextNNoWrap(i: nat, n: nat, k: nat)
    requires i + k < n
    ensures NextN(i, n, k) == i + k
  {
    if k > 0 {
      NextNNoWrap(i, n, k - 1);
    }
  }

  /** `a + b` moves forward are `a` moves followed by `b` moves. */
  lemma {:induction false} NextNCompose(i: nat, n: nat, a: nat, b: nat)
    requires i < n
    ensures NextN(i, n, a + b) == NextN(NextN(i, n, a), n, b)
  {
    if b > 0 {
      NextNCompose(i, n, a, b - 1);
    }
  }

  /** Autoplay, or the next arrow, pressed once per slide brings the carousel back to where it was. */
  lemma FullCycleReturns(i: nat, n: nat)
    requires i < n
    ensures NextN(i, n, n) == i
  {
    NextNNoWrap(i, n, n - 1 - i);
    assert NextN(i, n, n - i) == 0;
    NextNCompose(i, n, n - i, i);
    NextNNoWrap(0, n, i);
  }

  /** What the component renders. */
  datatype View =
    | Placeholder
    | Slide(image: Image, enterFromRight: bool, showControls: bool)

  class Carousel {
    const images: seq<Image>
    const autoplay: bool
    const interval: nat
    var currentIndex: nat
    /** 1 after a forward move, -1 after a backward one, 0 before any move. */
    var direction: int
    var isPaused: bool
    var modalOpen: bool
    var selectedImage: Option<Image>

    ghost predicate Valid()
      reads this
    {
      (|images| == 0 ==> currentIndex == 0) &&
      (|images| > 0 ==> currentIndex < |images|) &&
      (direction == 1 || direction == 0 || direction == -1)
    }

    constructor (images: seq<Image>, autoplay: bool := true, interval: nat := DefaultInterval)
      ensures Valid()
      ensures this.images == images && this.autoplay == autoplay && this.interval == interval
      ensures currentIndex == 0 && direction == 0 && !isPaused
      ensures !modalOpen && selectedImage == None
    {
      this.images := images;
      this.autoplay := autoplay;
      this.interval := interval;
      currentIndex := 0;
      direction := 0;
      isPaused := false;
      modalOpen := false;
      selectedImage := None;
    }

    /** The condition under which the autoplay timer is armed. */
    predicate AutoplayArmed()
      reads this
    {
      autoplay && !isPaused && |images| > 1
    }

    method Next()
      requires Valid() && |images| > 0
      modifies this`currentIndex, this`direction
      ensures Valid()
      ensures direction == 1
      ensures currentIndex == NextIndex(old(currentIndex), |images|)
    {
      direction := 1;
      currentIndex := (currentIndex + 1) % |images|;
    }

    method Previous()
      requires Valid() && |images| > 0
      modifies this`currentIndex, this`direction
      ensures Valid()
      ensures direction == -1
      ensures currentIndex == PrevIndex(old(currentIndex), |images|)
    {
      direction := -1;
      currentIndex := (currentIndex - 1 + |images|) % |images|;
    }

    method DotClick(index: nat)
      requires Valid() && index < |images|
      modifies this`currentIndex, this`direction
      ensures Valid()
      ensures currentIndex == index
      ensures direction == DotDirection(index, old(currentIndex))
    {
      direction := if index > currentIndex then 1 else -1;
      currentIndex := index;
    }

    /** One firing of the autoplay timer; while the timer is not armed nothing fires. */
    method AutoplayTick()
      requires Valid()
      modifies this`currentIndex, this`direction
      ensures Valid()
      ensures old(AutoplayArmed()) ==>
        direction == 1 && currentIndex == NextIndex(old(currentIndex), |images|)
      ensures !old(AutoplayArmed()) ==>
        direction == old(direction) && currentIndex == old(currentIndex)
    {
      if AutoplayArmed() {
        direction := 1;
        currentIndex := (currentIndex + 1) % |images|;
      }
    }

    method MouseEnter()
      modifies this`isPaused
      ensures isPaused
    {
      isPaused := true;
    }

    method MouseLeave()
      modifies this`isPaused
      ensures !isPaused
    {
      isPaused := false;
    }

    /** A click on the slide on show opens the preview of that image. */
    method ImageClick()
      requires Valid() && |images| > 0
      modifies this`selectedImage, this`modalOpen
      ensures selectedImage == Some(images[currentIndex])
      ensures modalOpen
    {
      selectedImage := Some(images[currentIndex]);
      modalOpen := true;
    }

    method CloseModal()
      modifies this`modalOpen
      ensures !modalOpen
    {
      modalOpen := false;
    }

    /** An empty list shows a placeholder; arrows and dots appear only for two or more images. */
    function Render(): (v: View)
      requires Valid()
      reads this
      ensures v.Placeholder? <==> |images| == 0
      ensures v.Slide? ==> v.image == images[currentIndex]
      ensures v.Slide? ==> (v.showControls <==> |images| > 1)
      ensures v.Slide? ==> (v.enterFromRight <==> direction > 0)
    {
      if |images| == 0 then Placeholder
      else Slide(images[currentIndex], direction > 0, |images| > 1)
    }
  }
}
