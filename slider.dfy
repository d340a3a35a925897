/** The kiosk carousel that rotates between the price pages: a
    wrap-around page index, autoplay every 2 s, and swiping by touch or
    mouse with a 50 px threshold. */
module Carousel {

  const MinSwipeDistance: real := 50.0

  /** The carousel's six state variables. */
  datatype SliderState = SliderState(
    currentIndex: nat,
    isPlaying: bool,
    startPosition: real,
    currentPosition: real,
    isDragging: bool,
    dragOffset: real)

  const Initial := SliderState(0, true, 0.0, 0.0, false, 0.0)

  ghost predicate InRange(s: SliderState, n: nat)
  {
    s.currentIndex < n
  }

  function Abs(x: real): real
  {
    if x < 0.0 then -x else x
  }

  /** `handleNext`: one page on, wrapping from the last page to the first. */
  function NextIndex(i: nat, n: nat): (r: nat)
    requires n > 0
    ensures r < n
    ensures i + 1 < n ==> r == i + 1
    ensures i + 1 == n ==> r == 0
  {
    (i + 1) % n
  }

  /** `handlePrevious`: one page back, wrapping from the first to the last. */
  function PreviousIndex(i: nat, n: nat): (r: nat)
    requires i < n
    ensures r < n
    ensures i == 0 ==> r == n - 1
    ensures i > 0 ==> r == i - 1
  {
    if i == 0 then n - 1 else i - 1
  }

  /** Next undoes previous and previous undoes next. */
  lemma NextPreviousInverse(i: nat, n: nat)
    requires i < n
    ensures NextIndex(PreviousIndex(i, n), n) == i
    ensures PreviousIndex(NextIndex(i, n), n) == i
  {
  }

  /** The index after `k` autoplay steps. */
  function Advance(i: nat, k: nat, n: nat): (r: nat)
    requires n > 0
    ensures r < n || (k == 0 && r == i)
    decreases k
  {
    if k == 0 then i else NextIndex(Advance(i, k - 1, n), n)
  }

  /** Below the last page, `k` steps move the index by exactly `k`. */
  lemma {:induction false} AdvanceCounts(i: nat, k: nat, n: nat)
    requires i + k < n
    ensures Advance(i, k, n) == i + k
    decreases k
  {
    if k > 0 {
      AdvanceCounts(i, k - 1, n);
    }
  }

  /** Steps compose: `a + b` steps are `a` steps, then `b` more. */
  lemma {:induction false} AdvanceCompose(i: nat, a: nat, b: nat, n: nat)
    requires n > 0
    ensures Advance(i, a + b, n) == Advance(Advance(i, a, n), b, n)
    decreases b
  {
    if b > 0 {
      AdvanceCompose(i, a, b - 1, n);
    }
  }

  /** `n` steps bring every page back to itself. */
  lemma FullRotation(i: nat, n: nat)
    requires i < n
    ensures Advance(i, n, n) == i
  {
    AdvanceCounts(i, n - 1 - i, n);
    assert Advance(i, n - i, n) == 0;
    AdvanceCompose(i, n - i, i, n);
    AdvanceCounts(0, i, n);
  }

  /** Autoplay is periodic with period `n`. */
  lemma AdvancePeriodic(i: nat, k: nat, n: nat)
    requires i < n
    ensures Advance(i, k + n, n) == Advance(i, k, n)
  {
    AdvanceCompose(i, k, n, n);
    FullRotation(Advance(i, k, n), n);
  }

  // ------------------------------------------------------------ transitions

  /** The autoplay interval exists only while playing. */
  function AutoplayTick(s: SliderState, n: nat): SliderState
    requires n > 0
  {
    if s.isPlaying then s.(currentIndex := NextIndex(s.currentIndex, n)) else s
  }

  /** `handleTouchStart` and `handleMouseDown`. */
  function DragStart(s: SliderState, x: real): SliderState
  {
    s.(isPlaying := false, isDragging := true, startPosition := x, dragOffset := 0.0)
  }

  /** `handleTouchMove` and `handleMouseMove`. */
  function DragMove(s: SliderState, x: real): SliderState
  {
    if !s.isDragging then s else s.(currentPosition := x, dragOffset := s.startPosition - x)
  }

  /** `handleDragEnd` (touch end and the window's mouseup). */
  function DragEnd(s: SliderState, n: nat): SliderState
    requires InRange(s, n)
  {
    if !s.isDragging then s
    else
      var released := s.(isDragging := false);
      if s.startPosition == 0.0 || s.currentPosition == 0.0 then released.(dragOffset := 0.0)
      else
        var distance := s.startPosition - s.currentPosition;
        if Abs(distance) < MinSwipeDistance then released.(dragOffset := 0.0)
        else
          var index := if distance > 0.0 then NextIndex(s.currentIndex, n) else PreviousIndex(s.currentIndex, n);
          released.(currentIndex := index, startPosition := 0.0, currentPosition := 0.0, dragOffset := 0.0)
  }

  /** The play/pause button. */
  function TogglePlay(s: SliderState): SliderState
  {
    s.(isPlaying := !s.isPlaying)
  }

  /** A dot: go to that page and pause. */
  function DotClick(s: SliderState, k: nat): SliderState
  {
    s.(currentIndex := k, isPlaying := false)
  }

  // ------------------------------------------------------------------ lemmas

  /** Autoplay advances the index only while playing. */
  lemma AutoplayAdvancesOnlyWhilePlaying(s: SliderState, n: nat)
    requires InRange(s, n)
    ensures var s' := AutoplayTick(s, n);
            InRange(s', n) &&
            (s.isPlaying ==> s' == s.(currentIndex := NextIndex(s.currentIndex, n))) &&
            (!s.isPlaying ==> s' == s)
  {
  }

  /** A press pauses autoplay, starts a drag at `x` and zeroes the
      offset; a move is ignored unless dragging, and otherwise records the
      position and the offset from the start. */
  lemma PressAndMove(s: SliderState, x: real, y: real)
    ensures var p := DragStart(s, x);
            !p.isPlaying && p.isDragging && p.startPosition == x && p.dragOffset == 0.0 &&
            p.currentIndex == s.currentIndex && p.currentPosition == s.currentPosition
    ensures !s.isDragging ==> DragMove(s, y) == s
    ensures s.isDragging ==> DragMove(s, y).currentPosition == y &&
                             DragMove(s, y).dragOffset == s.startPosition - y
  {
  }

  /** The swipe rule: a release ends the drag and zeroes the offset; it
      turns the page exactly when both positions are non-zero and at
      least 50 px apart (forward when the finger moved left), and only
      then resets both positions. */
  lemma SwipeRule(s: SliderState, n: nat)
    requires InRange(s, n)
    ensures var e := DragEnd(s, n);
            var d := s.startPosition - s.currentPosition;
            var swipe := s.isDragging && s.startPosition != 0.0 && s.currentPosition != 0.0 &&
                         Abs(d) >= MinSwipeDistance;
            InRange(e, n) &&
            (!s.isDragging ==> e == s) &&
            (s.isDragging ==> !e.isDragging && e.dragOffset == 0.0 && e.isPlaying == s.isPlaying) &&
            (swipe && d > 0.0 ==> e.currentIndex == NextIndex(s.currentIndex, n)) &&
            (swipe && d < 0.0 ==> e.currentIndex == PreviousIndex(s.currentIndex, n)) &&
            (swipe ==> e.startPosition == 0.0 && e.currentPosition == 0.0) &&
            (!swipe ==> e.currentIndex == s.currentIndex && e.startPosition == s.startPosition &&
                        e.currentPosition == s.currentPosition)
  {
  }

  /** With two pages or more, a release changes the page exactly on a
      swipe. */
  lemma PageTurnsOnlyOnSwipe(s: SliderState, n: nat)
    requires InRange(s, n) && n >= 2
    ensures DragEnd(s, n).currentIndex != s.currentIndex <==>
              s.isDragging && s.startPosition != 0.0 && s.currentPosition != 0.0 &&
              Abs(s.startPosition - s.currentPosition) >= MinSwipeDistance
  {
    SwipeRule(s, n);
  }

  /** A press does not reset `currentPosition`, and a short drag keeps it:
      after a 20 px drag, a press at 300 px released without moving reads
      the stale position and turns the page. */
  lemma StalePositionTurnsPage(n: nat)
    requires n >= 2
    ensures var shortDrag := DragEnd(DragMove(DragStart(Initial, 100.0), 80.0), n);
            shortDrag.currentIndex == 0 &&
            DragEnd(DragStart(shortDrag, 300.0), n).currentIndex == 1
  {
    var a := DragMove(DragStart(Initial, 100.0), 80.0);
    assert a.startPosition == 100.0 && a.currentPosition == 80.0 && a.isDragging;
    var b := DragEnd(a, n);
    assert b.currentPosition == 80.0 && b.currentIndex == 0;
    var c := DragStart(b, 300.0);
    assert Abs(c.startPosition - c.currentPosition) == 220.0;
  }

  /** With the mouse, the pause button cannot pause: the press on it
      already pauses autoplay, and the click then toggles it back on. */
  lemma PauseButtonResumes(s: SliderState, n: nat, x: real)
    requires InRange(s, n) && !s.isDragging && s.isPlaying
    ensures var pressed := DragStart(s, x);
            TogglePlay(DragEnd(pressed, n)).isPlaying
  {
    SwipeRule(DragStart(s, x), n);
  }

  /** A dot click selects that page and pauses; the button toggles. */
  lemma ControlsEffect(s: SliderState, k: nat, n: nat)
    requires k < n
    ensures InRange(DotClick(s, k), n) && DotClick(s, k).currentIndex == k && !DotClick(s, k).isPlaying
    ensures TogglePlay(s).isPlaying == !s.isPlaying && TogglePlay(TogglePlay(s)) == s
  {
  }

  // ------------------------------------------------------------------- class

  class Slider {
    const pageCount: nat
    var currentIndex: nat
    var isPlaying: bool
    var startPosition: real
    var currentPosition: real
    var isDragging: bool
    var dragOffset: real

    function State(): SliderState
      reads this
    {
      SliderState(currentIndex, isPlaying, startPosition, currentPosition, isDragging, dragOffset)
    }

    ghost predicate Valid()
      reads this
    {
      InRange(State(), pageCount)
    }

    constructor (pages: nat)
      requires pages > 0
      ensures pageCount == pages && State() == Initial && Valid()
    {
      pageCount := pages;
      currentIndex, isPlaying := 0, true;
      startPosition, currentPosition := 0.0, 0.0;
      isDragging, dragOffset := false, 0.0;
    }

    method HandleNext()
      requires Valid()
      modifies this
      ensures Valid()
      ensures State() == old(State()).(currentIndex := NextIndex(old(currentIndex), pageCount))
    {
      currentIndex := (currentIndex + 1) % pageCount;
    }

    method HandlePrevious()
      requires Valid()
      modifies this
      ensures Valid()
      ensures State() == old(State()).(currentIndex := PreviousIndex(old(currentIndex), pageCount))
    {
      currentIndex := if currentIndex == 0 then pageCount - 1 else currentIndex - 1;
    }

    method OnAutoplayTick()
      requires Valid()
      modifies this
      ensures Valid()
      ensures State() == AutoplayTick(old(State()), pageCount)
    {
      if isPlaying {
        HandleNext();
      }
    }

    method OnDragStart(x: real)
      requires Valid()
      modifies this
      ensures Valid()
      ensures State() == DragStart(old(State()), x)
    {
      isPlaying := false;
      isDragging := true;
      startPosition := x;
      dragOffset := 0.0;
    }

    method OnDragMove(x: real)
      requires Valid()
      modifies this
      ensures Valid()
      ensures State() == DragMove(old(State()), x)
    {
      if !isDragging {
        return;
      }
      currentPosition := x;
      var newOffset := startPosition - x;
      dragOffset := newOffset;
    }

    method OnDragEnd()
      requires Valid()
      modifies this
      ensures Valid()
      ensures State() == DragEnd(old(State()), pageCount)
    {
      if !isDragging {
        return;
      }
      isDragging := false;
      if startPosition == 0.0 || currentPosition == 0.0 {
        dragOffset := 0.0;
        return;
      }
      var distance := startPosition - currentPosition;
      if Abs(distance) < MinSwipeDistance {
        dragOffset := 0.0;
        return;
      }
      if distance > 0.0 {
        HandleNext();
      } else {
        HandlePrevious();
      }
      startPosition := 0.0;
      currentPosition := 0.0;
      dragOffset := 0.0;
    }

    method OnTogglePlay()
      requires Valid()
      modifies this
      ensures Valid()
      ensures State() == TogglePlay(old(State()))
    {
      isPlaying := !isPlaying;
    }

    method OnDotClick(k: nat)
      requires Valid() && k < pageCount
      modifies this
      ensures Valid()
      ensures State() == DotClick(old(State()), k)
    {
      currentIndex := k;
      isPlaying := false;
    }
  }
}
