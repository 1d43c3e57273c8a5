/**
 * The floating music widget: a draggable disc with a slide-out menu that
 * lists the playlist, a play/pause button and a volume slider, one shared
 * audio element, and a one-shot fallback that starts playback on the first
 * click or touch when the browser blocks autoplay.
 *
 * The browser is abstracted: `audio.play()` is a success/failure oracle
 * passed to the handlers, and layout values (the container's offset and
 * bounding rectangle, the viewport size) are handler parameters.
 */
module Music {
  import opened Wrappers

  /** One playlist entry: display name and audio URL. */
  datatype Track = Track(name: string, src: string)

  const DefaultPlaylist: seq<Track> := [
    Track("Thư Giãn", "https://cdn.pixabay.com/audio/2022/08/02/audio_884fe92c21.mp3"),
    Track("Sóng Biển", "https://cdn.pixabay.com/audio/2022/03/24/audio_34b6b663b9.mp3"),
    Track("Acoustic", "https://cdn.pixabay.com/audio/2023/01/01/audio_8162594411.mp3")
  ]

  /** The display name given to the first track when the page supplies its own music. */
  const ThemeName := "Chủ Đề"

  const InitialVolume := 0.5
  /** The container starts 20px from the bottom and the left of the viewport. */
  const InitialOffset := 20
  /** Pointer movement beyond this many pixels on either axis makes a press a drag. */
  const DragThreshold := 5
  /** Width of the open menu, in pixels. */
  const OpenMenuWidth := 200
  /** Distance from the left or top edge after snapping back. */
  const SnapInset := 10
  /** Distance from the right or bottom edge after snapping back: the disc (60px) plus the inset. */
  const SnapMargin := 70

  /**
   * The playlist after the page override: a non-empty `data-music`
   * attribute on the body replaces the first track's source and name.
   */
  function ApplyOverride(playlist: seq<Track>, dataMusic: Option<string>): (r: seq<Track>)
    requires |playlist| > 0
    ensures |r| == |playlist| && r[1..] == playlist[1..]
    ensures dataMusic.Some? && dataMusic.value != "" ==> r[0] == Track(ThemeName, dataMusic.value)
    ensures dataMusic.None? || dataMusic.value == "" ==> r == playlist
  {
    match dataMusic
    case Some(src) => if src != "" then [Track(ThemeName, src)] + playlist[1..] else playlist
    case None => playlist
  }

  /** The class of one playlist row: 'track-item' or 'track-item playing-track'. */
  datatype RowClass = TrackItem | PlayingTrack

  /** The row classes written by `highlightTrack(index)` on `n` rows. */
  function Highlighted(n: nat, index: int): (rows: seq<RowClass>)
    ensures |rows| == n
  {
    seq(n, j => if j == index then PlayingTrack else TrackItem)
  }

  /** The positions of the highlighted rows. */
  function PlayingRows(rows: seq<RowClass>): set<int>
  {
    set j | 0 <= j < |rows| && rows[j] == PlayingTrack
  }

  /** `highlightTrack(index)` highlights row `index` and no other: exactly one row when `index` is a row, none otherwise. */
  lemma HighlightSingleRow(n: nat, index: int)
    ensures PlayingRows(Highlighted(n, index)) == if 0 <= index < n then {index} else {}
  {
    var rows := Highlighted(n, index);
    forall j | j in PlayingRows(rows) ensures j == index {
    }
    if 0 <= index < n {
      assert rows[index] == PlayingTrack;
    }
  }

  /** At most one row is highlighted. */
  predicate AtMostOnePlaying(rows: seq<RowClass>)
  {
    forall i, j :: 0 <= i < j < |rows| ==> rows[i] == TrackItem || rows[j] == TrackItem
  }

  lemma HighlightedAtMostOne(n: nat, index: int)
    ensures AtMostOnePlaying(Highlighted(n, index))
  {
  }

  /** The icon inside the play/pause button. */
  datatype Icon = PlayIcon | PauseIcon

  datatype PlayState = Running | Paused

  /** The disc's CSS animation: `slowSpin` with its period in seconds, or the one-shot `popSpin`. */
  datatype Animation = SlowSpin(seconds: nat) | PopSpin

  datatype Cursor = Grab | Grabbing

  /** The disc's inline style: animation name, its play state, and the cursor. */
  datatype Disc = Disc(animation: Animation, playState: PlayState, cursor: Cursor)

  /** The audio element's state. */
  datatype Audio = Audio(src: string, paused: bool, loop: bool, volume: real)

  /** One inline position property of the container: not set, 'auto', or pixels. */
  datatype Css = Unset | Auto | Px(px: int)

  /** The container's inline `left`, `top` and `bottom`. */
  datatype Position = Position(left: Css, top: Css, bottom: Css)

  datatype Point = Point(x: int, y: int)

  /** A pointer event: a mouse event carries one point, a touch event its list of touches. */
  datatype PointerEvent = MouseEvent(client: Point) | TouchEvent(touches: seq<Point>)

  /** Touch events reaching the handlers carry at least one touch. */
  predicate WellFormed(e: PointerEvent)
  {
    e.TouchEvent? ==> |e.touches| > 0
  }

  /** The pointer position used by the drag handlers: the first touch, or the mouse position. */
  function ClientPoint(e: PointerEvent): (p: Point)
    requires WellFormed(e)
    ensures e.MouseEvent? ==> p == e.client
    ensures e.TouchEvent? ==> p == e.touches[0]
  {
    match e
    case MouseEvent(p) => p
    case TouchEvent(ts) => ts[0]
  }

  /** `Math.abs`. */
  function Abs(x: int): (r: nat)
    ensures r == x || r == -x
  {
    if x < 0 then -x else x
  }

  /** A movement of (dx, dy) from the press point counts as a drag. */
  predicate ExceedsThreshold(dx: int, dy: int)
  {
    Abs(dx) > DragThreshold || Abs(dy) > DragThreshold
  }

  /** A move takes the pointer past the threshold from where it was pressed. */
  predicate IsDragMove(press: PointerEvent, move: PointerEvent)
    requires WellFormed(press) && WellFormed(move)
  {
    ExceedsThreshold(ClientPoint(move).x - ClientPoint(press).x, ClientPoint(move).y - ClientPoint(press).y)
  }

  /** The container's bounding rectangle, in viewport pixels. */
  datatype Rect = Rect(left: int, top: int, right: int, bottom: int)
  {
    function Width(): int { right - left }
    function Height(): int { bottom - top }
  }

  /** The inline `left` and `top` written on release; `None` leaves that property as it was. */
  datatype SnapWrites = SnapWrites(left: Option<int>, top: Option<int>)

  /**
   * The release-time snapping of the source, as written: four independent
   * tests on the rectangle measured before any write, the right and bottom
   * tests overriding the left and top ones.
   */
  function SnapAsWritten(r: Rect, innerWidth: int, innerHeight: int): (s: SnapWrites)
    ensures r.right > innerWidth ==> s.left == Some(innerWidth - SnapMargin)
    ensures r.left < 0 && r.right <= innerWidth ==> s.left == Some(SnapInset)
    ensures 0 <= r.left && r.right <= innerWidth ==> s.left == None
    ensures r.bottom > innerHeight ==> s.top == Some(innerHeight - SnapMargin)
    ensures r.top < 0 && r.bottom <= innerHeight ==> s.top == Some(SnapInset)
    ensures 0 <= r.top && r.bottom <= innerHeight ==> s.top == None
  {
    var left1 := if r.left < 0 then Some(SnapInset) else None;
    var top1 := if r.top < 0 then Some(SnapInset) else None;
    var left2 := if r.right > innerWidth then Some(innerWidth - SnapMargin) else left1;
    var top2 := if r.bottom > innerHeight then Some(innerHeight - SnapMargin) else top1;
    SnapWrites(left2, top2)
  }

  /** The rectangle after the writes: a written `left`/`top` moves the box, keeping its size. */
  function Moved(r: Rect, s: SnapWrites): (m: Rect)
    ensures m.Width() == r.Width() && m.Height() == r.Height()
    ensures s.left.None? ==> m.left == r.left
    ensures s.left.Some? ==> m.left == s.left.value
    ensures s.top.None? ==> m.top == r.top
    ensures s.top.Some? ==> m.top == s.top.value
  {
    var left := s.left.GetOr(r.left);
    var top := s.top.GetOr(r.top);
    Rect(left, top, left + r.Width(), top + r.Height())
  }

  /** The rectangle lies inside a viewport of the given size. */
  predicate Inside(r: Rect, innerWidth: int, innerHeight: int)
  {
    0 <= r.left && r.right <= innerWidth && 0 <= r.top && r.bottom <= innerHeight
  }

  /**
   * The source's snapping leaves a box taller than 70px partly below the
   * viewport: the container is as tall as the 160px menu, so after a drop
   * past the bottom edge its bottom stays 90px below the viewport.
   */
  lemma SnapAsWrittenLeavesTallBoxBelow(r: Rect, innerWidth: int, innerHeight: int)
    requires r.bottom > innerHeight && r.Height() > SnapMargin
    ensures Moved(r, SnapAsWritten(r, innerWidth, innerHeight)).bottom > innerHeight
  {
  }

  /** A concrete drop: the 70x160 container released at top 700 in a 1024x800 viewport ends with its bottom at 890. */
  lemma SnapAsWrittenCounterexample()
    ensures var r := Rect(20, 700, 90, 860);
      var m := Moved(r, SnapAsWritten(r, 1024, 800));
      m.bottom == 890 && !Inside(m, 1024, 800)
  {
  }

  /**
   * The snapping the code evidently intends ("keeps it on screen"): the
   * same four tests, but a box larger than 70px on an axis is pulled back
   * by its own size. It writes what the source writes whenever the box is
   * at most 70px on both axes, and it always ends inside a viewport with
   * room for the box and the inset.
   */
  function SnapToViewport(r: Rect, innerWidth: int, innerHeight: int): (s: SnapWrites)
    ensures r.Width() <= SnapMargin && r.Height() <= SnapMargin ==> s == SnapAsWritten(r, innerWidth, innerHeight)
    ensures 0 <= r.Width() && r.Width() + SnapInset <= innerWidth && SnapMargin <= innerWidth
         && 0 <= r.Height() && r.Height() + SnapInset <= innerHeight && SnapMargin <= innerHeight
         ==> Inside(Moved(r, s), innerWidth, innerHeight)
    ensures Inside(r, innerWidth, innerHeight) ==> s == SnapWrites(None, None)
  {
    var left1 := if r.left < 0 then Some(SnapInset) else None;
    var top1 := if r.top < 0 then Some(SnapInset) else None;
    var left2 := if r.right > innerWidth then Some(innerWidth - (if r.Width() > SnapMargin then r.Width() else SnapMargin)) else left1;
    var top2 := if r.bottom > innerHeight then Some(innerHeight - (if r.Height() > SnapMargin then r.Height() else SnapMargin)) else top1;
    SnapWrites(left2, top2)
  }

  /** The widget: the handlers' shared variables and the DOM state they write. */
  class Widget {
    const playlist: seq<Track>
    /** The rendered playlist rows, one per track. */
    const rows: array<RowClass>

    var currentTrackIndex: int
    var isMenuOpen: bool
    var isDragging: bool
    var startX: int
    var startY: int
    var initialLeft: int
    var initialTop: int

    var audio: Audio
    var playIcon: Icon
    var disc: Disc
    /** The menu's inline width in pixels: '0' or '200px'. */
    var menuWidth: int
    var container: Position
    /** `document.onmousemove/onmouseup/ontouchmove/ontouchend` point at the drag handlers. */
    var dragHandlers: bool
    /** 600ms timers scheduled by `toggleMenu` and not yet fired. */
    var pendingSpinTimers: nat

    /** The initial `audio.play()` promise has not settled yet. */
    var autoplayPending: bool
    /** `interactionStart` is registered for document clicks / touch starts. */
    var unlockOnClick: bool
    var unlockOnTouch: bool
    /** How many times `interactionStart` has run. */
    ghost var unlockRuns: nat

    ghost predicate Valid()
      reads this, rows
    {
      && |playlist| > 0 && rows.Length == |playlist|
      && 0 <= currentTrackIndex < |playlist|
      && audio.src == playlist[currentTrackIndex].src
      && 0.0 <= audio.volume <= 1.0
      && menuWidth == (if isMenuOpen then OpenMenuWidth else 0)
      && AtMostOnePlaying(rows[..])
      // playing audio always shows the pause icon and a running disc
      && (!audio.paused ==> playIcon == PauseIcon && disc.playState == Running)
      // the unlock listeners are added and removed together, and run at most once
      && unlockOnClick == unlockOnTouch
      && unlockRuns <= 1
      && (unlockOnClick ==> unlockRuns == 0)
      && (autoplayPending ==> !unlockOnClick && unlockRuns == 0)
    }

    /** Page load: build the playlist, the audio element and the widget, and start the autoplay attempt. */
    constructor (dataMusic: Option<string>)
      ensures Valid() && fresh(rows)
      ensures playlist == ApplyOverride(DefaultPlaylist, dataMusic)
      ensures currentTrackIndex == 0
      ensures audio == Audio(playlist[0].src, true, true, InitialVolume)
      ensures forall j :: 0 <= j < rows.Length ==> rows[j] == TrackItem
      ensures playIcon == PlayIcon && disc == Disc(SlowSpin(10), Paused, Grab)
      ensures !isMenuOpen && menuWidth == 0 && !isDragging && !dragHandlers && pendingSpinTimers == 0
      ensures container == Position(Px(InitialOffset), Unset, Px(InitialOffset))
      ensures autoplayPending && !unlockOnClick && !unlockOnTouch && unlockRuns == 0
    {
      var pl := ApplyOverride(DefaultPlaylist, dataMusic);
      playlist := pl;
      rows := new RowClass[|pl|](_ => TrackItem);
      currentTrackIndex := 0;
      isMenuOpen := false;
      isDragging := false;
      startX, startY, initialLeft, initialTop := 0, 0, 0, 0;
      audio := Audio(pl[0].src, true, true, InitialVolume);
      playIcon := PlayIcon;
      disc := Disc(SlowSpin(10), Paused, Grab);
      menuWidth := 0;
      container := Position(Px(InitialOffset), Unset, Px(InitialOffset));
      dragHandlers := false;
      pendingSpinTimers := 0;
      autoplayPending := true;
      unlockOnClick, unlockOnTouch := false, false;
      unlockRuns := 0;
    }

    /** `highlightTrack(index)`: one pass over the rows, setting each row's class. */
    method HighlightTrack(index: int)
      requires Valid()
      modifies rows
      ensures Valid()
      ensures rows[..] == Highlighted(rows.Length, index)
    {
      var i := 0;
      while i < rows.Length
        invariant 0 <= i <= rows.Length
        invariant forall j :: 0 <= j < i ==> rows[j] == (if j == index then PlayingTrack else TrackItem)
      {
        rows[i] := if i == index then PlayingTrack else TrackItem;
        i := i + 1;
      }
      assert rows[..] == Highlighted(rows.Length, index);
      HighlightedAtMostOne(rows.Length, index);
    }

    /** The play/pause button. `playOk` is the outcome of `audio.play()`. */
    method TogglePlay(playOk: bool)
      requires Valid()
      modifies this, rows
      ensures Valid()
      ensures old(audio.paused) && playOk ==>
        && audio == old(audio).(paused := false)
        && playIcon == PauseIcon && disc == old(disc).(playState := Running)
        && rows[..] == Highlighted(rows.Length, currentTrackIndex)
      ensures old(audio.paused) && !playOk ==>
        audio == old(audio) && playIcon == old(playIcon) && disc == old(disc) && rows[..] == old(rows[..])
      ensures !old(audio.paused) ==>
        && audio == old(audio).(paused := true)
        && playIcon == PlayIcon && disc == old(disc).(playState := Paused)
        && rows[..] == old(rows[..])
      ensures unchanged(this`currentTrackIndex, this`isMenuOpen, this`menuWidth, this`container, this`pendingSpinTimers)
      ensures unchanged(this`isDragging, this`startX, this`startY, this`initialLeft, this`initialTop, this`dragHandlers)
      ensures unchanged(this`autoplayPending, this`unlockOnClick, this`unlockOnTouch, this`unlockRuns)
    {
      if audio.paused {
        if playOk {
          audio := audio.(paused := false);
          playIcon := PauseIcon;
          disc := disc.(playState := Running);
          HighlightTrack(currentTrackIndex);
        }
      } else {
        audio := audio.(paused := true);
        playIcon := PlayIcon;
        disc := disc.(playState := Paused);
      }
    }

    /** A click on playlist row `index`: switch the source, play, and highlight that row. */
    method ChangeTrack(index: int, playOk: bool)
      requires Valid() && 0 <= index < |playlist|
      modifies this, rows
      ensures Valid()
      ensures currentTrackIndex == index
      ensures audio == old(audio).(src := playlist[index].src, paused := !playOk)
      ensures playIcon == PauseIcon && disc == old(disc).(playState := Running)
      ensures rows[..] == Highlighted(rows.Length, index)
      ensures PlayingRows(rows[..]) == {index}
      ensures unchanged(this`isMenuOpen, this`menuWidth, this`container, this`pendingSpinTimers)
      ensures unchanged(this`isDragging, this`startX, this`startY, this`initialLeft, this`initialTop, this`dragHandlers)
      ensures unchanged(this`autoplayPending, this`unlockOnClick, this`unlockOnTouch, this`unlockRuns)
    {
      currentTrackIndex := index;
      audio := audio.(src := playlist[index].src, paused := !playOk);
      playIcon := PauseIcon;
      disc := disc.(playState := Running);
      HighlightTrack(index);
      HighlightSingleRow(rows.Length, index);
    }

    /** The volume slider: range 0..1 in steps of 0.1, given here in tenths. */
    method SetVolume(tenths: int)
      requires Valid() && 0 <= tenths <= 10
      modifies this
      ensures Valid()
      ensures audio == old(audio).(volume := tenths as real / 10.0)
      ensures 0.0 <= audio.volume <= 1.0
      ensures unchanged(this`currentTrackIndex, this`playIcon, this`disc, this`isMenuOpen, this`menuWidth, this`container)
      ensures unchanged(this`isDragging, this`startX, this`startY, this`initialLeft, this`initialTop, this`dragHandlers)
      ensures unchanged(this`pendingSpinTimers, this`autoplayPending, this`unlockOnClick, this`unlockOnTouch, this`unlockRuns)
    {
      audio := audio.(volume := tenths as real / 10.0);
    }

    /** `toggleMenu`: ignored right after a drag; otherwise a pop-spin and the menu flips open or shut. */
    method ToggleMenu()
      requires Valid()
      modifies this
      ensures Valid()
      ensures old(isDragging) ==> unchanged(this)
      ensures !old(isDragging) ==>
        && isMenuOpen == !old(isMenuOpen)
        && menuWidth == (if isMenuOpen then OpenMenuWidth else 0)
        && disc == old(disc).(animation := PopSpin, playState := Running)
        && pendingSpinTimers == old(pendingSpinTimers) + 1
      ensures unchanged(this`currentTrackIndex, this`audio, this`playIcon, this`container)
      ensures unchanged(this`isDragging, this`startX, this`startY, this`initialLeft, this`initialTop, this`dragHandlers)
      ensures unchanged(this`autoplayPending, this`unlockOnClick, this`unlockOnTouch, this`unlockRuns)
    {
      if isDragging {
        return;
      }
      disc := disc.(animation := PopSpin, playState := Running);
      pendingSpinTimers := pendingSpinTimers + 1;
      isMenuOpen := !isMenuOpen;
      if isMenuOpen {
        menuWidth := OpenMenuWidth;
      } else {
        menuWidth := 0;
      }
    }

    /** A 600ms timer of `toggleMenu` fires: the disc goes back to its slow spin, running only while audio plays. */
    method SpinTimerFires()
      requires Valid()
      modifies this
      ensures Valid()
      ensures old(pendingSpinTimers) > 0 ==>
        && pendingSpinTimers == old(pendingSpinTimers) - 1
        && disc == (if audio.paused then old(disc).(animation := SlowSpin(10), playState := Paused)
                    else old(disc).(animation := SlowSpin(4), playState := Running))
      ensures old(pendingSpinTimers) == 0 ==> unchanged(this)
      ensures unchanged(this`currentTrackIndex, this`audio, this`playIcon, this`isMenuOpen, this`menuWidth, this`container)
      ensures unchanged(this`isDragging, this`startX, this`startY, this`initialLeft, this`initialTop, this`dragHandlers)
      ensures unchanged(this`autoplayPending, this`unlockOnClick, this`unlockOnTouch, this`unlockRuns)
    {
      if pendingSpinTimers > 0 {
        pendingSpinTimers := pendingSpinTimers - 1;
        if !audio.paused {
          disc := disc.(animation := SlowSpin(4), playState := Running);
        } else {
          disc := disc.(animation := SlowSpin(10), playState := Paused);
        }
      }
    }

    /** A click on the disc: toggles the menu unless the press was a drag. */
    method DiscClick()
      requires Valid()
      modifies this
      ensures Valid()
      ensures old(isDragging) ==> unchanged(this)
      ensures !old(isDragging) ==>
        && isMenuOpen == !old(isMenuOpen)
        && menuWidth == (if isMenuOpen then OpenMenuWidth else 0)
        && disc == old(disc).(animation := PopSpin, playState := Running)
        && pendingSpinTimers == old(pendingSpinTimers) + 1
      ensures unchanged(this`currentTrackIndex, this`audio, this`playIcon, this`container)
      ensures unchanged(this`isDragging, this`startX, this`startY, this`initialLeft, this`initialTop, this`dragHandlers)
      ensures unchanged(this`autoplayPending, this`unlockOnClick, this`unlockOnTouch, this`unlockRuns)
    {
      if !isDragging {
        ToggleMenu();
      }
    }

    /** The close icon in the menu: stops propagation, then `toggleMenu`. */
    method CloseMenuClick()
      requires Valid()
      modifies this
      ensures Valid()
      ensures old(isDragging) ==> unchanged(this)
      ensures !old(isDragging) ==>
        && isMenuOpen == !old(isMenuOpen)
        && menuWidth == (if isMenuOpen then OpenMenuWidth else 0)
        && disc == old(disc).(animation := PopSpin, playState := Running)
        && pendingSpinTimers == old(pendingSpinTimers) + 1
      ensures unchanged(this`currentTrackIndex, this`audio, this`playIcon, this`container)
      ensures unchanged(this`isDragging, this`startX, this`startY, this`initialLeft, this`initialTop, this`dragHandlers)
      ensures unchanged(this`autoplayPending, this`unlockOnClick, this`unlockOnTouch, this`unlockRuns)
    {
      ToggleMenu();
    }

    /** `dragStart` on mouse down or touch start on the disc; `offsetLeft/Top` are the container's offsets. */
    method DragStart(e: PointerEvent, offsetLeft: int, offsetTop: int)
      requires Valid() && WellFormed(e)
      modifies this
      ensures Valid()
      ensures Point(startX, startY) == ClientPoint(e)
      ensures initialLeft == offsetLeft && initialTop == offsetTop
      ensures dragHandlers && !isDragging
      ensures unchanged(this`currentTrackIndex, this`audio, this`playIcon, this`disc, this`isMenuOpen, this`menuWidth, this`container)
      ensures unchanged(this`pendingSpinTimers, this`autoplayPending, this`unlockOnClick, this`unlockOnTouch, this`unlockRuns)
    {
      var p := ClientPoint(e);
      startX, startY := p.x, p.y;
      initialLeft, initialTop := offsetLeft, offsetTop;
      dragHandlers := true;
      isDragging := false;
    }

    /** `elementDrag`: follow the pointer; past the threshold, mark a drag and force the menu shut. */
    method ElementDrag(e: PointerEvent)
      requires Valid() && WellFormed(e)
      modifies this
      ensures Valid()
      ensures var p := ClientPoint(e);
        container == Position(Px(initialLeft + (p.x - startX)), Px(initialTop + (p.y - startY)), Auto)
      ensures var p := ClientPoint(e);
        ExceedsThreshold(p.x - startX, p.y - startY) ==>
          isDragging && !isMenuOpen && menuWidth == 0 && disc == old(disc).(cursor := Grabbing)
      ensures var p := ClientPoint(e);
        !ExceedsThreshold(p.x - startX, p.y - startY) ==>
          isDragging == old(isDragging) && isMenuOpen == old(isMenuOpen) && menuWidth == old(menuWidth) && disc == old(disc)
      ensures unchanged(this`startX, this`startY, this`initialLeft, this`initialTop, this`dragHandlers)
      ensures unchanged(this`currentTrackIndex, this`audio, this`playIcon, this`pendingSpinTimers)
      ensures unchanged(this`autoplayPending, this`unlockOnClick, this`unlockOnTouch, this`unlockRuns)
    {
      var p := ClientPoint(e);
      var dx := p.x - startX;
      var dy := p.y - startY;
      if Abs(dx) > DragThreshold || Abs(dy) > DragThreshold {
        isDragging := true;
        disc := disc.(cursor := Grabbing);
        menuWidth := 0;
        isMenuOpen := false;
      }
      container := Position(Px(initialLeft + dx), Px(initialTop + dy), Auto);
    }

    /** The end of a drag: detach the handlers, restore the cursor, and write the given snap. */
    method EndDrag(s: SnapWrites)
      requires Valid()
      modifies this
      ensures Valid()
      ensures !dragHandlers && disc == old(disc).(cursor := Grab)
      ensures container.left == (if s.left.Some? then Px(s.left.value) else old(container.left))
      ensures container.top == (if s.top.Some? then Px(s.top.value) else old(container.top))
      ensures container.bottom == old(container.bottom)
      ensures unchanged(this`currentTrackIndex, this`audio, this`playIcon, this`isMenuOpen, this`menuWidth, this`pendingSpinTimers)
      ensures unchanged(this`isDragging, this`startX, this`startY, this`initialLeft, this`initialTop)
      ensures unchanged(this`autoplayPending, this`unlockOnClick, this`unlockOnTouch, this`unlockRuns)
    {
      dragHandlers := false;
      disc := disc.(cursor := Grab);
      if s.left.Some? {
        container := container.(left := Px(s.left.value));
      }
      if s.top.Some? {
        container := container.(top := Px(s.top.value));
      }
    }

    /** `closeDragElement`, as written: detach the handlers, restore the cursor, and snap with the fixed 70px margin. */
    method CloseDragElement(rect: Rect, innerWidth: int, innerHeight: int)
      requires Valid()
      modifies this
      ensures Valid()
      ensures !dragHandlers && disc == old(disc).(cursor := Grab)
      ensures var s := SnapAsWritten(rect, innerWidth, innerHeight);
        && container.left == (if s.left.Some? then Px(s.left.value) else old(container.left))
        && container.top == (if s.top.Some? then Px(s.top.value) else old(container.top))
        && container.bottom == old(container.bottom)
      ensures unchanged(this`currentTrackIndex, this`audio, this`playIcon, this`isMenuOpen, this`menuWidth, this`pendingSpinTimers)
      ensures unchanged(this`isDragging, this`startX, this`startY, this`initialLeft, this`initialTop)
      ensures unchanged(this`autoplayPending, this`unlockOnClick, this`unlockOnTouch, this`unlockRuns)
    {
      EndDrag(SnapAsWritten(rect, innerWidth, innerHeight));
    }

    /** `closeDragElement` with the corrected snap, which pulls a box larger than 70px back by its own size. */
    method CloseDragElementOnScreen(rect: Rect, innerWidth: int, innerHeight: int)
      requires Valid()
      modifies this
      ensures Valid()
      ensures !dragHandlers && disc == old(disc).(cursor := Grab)
      ensures var s := SnapToViewport(rect, innerWidth, innerHeight);
        && container.left == (if s.left.Some? then Px(s.left.value) else old(container.left))
        && container.top == (if s.top.Some? then Px(s.top.value) else old(container.top))
        && container.bottom == old(container.bottom)
      ensures unchanged(this`currentTrackIndex, this`audio, this`playIcon, this`isMenuOpen, this`menuWidth, this`pendingSpinTimers)
      ensures unchanged(this`isDragging, this`startX, this`startY, this`initialLeft, this`initialTop)
      ensures unchanged(this`autoplayPending, this`unlockOnClick, this`unlockOnTouch, this`unlockRuns)
    {
      EndDrag(SnapToViewport(rect, innerWidth, innerHeight));
    }

    /** A mouse move or touch move on the document: reaches `elementDrag` only while the handlers are attached. */
    method PointerMove(e: PointerEvent)
      requires Valid() && WellFormed(e)
      modifies this
      ensures Valid()
      ensures !old(dragHandlers) ==> unchanged(this)
      ensures var p := ClientPoint(e);
        old(dragHandlers) ==>
          container == Position(Px(initialLeft + (p.x - startX)), Px(initialTop + (p.y - startY)), Auto)
      ensures var p := ClientPoint(e);
        old(dragHandlers) && ExceedsThreshold(p.x - startX, p.y - startY) ==>
          isDragging && !isMenuOpen && menuWidth == 0 && disc == old(disc).(cursor := Grabbing)
      ensures var p := ClientPoint(e);
        old(dragHandlers) && !ExceedsThreshold(p.x - startX, p.y - startY) ==>
          isDragging == old(isDragging) && isMenuOpen == old(isMenuOpen) && menuWidth == old(menuWidth) && disc == old(disc)
      ensures unchanged(this`startX, this`startY, this`initialLeft, this`initialTop, this`dragHandlers)
      ensures unchanged(this`currentTrackIndex, this`audio, this`playIcon, this`pendingSpinTimers)
      ensures unchanged(this`autoplayPending, this`unlockOnClick, this`unlockOnTouch, this`unlockRuns)
    {
      if dragHandlers {
        ElementDrag(e);
      }
    }

    /** A mouse up or touch end on the document: reaches `closeDragElement` only while the handlers are attached. */
    method PointerRelease(rect: Rect, innerWidth: int, innerHeight: int)
      requires Valid()
      modifies this
      ensures Valid()
      ensures !old(dragHandlers) ==> unchanged(this)
      ensures !dragHandlers
      ensures old(dragHandlers) ==> disc == old(disc).(cursor := Grab)
      ensures var s := SnapAsWritten(rect, innerWidth, innerHeight);
        old(dragHandlers) ==>
          && container.left == (if s.left.Some? then Px(s.left.value) else old(container.left))
          && container.top == (if s.top.Some? then Px(s.top.value) else old(container.top))
          && container.bottom == old(container.bottom)
      ensures unchanged(this`currentTrackIndex, this`audio, this`playIcon, this`isMenuOpen, this`menuWidth, this`pendingSpinTimers)
      ensures unchanged(this`isDragging, this`startX, this`startY, this`initialLeft, this`initialTop)
      ensures unchanged(this`autoplayPending, this`unlockOnClick, this`unlockOnTouch, this`unlockRuns)
    {
      if dragHandlers {
        CloseDragElement(rect, innerWidth, innerHeight);
      }
    }

    /** The initial `audio.play()` settles: on success show playback of track 0, on rejection arm the one-shot listeners. */
    method SettleAutoplay(ok: bool)
      requires Valid()
      modifies this, rows
      ensures Valid()
      ensures !old(autoplayPending) ==> unchanged(this) && unchanged(rows)
      ensures old(autoplayPending) && ok ==>
        && !autoplayPending && audio == old(audio).(paused := false)
        && playIcon == PauseIcon && disc == old(disc).(playState := Running)
        && rows[..] == Highlighted(rows.Length, 0)
        && !unlockOnClick && !unlockOnTouch
      ensures old(autoplayPending) && !ok ==>
        && !autoplayPending && unlockOnClick && unlockOnTouch
        && audio == old(audio) && playIcon == old(playIcon) && disc == old(disc) && rows[..] == old(rows[..])
      ensures unchanged(this`currentTrackIndex, this`isMenuOpen, this`menuWidth, this`container, this`pendingSpinTimers)
      ensures unchanged(this`isDragging, this`startX, this`startY, this`initialLeft, this`initialTop, this`dragHandlers)
      ensures unchanged(this`unlockRuns)
    {
      if autoplayPending {
        autoplayPending := false;
        if ok {
          audio := audio.(paused := false);
          playIcon := PauseIcon;
          disc := disc.(playState := Running);
          HighlightTrack(0);
        } else {
          unlockOnClick, unlockOnTouch := true, true;
        }
      }
    }

    /** `interactionStart`: play, show playback of track 0, and remove both of its registrations. */
    method InteractionStart(playOk: bool)
      requires Valid() && unlockOnClick
      modifies this, rows
      ensures Valid()
      ensures !unlockOnClick && !unlockOnTouch && unlockRuns == 1
      ensures audio == old(audio).(paused := old(audio.paused) && !playOk)
      ensures playIcon == PauseIcon && disc == old(disc).(playState := Running)
      ensures rows[..] == Highlighted(rows.Length, 0)
      ensures unchanged(this`currentTrackIndex, this`isMenuOpen, this`menuWidth, this`container, this`pendingSpinTimers)
      ensures unchanged(this`isDragging, this`startX, this`startY, this`initialLeft, this`initialTop, this`dragHandlers)
      ensures unchanged(this`autoplayPending)
    {
      audio := audio.(paused := audio.paused && !playOk);
      playIcon := PauseIcon;
      disc := disc.(playState := Running);
      HighlightTrack(0);
      unlockOnClick := false;
      unlockOnTouch := false;
      unlockRuns := unlockRuns + 1;
    }

    /** A click anywhere in the document, as seen by the unlock listener. */
    method DocumentClick(playOk: bool)
      requires Valid()
      modifies this, rows
      ensures Valid()
      ensures !old(unlockOnClick) ==> unchanged(this) && unchanged(rows)
      ensures old(unlockOnClick) ==>
        && unlockRuns == 1 && audio == old(audio).(paused := old(audio.paused) && !playOk)
        && playIcon == PauseIcon && disc == old(disc).(playState := Running)
        && rows[..] == Highlighted(rows.Length, 0)
      ensures !unlockOnClick && !unlockOnTouch
      ensures unchanged(this`currentTrackIndex, this`isMenuOpen, this`menuWidth, this`container, this`pendingSpinTimers)
      ensures unchanged(this`isDragging, this`startX, this`startY, this`initialLeft, this`initialTop, this`dragHandlers)
      ensures unchanged(this`autoplayPending)
    {
      if unlockOnClick {
        InteractionStart(playOk);
      }
    }

    /** A touch start anywhere in the document, as seen by the unlock listener. */
    method DocumentTouchStart(playOk: bool)
      requires Valid()
      modifies this, rows
      ensures Valid()
      ensures !old(unlockOnTouch) ==> unchanged(this) && unchanged(rows)
      ensures old(unlockOnTouch) ==>
        && unlockRuns == 1 && audio == old(audio).(paused := old(audio.paused) && !playOk)
        && playIcon == PauseIcon && disc == old(disc).(playState := Running)
        && rows[..] == Highlighted(rows.Length, 0)
      ensures !unlockOnClick && !unlockOnTouch
      ensures unchanged(this`currentTrackIndex, this`isMenuOpen, this`menuWidth, this`container, this`pendingSpinTimers)
      ensures unchanged(this`isDragging, this`startX, this`startY, this`initialLeft, this`initialTop, this`dragHandlers)
      ensures unchanged(this`autoplayPending)
    {
      if unlockOnTouch {
        InteractionStart(playOk);
      }
    }
  }

  /**
   * A press on the disc, pointer moves, a release and the click that
   * follows, on a freshly loaded widget whose menu is open or shut. The
   * press was a drag exactly when some move went past the threshold; then
   * the menu ends shut and the click is ignored, otherwise the click flips
   * the menu.
   */
  method PressMoveRelease(startOpen: bool, press: PointerEvent, moves: seq<PointerEvent>,
                          offsetLeft: int, offsetTop: int, rect: Rect, innerWidth: int, innerHeight: int)
    returns (menuOpen: bool, dragged: bool)
    requires WellFormed(press) && forall k :: 0 <= k < |moves| ==> WellFormed(moves[k])
    ensures dragged <==> exists k :: 0 <= k < |moves| && IsDragMove(press, moves[k])
    ensures menuOpen == (!dragged && !startOpen)
  {
    var w := new Widget(None);
    if startOpen {
      w.DiscClick();
    }
    w.DragStart(press, offsetLeft, offsetTop);
    var p := ClientPoint(press);
    var i := 0;
    while i < |moves|
      invariant 0 <= i <= |moves|
      invariant w.Valid() && w.dragHandlers
      invariant w.startX == p.x && w.startY == p.y
      invariant w.isDragging <==> exists k :: 0 <= k < i && IsDragMove(press, moves[k])
      invariant w.isMenuOpen == (startOpen && !w.isDragging)
    {
      w.PointerMove(moves[i]);
      i := i + 1;
    }
    w.PointerRelease(rect, innerWidth, innerHeight);
    dragged := w.isDragging;
    w.DiscClick();
    menuOpen := w.isMenuOpen;
  }

  /** A document-level interaction seen by the unlock listeners, with the outcome of its `audio.play()`. */
  datatype Interaction = Click(playOk: bool) | Touch(playOk: bool)

  /**
   * Page load, the settling of the autoplay attempt, then a series of
   * clicks and touches. A blocked autoplay is unlocked by the first
   * interaction alone: it shows the pause icon, and the audio plays when
   * that one `play()` succeeds; the listeners stay armed only while no
   * interaction has happened.
   */
  method AutoplayFallback(dataMusic: Option<string>, autoplayOk: bool, interactions: seq<Interaction>)
    returns (playing: bool, icon: Icon, listening: bool)
    ensures listening <==> !autoplayOk && |interactions| == 0
    ensures autoplayOk ==> playing && icon == PauseIcon
    ensures !autoplayOk && |interactions| == 0 ==> !playing && icon == PlayIcon
    ensures !autoplayOk && |interactions| > 0 ==> playing == interactions[0].playOk && icon == PauseIcon
  {
    var w := new Widget(dataMusic);
    w.SettleAutoplay(autoplayOk);
    var i := 0;
    while i < |interactions|
      invariant 0 <= i <= |interactions|
      invariant w.Valid() && !w.autoplayPending
      invariant w.unlockOnClick <==> !autoplayOk && i == 0
      invariant autoplayOk ==> !w.audio.paused && w.playIcon == PauseIcon
      invariant !autoplayOk && i == 0 ==> w.audio.paused && w.playIcon == PlayIcon
      invariant !autoplayOk && i > 0 ==> w.audio.paused == !interactions[0].playOk && w.playIcon == PauseIcon
    {
      match interactions[i] {
        case Click(ok) => w.DocumentClick(ok);
        case Touch(ok) => w.DocumentTouchStart(ok);
      }
      i := i + 1;
    }
    playing := !w.audio.paused;
    icon := w.playIcon;
    listening := w.unlockOnClick;
  }
}
