/**
 * The slideshow controller both page scripts implement, as a state machine on
 * values: the module-level variables (`currentImages`, `currentImageIndex`,
 * `touchStartX`, `touchEndX`) and what the page shows of them.
 * The two copies differ only in the guard of `openGallery`, which is the
 * `OpenGuard` parameter of `Open`.
 */
module Slideshow {
  import opened Wrappers
  import opened Text
  import opened Manifest

  /** Minimum horizontal travel, in pixels, of a touch that counts as a swipe. */
  const MIN_SWIPE_DISTANCE: int := 50

  /** What the page shows of the slideshow. */
  datatype View = View(
    modalActive: bool,    // the modal carries the `active` class
    scrollLocked: bool,   // the body carries the `modal-open` class
    slides: seq<string>,  // image paths of the slides in the slider, in order
    offset: int,          // horizontal offset of the slider, in percent of its width
    counter: string,      // text of the counter element
    prevHidden: bool,     // the previous button carries `gallery-hidden`
    nextHidden: bool)     // the next button carries `gallery-hidden`

  /** The controller's variables and the view. */
  datatype State = State(images: seq<string>, index: int, touchStartX: int, touchEndX: int, view: View)

  /** `showImage(i)`: ignored outside the image list, otherwise moves the slider to image i. */
  function Show(s: State, i: int): State {
    if i < 0 || i >= |s.images| then s
    else
      var n := |s.images|;
      s.(index := i,
         view := s.view.(offset := -(i * 100), counter := CounterText(i + 1, n),
                         prevHidden := i == 0, nextHidden := i == n - 1))
  }

  /** `nextImage`: one image forward unless already at the last one. */
  function Next(s: State): State {
    if s.index < |s.images| - 1 then Show(s, s.index + 1) else s
  }

  /** `prevImage`: one image back unless already at the first one. */
  function Prev(s: State): State {
    if s.index > 0 then Show(s, s.index - 1) else s
  }

  /**
   * Which entries `openGallery` turns away besides unknown ids and entries
   * without an image list: `RejectsEmpty` also refuses an empty image list
   * (gallery.js); `AcceptsEmpty` is the guard of script.js, whose emptiness
   * test can never be true.
   */
  datatype OpenGuard = RejectsEmpty | AcceptsEmpty

  predicate Admits(guard: OpenGuard, found: Option<Gallery>) {
    found.Some? && found.value.images.Some? &&
    (guard == RejectsEmpty ==> |found.value.images.value| > 0)
  }

  /** `openGallery(galleryId)`. */
  function Open(galleries: seq<Gallery>, s: State, galleryId: string, guard: OpenGuard): State {
    var found := Find(galleries, galleryId);
    if !Admits(guard, found) then s
    else
      var images := found.value.images.value;
      var filled := s.(images := images, index := 0, view := s.view.(slides := SlidePaths(galleryId, images)));
      var shown := Show(filled, 0);
      shown.(view := shown.view.(modalActive := true, scrollLocked := true))
  }

  /** `closeGallery`: hides the modal, empties the slider and the image list; the index stays. */
  function Close(s: State): State {
    s.(images := [], view := s.view.(modalActive := false, scrollLocked := false, slides := []))
  }

  /** The document's keydown handler. */
  function OnKeyDown(s: State, key: string): State {
    if !s.view.modalActive then s
    else if key == "ArrowRight" then Next(s)
    else if key == "ArrowLeft" then Prev(s)
    else if key == "Escape" then Close(s)
    else s
  }

  /** How a touch ends: no recorded move, a swipe either way, or too short a move. */
  datatype Swipe = NoMove | Forward | Backward | TooShort

  /** The touchend handler's decision; an end position of 0 means no move was recorded. */
  function ClassifySwipe(startX: int, endX: int): Swipe {
    if endX == 0 then NoMove
    else if startX - endX > MIN_SWIPE_DISTANCE then Forward
    else if startX - endX < -MIN_SWIPE_DISTANCE then Backward
    else TooShort
  }

  function OnTouchStart(s: State, x: int): State {
    s.(touchStartX := x, touchEndX := 0)
  }

  function OnTouchMove(s: State, x: int): State {
    s.(touchEndX := x)
  }

  function OnTouchEnd(s: State): State {
    match ClassifySwipe(s.touchStartX, s.touchEndX)
    case NoMove => s
    case Forward => Next(s).(touchStartX := 0, touchEndX := 0)
    case Backward => Prev(s).(touchStartX := 0, touchEndX := 0)
    case TooShort => s.(touchStartX := 0, touchEndX := 0)
  }

  /** The inputs the page reacts to once the manifest is loaded. */
  datatype Event =
    | OpenRequest(galleryId: string)  // a click on a gallery card or trigger
    | CloseClick
    | NextClick
    | PrevClick
    | KeyPress(key: string)
    | TouchStartAt(x: int)
    | TouchMoveTo(x: int)
    | TouchEnd

  function Step(galleries: seq<Gallery>, s: State, e: Event, guard: OpenGuard): State {
    match e
    case OpenRequest(galleryId) => Open(galleries, s, galleryId, guard)
    case CloseClick => Close(s)
    case NextClick => Next(s)
    case PrevClick => Prev(s)
    case KeyPress(key) => OnKeyDown(s, key)
    case TouchStartAt(x) => OnTouchStart(s, x)
    case TouchMoveTo(x) => OnTouchMove(s, x)
    case TouchEnd => OnTouchEnd(s)
  }

  function Run(galleries: seq<Gallery>, s: State, events: seq<Event>, guard: OpenGuard): State
    decreases |events|
  {
    if events == [] then s else Run(galleries, Step(galleries, s, events[0], guard), events[1..], guard)
  }

  /**
   * The view shows image i of the list: slider offset, counter and both
   * buttons agree with i. The counter is the text `"<i+1> / <n>"`, and it
   * reads back as exactly that position and total.
   */
  ghost predicate Displays(s: State, i: int) {
    0 <= i < |s.images| && s.index == i &&
    s.view.offset == -(i * 100) &&
    s.view.counter == CounterText(i + 1, |s.images|) &&
    ParseCounter(s.view.counter) == Some((i + 1, |s.images|)) &&
    s.view.prevHidden == (i == 0) &&
    s.view.nextHidden == (i == |s.images| - 1)
  }

  /**
   * The slideshow is open exactly when it holds images, there is one slide per
   * image, scrolling is locked while it is open, and an open slideshow shows an
   * image inside its list.
   */
  ghost predicate Inv(s: State) {
    |s.view.slides| == |s.images| &&
    s.view.modalActive == (s.images != []) &&
    s.view.scrollLocked == s.view.modalActive &&
    (s.images != [] ==> Displays(s, s.index))
  }

  /** Out of range, `showImage` changes nothing; in range it shows that image and touches nothing else. */
  lemma ShowEffect(s: State, i: int)
    ensures i < 0 || i >= |s.images| ==> Show(s, i) == s
    ensures 0 <= i < |s.images| ==>
              Displays(Show(s, i), i) && Show(s, i).images == s.images &&
              Show(s, i).view.slides == s.view.slides && Show(s, i).view.modalActive == s.view.modalActive &&
              Show(s, i).view.scrollLocked == s.view.scrollLocked &&
              Show(s, i).touchStartX == s.touchStartX && Show(s, i).touchEndX == s.touchEndX
  {
    if 0 <= i < |s.images| {
      CounterRoundTrip(i + 1, |s.images|);
    }
  }

  /** Inside the list, next and previous step by exactly one; at the ends they change nothing, however often repeated. */
  lemma NavigationSteps(s: State)
    requires 0 <= s.index < |s.images|
    ensures s.index < |s.images| - 1 ==> Displays(Next(s), s.index + 1) && Next(s).images == s.images
    ensures s.index == |s.images| - 1 ==> Next(s) == s && Next(Next(s)) == s
    ensures s.index > 0 ==> Displays(Prev(s), s.index - 1) && Prev(s).images == s.images
    ensures s.index == 0 ==> Prev(s) == s && Prev(Prev(s)) == s
  {
    ShowEffect(s, s.index + 1);
    ShowEffect(s, s.index - 1);
  }

  /**
   * After closing, the list is empty and the modal and slider are cleared. The
   * index, offset, counter, button flags and touch positions are kept, and
   * every move is ignored.
   */
  lemma CloseEffect(s: State, i: int)
    ensures Close(s).images == [] && Close(s).view.slides == []
    ensures !Close(s).view.modalActive && !Close(s).view.scrollLocked
    ensures Close(s).index == s.index
    ensures Close(s).view.offset == s.view.offset && Close(s).view.counter == s.view.counter
    ensures Close(s).view.prevHidden == s.view.prevHidden && Close(s).view.nextHidden == s.view.nextHidden
    ensures Close(s).touchStartX == s.touchStartX && Close(s).touchEndX == s.touchEndX
    ensures Next(Close(s)) == Close(s) && Prev(Close(s)) == Close(s) && Show(Close(s), i) == Close(s)
  {
  }

  /**
   * A refused `openGallery` changes nothing; an admitted one installs the
   * entry's images with one slide per image, shows the first, and opens the modal.
   */
  lemma OpenEffect(galleries: seq<Gallery>, s: State, galleryId: string, guard: OpenGuard)
    ensures !Admits(guard, Find(galleries, galleryId)) ==> Open(galleries, s, galleryId, guard) == s
    ensures Admits(guard, Find(galleries, galleryId)) ==>
              var images := Find(galleries, galleryId).value.images.value;
              var t := Open(galleries, s, galleryId, guard);
              t.images == images && t.index == 0 &&
              t.view.slides == SlidePaths(galleryId, images) &&
              t.view.modalActive && t.view.scrollLocked &&
              t.touchStartX == s.touchStartX && t.touchEndX == s.touchEndX &&
              (images != [] ==> Displays(t, 0) && t.view.prevHidden && (t.view.nextHidden <==> |images| == 1))
  {
    var found := Find(galleries, galleryId);
    if Admits(guard, found) {
      var images := found.value.images.value;
      var filled := s.(images := images, index := 0, view := s.view.(slides := SlidePaths(galleryId, images)));
      ShowEffect(filled, 0);
    }
  }

  /** Every slide of an opened gallery is addressed by base path, gallery id and file name. */
  lemma OpenSlidePaths(galleries: seq<Gallery>, s: State, galleryId: string, guard: OpenGuard, k: int)
    requires Admits(guard, Find(galleries, galleryId))
    requires 0 <= k < |Find(galleries, galleryId).value.images.value|
    ensures Open(galleries, s, galleryId, guard).view.slides[k] ==
            GALLERIES_PATH + galleryId + "/" + Find(galleries, galleryId).value.images.value[k]
  {
    OpenEffect(galleries, s, galleryId, guard);
  }

  /**
   * The card of a listed entry opens that entry's images, provided no earlier
   * entry carries the same id (the lookup takes the first match).
   */
  lemma CardOpensItsGallery(galleries: seq<Gallery>, s: State, i: int)
    requires 0 <= i < |galleries| && IsListed(galleries[i])
    requires forall j :: 0 <= j < i ==> galleries[j].id != galleries[i].id
    ensures var t := Open(galleries, s, CardOf(galleries[i]).galleryId, RejectsEmpty);
            t.view.modalActive && t.images == galleries[i].images.value && Displays(t, 0)
  {
    var galleryId := CardOf(galleries[i]).galleryId;
    var found := Find(galleries, galleryId);
    var m :| 0 <= m < |galleries| && galleries[m] == found.value && galleries[m].id == Some(galleryId) &&
             forall j :: 0 <= j < m ==> galleries[j].id != Some(galleryId);
    assert m == i;
    OpenEffect(galleries, s, galleryId, RejectsEmpty);
  }

  /** The keydown handler ignores keys while closed and maps the arrow keys and Escape while open. */
  lemma KeyDownEffect(s: State, key: string)
    ensures !s.view.modalActive ==> OnKeyDown(s, key) == s
    ensures s.view.modalActive && key == "ArrowRight" ==> OnKeyDown(s, key) == Next(s)
    ensures s.view.modalActive && key == "ArrowLeft" ==> OnKeyDown(s, key) == Prev(s)
    ensures s.view.modalActive && key == "Escape" ==> OnKeyDown(s, key) == Close(s)
    ensures key !in {"ArrowRight", "ArrowLeft", "Escape"} ==> OnKeyDown(s, key) == s
  {
  }

  /**
   * A whole gesture (touch start at x0, move to x1, touch end) navigates at most
   * once: forward when it travelled more than the minimum to the left, back when
   * more than the minimum to the right. A move to 0 is taken for no move at all,
   * and then the start position is left in place.
   */
  lemma SwipeGesture(s: State, x0: int, x1: int)
    ensures var t := OnTouchEnd(OnTouchMove(OnTouchStart(s, x0), x1));
            var u := s.(touchStartX := 0, touchEndX := 0);
            (x1 == 0 ==> t == s.(touchStartX := x0, touchEndX := 0)) &&
            (x1 != 0 && x0 - x1 > MIN_SWIPE_DISTANCE ==> t == Next(u)) &&
            (x1 != 0 && x0 - x1 < -MIN_SWIPE_DISTANCE ==> t == Prev(u)) &&
            (x1 != 0 && -MIN_SWIPE_DISTANCE <= x0 - x1 <= MIN_SWIPE_DISTANCE ==> t == u)
  {
  }

  /** The classification is symmetric: reversing a recorded swipe reverses its direction. */
  lemma SwipeSymmetry(a: int, b: int)
    requires a != 0 && b != 0
    ensures ClassifySwipe(a, b) == Forward <==> ClassifySwipe(b, a) == Backward
    ensures ClassifySwipe(a, b) == TooShort <==> ClassifySwipe(b, a) == TooShort
  {
  }

  lemma NextKeepsInv(s: State)
    requires Inv(s)
    ensures Inv(Next(s))
  {
    ShowEffect(s, s.index + 1);
  }

  lemma PrevKeepsInv(s: State)
    requires Inv(s)
    ensures Inv(Prev(s))
  {
    ShowEffect(s, s.index - 1);
  }

  /** The invariant does not depend on the touch positions. */
  lemma InvIgnoresTouch(s: State, startX: int, endX: int)
    requires Inv(s)
    ensures Inv(s.(touchStartX := startX, touchEndX := endX))
  {
    var u := s.(touchStartX := startX, touchEndX := endX);
    assert u.images == s.images && u.index == s.index && u.view == s.view;
  }

  lemma TouchEndKeepsInv(s: State)
    requires Inv(s)
    ensures Inv(OnTouchEnd(s))
  {
    match ClassifySwipe(s.touchStartX, s.touchEndX)
    case NoMove =>
    case Forward =>
      NextKeepsInv(s);
      InvIgnoresTouch(Next(s), 0, 0);
    case Backward =>
      PrevKeepsInv(s);
      InvIgnoresTouch(Prev(s), 0, 0);
    case TooShort =>
      InvIgnoresTouch(s, 0, 0);
  }

  lemma KeyDownKeepsInv(s: State, key: string)
    requires Inv(s)
    ensures Inv(OnKeyDown(s, key))
  {
    NextKeepsInv(s);
    PrevKeepsInv(s);
  }

  lemma OpenKeepsInv(galleries: seq<Gallery>, s: State, galleryId: string)
    requires Inv(s)
    ensures Inv(Open(galleries, s, galleryId, RejectsEmpty))
  {
    OpenEffect(galleries, s, galleryId, RejectsEmpty);
  }

  /** Every event keeps the invariant when `openGallery` refuses empty image lists. */
  lemma StepKeepsInv(galleries: seq<Gallery>, s: State, e: Event)
    requires Inv(s)
    ensures Inv(Step(galleries, s, e, RejectsEmpty))
  {
    match e
    case OpenRequest(galleryId) => OpenKeepsInv(galleries, s, galleryId);
    case CloseClick =>
    case NextClick => NextKeepsInv(s);
    case PrevClick => PrevKeepsInv(s);
    case KeyPress(key) => KeyDownKeepsInv(s, key);
    case TouchStartAt(x) =>
    case TouchMoveTo(x) =>
    case TouchEnd => TouchEndKeepsInv(s);
  }

  /** Any sequence of events keeps the invariant (gallery.js). */
  lemma {:induction false} RunKeepsInv(galleries: seq<Gallery>, s: State, events: seq<Event>)
    requires Inv(s)
    ensures Inv(Run(galleries, s, events, RejectsEmpty))
    decreases |events|
  {
    if events != [] {
      StepKeepsInv(galleries, s, events[0]);
      RunKeepsInv(galleries, Step(galleries, s, events[0], RejectsEmpty), events[1..]);
    }
  }

  /** An event that neither opens nor closes the slideshow. */
  predicate IsNavigation(e: Event) {
    !e.OpenRequest? && !e.CloseClick? && !(e.KeyPress? && e.key == "Escape")
  }

  lemma {:induction false} NavigationKeepsBounds(galleries: seq<Gallery>, s: State, events: seq<Event>, guard: OpenGuard)
    requires 0 <= s.index < |s.images|
    requires forall k :: 0 <= k < |events| ==> IsNavigation(events[k])
    ensures Run(galleries, s, events, guard).images == s.images
    ensures 0 <= Run(galleries, s, events, guard).index < |s.images|
    decreases |events|
  {
    if events != [] {
      var t := Step(galleries, s, events[0], guard);
      assert t.images == s.images && 0 <= t.index < |s.images|;
      NavigationKeepsBounds(galleries, t, events[1..], guard);
    }
  }

  /**
   * With either guard, once a gallery with images is open, clicks, keys and
   * touches keep the index inside the gallery's image list.
   */
  lemma ScriptNavigationKeepsBounds(galleries: seq<Gallery>, s: State, galleryId: string, events: seq<Event>, guard: OpenGuard)
    requires Find(galleries, galleryId).Some?
    requires Find(galleries, galleryId).value.images.Some? && |Find(galleries, galleryId).value.images.value| > 0
    requires forall k :: 0 <= k < |events| ==> IsNavigation(events[k])
    ensures var t := Run(galleries, Open(galleries, s, galleryId, guard), events, guard);
            t.images == Find(galleries, galleryId).value.images.value && 0 <= t.index < |t.images|
  {
    OpenEffect(galleries, s, galleryId, guard);
    NavigationKeepsBounds(galleries, Open(galleries, s, galleryId, guard), events, guard);
  }

  /** Opening, closing and opening the same gallery again gives the state of the first opening. */
  lemma ReopenReproducesOpen(galleries: seq<Gallery>, s: State, galleryId: string, guard: OpenGuard)
    requires Admits(guard, Find(galleries, galleryId))
    ensures Open(galleries, Close(Open(galleries, s, galleryId, guard)), galleryId, guard) == Open(galleries, s, galleryId, guard)
  {
  }

  /** The two guards differ only on an entry whose image list is present and empty. */
  lemma GuardsDifferOnlyOnEmpty(galleries: seq<Gallery>, s: State, galleryId: string)
    ensures Open(galleries, s, galleryId, RejectsEmpty) != Open(galleries, s, galleryId, AcceptsEmpty) ==>
              Find(galleries, galleryId).Some? && Find(galleries, galleryId).value.images == Some([])
  {
  }

  /**
   * With the guard of script.js, an entry with an empty image list opens the
   * modal with no slide, and the counter, offset and buttons keep what they showed before.
   */
  lemma ScriptOpensEmptyGallery(galleries: seq<Gallery>, s: State, galleryId: string)
    requires Find(galleries, galleryId).Some? && Find(galleries, galleryId).value.images == Some([])
    ensures var t := Open(galleries, s, galleryId, AcceptsEmpty);
            t.view.modalActive && t.images == [] && t.view.slides == [] && t.index == 0 &&
            t.view.counter == s.view.counter && t.view.offset == s.view.offset &&
            t.view.prevHidden == s.view.prevHidden && t.view.nextHidden == s.view.nextHidden &&
            !Inv(t)
  {
  }

  /** A closed page with one empty gallery: the script.js guard opens it, breaking the invariant. */
  lemma ScriptGuardAdmitsEmptyGallery()
    ensures var galleries := [Gallery(Some("empty"), Some("Empty"), Some([]))];
            var s := State([], 0, 0, 0, View(false, false, [], 0, "", false, false));
            Inv(s) &&
            Open(galleries, s, "empty", RejectsEmpty) == s &&
            !Inv(Run(galleries, s, [OpenRequest("empty")], AcceptsEmpty))
  {
    var galleries := [Gallery(Some("empty"), Some("Empty"), Some([]))];
    assert Find(galleries, "empty") == Some(galleries[0]);
  }

  /** The counter texts of a three-image gallery. */
  lemma ThreeImageCounters()
    ensures CounterText(1, 3) == "1 / 3" && CounterText(2, 3) == "2 / 3" && CounterText(3, 3) == "3 / 3"
  {
    assert NatToString(1) == "1" && NatToString(2) == "2" && NatToString(3) == "3";
  }

  /** Opening a three-image gallery shows "1 / 3" with only the next button visible. */
  lemma ThreeImageOpen()
    ensures var galleries := [Gallery(Some("a"), Some("A"), Some(["1.jpg", "2.jpg", "3.jpg"]))];
            var s0 := State([], 0, 0, 0, View(false, false, [], 0, "", false, false));
            var s1 := Open(galleries, s0, "a", RejectsEmpty);
            s1.images == ["1.jpg", "2.jpg", "3.jpg"] && s1.index == 0 &&
            s1.view == View(true, true, SlidePaths("a", ["1.jpg", "2.jpg", "3.jpg"]), 0, "1 / 3", true, false)
  {
    var galleries := [Gallery(Some("a"), Some("A"), Some(["1.jpg", "2.jpg", "3.jpg"]))];
    var images := ["1.jpg", "2.jpg", "3.jpg"];
    var s0 := State([], 0, 0, 0, View(false, false, [], 0, "", false, false));
    assert Find(galleries, "a") == Some(galleries[0]);
    ThreeImageCounters();
    var filled := s0.(images := images, index := 0, view := s0.view.(slides := SlidePaths("a", images)));
    assert Show(filled, 0) == filled.(view := filled.view.(offset := 0, counter := "1 / 3", prevHidden := true, nextHidden := false));
  }

  /** An id that no entry carries changes nothing. */
  lemma MissingIdIgnored()
    ensures var galleries := [Gallery(Some("a"), Some("A"), Some(["1.jpg", "2.jpg", "3.jpg"]))];
            var s0 := State([], 0, 0, 0, View(false, false, [], 0, "", false, false));
            Open(galleries, s0, "missing", RejectsEmpty) == s0
  {
    var galleries := [Gallery(Some("a"), Some("A"), Some(["1.jpg", "2.jpg", "3.jpg"]))];
    assert Find(galleries, "missing") == None;
  }

  /** From there, next twice reaches "3 / 3" with the next button hidden, next again does nothing, and previous twice returns to the start. */
  lemma ThreeImageNavigation(slides: seq<string>)
    ensures var s1 := State(["1.jpg", "2.jpg", "3.jpg"], 0, 0, 0, View(true, true, slides, 0, "1 / 3", true, false));
            var s2 := State(["1.jpg", "2.jpg", "3.jpg"], 1, 0, 0, View(true, true, slides, -100, "2 / 3", false, false));
            var s3 := State(["1.jpg", "2.jpg", "3.jpg"], 2, 0, 0, View(true, true, slides, -200, "3 / 3", false, true));
            Next(s1) == s2 && Next(s2) == s3 && Next(s3) == s3 && Prev(s3) == s2 && Prev(s2) == s1
  {
    ThreeImageCounters();
  }

  /** The slides of that gallery, spelled out. */
  lemma ThreeImageSlides()
    ensures SlidePaths("a", ["1.jpg", "2.jpg", "3.jpg"]) ==
            ["Rygina/galleries/a/1.jpg", "Rygina/galleries/a/2.jpg", "Rygina/galleries/a/3.jpg"]
  {
    var paths := SlidePaths("a", ["1.jpg", "2.jpg", "3.jpg"]);
    assert paths[0] == "Rygina/galleries/a/1.jpg";
    assert paths[1] == "Rygina/galleries/a/2.jpg";
    assert paths[2] == "Rygina/galleries/a/3.jpg";
  }
}
