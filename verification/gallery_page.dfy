/**
 * The gallery page script (gallery.js): its module-level variables and the
 * page elements it writes, as one object whose methods are the script's
 * functions and event handlers. Each method is proved against the
 * corresponding function of the Slideshow module; `openGallery` refuses
 * entries whose image list is empty.
 */
module GalleryScript {
  import opened Wrappers
  import opened Text
  import opened Manifest
  import opened Slideshow

  const NO_GALLERIES_TEXT: string := "No galleries found."
  const LOAD_FAILED_TEXT: string := "Could not load galleries. Please check the manifest file."

  /** Contents of the grid element: the page's own markup, a message, or the preview cards. */
  datatype Grid = Markup | Notice(text: string) | Cards(cards: seq<Card>)

  /** What `buildGalleryGrid` leaves in the grid for a manifest. */
  function GridFor(galleries: seq<Gallery>): Grid {
    if galleries == [] then Notice(NO_GALLERIES_TEXT) else Cards(CardsOf(galleries))
  }

  class GalleryPage {
    /** Whether the page has a grid element (the script also runs on pages without one). */
    const hasGrid: bool
    var grid: Grid

    var allGalleries: seq<Gallery>
    var currentImages: seq<string>
    var currentImageIndex: int
    var touchStartX: int
    var touchEndX: int

    // the modal, the body, the slider, the counter and the two buttons
    var modalActive: bool
    var scrollLocked: bool
    var slides: seq<string>
    var offset: int
    var counter: string
    var prevHidden: bool
    var nextHidden: bool

    /** The slideshow's variables and view as one value. */
    function Snapshot(): State
      reads this
    {
      State(currentImages, currentImageIndex, touchStartX, touchEndX,
            View(modalActive, scrollLocked, slides, offset, counter, prevHidden, nextHidden))
    }

    /** The slideshow invariant, read on this page's fields. */
    ghost predicate Valid()
      reads this
    {
      Inv(Snapshot())
    }

    /** The page as loaded: no manifest yet, the slideshow closed and empty. */
    constructor (hasGrid: bool)
      ensures this.hasGrid == hasGrid && grid == Markup && allGalleries == []
      ensures Snapshot() == State([], 0, 0, 0, View(false, false, [], 0, "", false, false))
      ensures Valid()
    {
      this.hasGrid := hasGrid;
      grid := Markup;
      allGalleries := [];
      currentImages := [];
      currentImageIndex := 0;
      touchStartX := 0;
      touchEndX := 0;
      modalActive := false;
      scrollLocked := false;
      slides := [];
      offset := 0;
      counter := "";
      prevHidden := false;
      nextHidden := false;
    }

    /**
     * `loadGalleryData` once the fetch has settled: `manifest` is the parsed
     * manifest, or `None` when the request or the parse failed.
     */
    method LoadGalleryData(manifest: Option<seq<Gallery>>)
      modifies this`allGalleries, this`grid
      ensures manifest.Some? ==> allGalleries == manifest.value &&
                                 grid == (if hasGrid then GridFor(manifest.value) else old(grid))
      ensures manifest.None? ==> allGalleries == old(allGalleries) &&
                                 grid == (if hasGrid then Notice(LOAD_FAILED_TEXT) else old(grid))
    {
      match manifest
      case Some(galleries) =>
        allGalleries := galleries;
        BuildGalleryGrid();
      case None =>
        if hasGrid {
          grid := Notice(LOAD_FAILED_TEXT);
        }
    }

    /** `buildGalleryGrid`: a message for an empty manifest, else one card per listed entry. */
    method BuildGalleryGrid()
      modifies this`grid
      ensures grid == if hasGrid then GridFor(allGalleries) else old(grid)
    {
      if !hasGrid {
        return;
      }
      if |allGalleries| == 0 {
        grid := Notice(NO_GALLERIES_TEXT);
        return;
      }
      grid := Cards([]);
      var k := 0;
      while k < |allGalleries|
        invariant 0 <= k <= |allGalleries|
        invariant grid == Cards(CardsOf(allGalleries[..k]))
      {
        var gallery := allGalleries[k];
        assert allGalleries[..k + 1][..k] == allGalleries[..k];
        if IsListed(gallery) {
          grid := Cards(grid.cards + [CardOf(gallery)]);
        }
        k := k + 1;
      }
      assert allGalleries[..k] == allGalleries;
    }

    /** A click on card k of the grid opens the card's gallery. */
    method ClickCard(k: nat)
      requires grid.Cards? && k < |grid.cards|
      modifies this`currentImages, this`currentImageIndex, this`slides, this`offset, this`counter,
               this`prevHidden, this`nextHidden, this`modalActive, this`scrollLocked
      ensures old(Valid()) ==> Valid()
      ensures Snapshot() == Open(allGalleries, old(Snapshot()), grid.cards[k].galleryId, RejectsEmpty)
    {
      OpenGallery(grid.cards[k].galleryId);
    }

    /** `openGallery(galleryId)`. */
    method OpenGallery(galleryId: string)
      modifies this`currentImages, this`currentImageIndex, this`slides, this`offset, this`counter,
               this`prevHidden, this`nextHidden, this`modalActive, this`scrollLocked
      ensures old(Valid()) ==> Valid()
      ensures Snapshot() == Open(allGalleries, old(Snapshot()), galleryId, RejectsEmpty)
    {
      if Valid() {
        OpenKeepsInv(allGalleries, Snapshot(), galleryId);
      }
      var gallery := Find(allGalleries, galleryId);
      if gallery.None? || gallery.value.images.None? || |gallery.value.images.value| == 0 {
        return;
      }
      var id := gallery.value.id.value;
      currentImages := gallery.value.images.value;
      currentImageIndex := 0;
      slides := [];
      var k := 0;
      while k < |currentImages|
        invariant 0 <= k <= |currentImages| && |slides| == k
        invariant forall j :: 0 <= j < k ==> slides[j] == ImagePath(galleryId, currentImages[j])
        modifies this`slides
      {
        slides := slides + [ImagePath(id, currentImages[k])];
        k := k + 1;
      }
      assert slides == SlidePaths(galleryId, currentImages);
      ShowImage(0);
      modalActive := true;
      scrollLocked := true;
    }

    /** `closeGallery`. */
    method CloseGallery()
      modifies this`modalActive, this`scrollLocked, this`slides, this`currentImages
      ensures old(Valid()) ==> Valid()
      ensures Snapshot() == Close(old(Snapshot()))
    {
      modalActive := false;
      scrollLocked := false;
      slides := [];
      currentImages := [];
    }

    /** `nextImage`. */
    method NextImage()
      modifies this`currentImageIndex, this`offset, this`counter, this`prevHidden, this`nextHidden
      ensures old(Valid()) ==> Valid()
      ensures Snapshot() == Next(old(Snapshot()))
    {
      if currentImageIndex < |currentImages| - 1 {
        ShowImage(currentImageIndex + 1);
      }
    }

    /** `prevImage`. */
    method PrevImage()
      modifies this`currentImageIndex, this`offset, this`counter, this`prevHidden, this`nextHidden
      ensures old(Valid()) ==> Valid()
      ensures Snapshot() == Prev(old(Snapshot()))
    {
      if currentImageIndex > 0 {
        ShowImage(currentImageIndex - 1);
      }
    }

    /** `showImage(index)`. */
    method ShowImage(index: int)
      modifies this`currentImageIndex, this`offset, this`counter, this`prevHidden, this`nextHidden
      ensures old(Valid()) ==> Valid()
      ensures Snapshot() == Show(old(Snapshot()), index)
    {
      if index < 0 || index >= |currentImages| {
        return;
      }
      ShowEffect(Snapshot(), index);
      currentImageIndex := index;
      offset := -(index * 100);
      counter := CounterText(index + 1, |currentImages|);
      prevHidden := index == 0;
      nextHidden := index == |currentImages| - 1;
    }

    /** The document's keydown listener. */
    method HandleKeyDown(key: string)
      modifies this`currentImageIndex, this`offset, this`counter, this`prevHidden, this`nextHidden,
               this`modalActive, this`scrollLocked, this`slides, this`currentImages
      ensures old(Valid()) ==> Valid()
      ensures Snapshot() == OnKeyDown(old(Snapshot()), key)
    {
      if !modalActive {
        return;
      }
      if key == "ArrowRight" {
        NextImage();
      } else if key == "ArrowLeft" {
        PrevImage();
      } else if key == "Escape" {
        CloseGallery();
      }
    }

    /** The slider's touchstart listener; `x` is the first touch's horizontal position. */
    method HandleTouchStart(x: int)
      modifies this`touchStartX, this`touchEndX
      ensures old(Valid()) ==> Valid()
      ensures Snapshot() == OnTouchStart(old(Snapshot()), x)
    {
      touchStartX := x;
      touchEndX := 0;
    }

    /** The slider's touchmove listener. */
    method HandleTouchMove(x: int)
      modifies this`touchEndX
      ensures old(Valid()) ==> Valid()
      ensures Snapshot() == OnTouchMove(old(Snapshot()), x)
    {
      touchEndX := x;
    }

    /** The slider's touchend listener. */
    method HandleTouchEnd()
      modifies this`currentImageIndex, this`offset, this`counter, this`prevHidden, this`nextHidden,
               this`touchStartX, this`touchEndX
      ensures old(Valid()) ==> Valid()
      ensures Snapshot() == OnTouchEnd(old(Snapshot()))
    {
      if touchEndX == 0 {
        return;
      }
      var swipeDistance := touchStartX - touchEndX;
      if swipeDistance > MIN_SWIPE_DISTANCE {
        NextImage();
      } else if swipeDistance < -MIN_SWIPE_DISTANCE {
        PrevImage();
      }
      if Valid() {
        InvIgnoresTouch(Snapshot(), 0, 0);
      }
      touchStartX := 0;
      touchEndX := 0;
    }
  }
}
