/**
 * The gallery section of the site script (script.js): the same slideshow as
 * gallery.js, reached through trigger elements that carry a gallery id
 * instead of a generated grid. Its `openGallery` guard differs: an entry whose
 * image list is present but empty is opened (`AcceptsEmpty`).
 */
module PortfolioScript {
  import opened Wrappers
  import opened Text
  import opened Manifest
  import opened Slideshow

  /** What `initializeGalleryTriggers` did with one trigger: wired it to open its gallery, or warned. */
  datatype Wiring = Opens(galleryId: string) | Warned(galleryId: string)

  /** Trigger k is wired exactly when some manifest entry carries its id. */
  ghost predicate IsWiringOf(wiring: seq<Wiring>, galleries: seq<Gallery>, triggerIds: seq<string>) {
    |wiring| == |triggerIds| &&
    forall k :: 0 <= k < |triggerIds| ==>
      wiring[k].galleryId == triggerIds[k] &&
      (wiring[k].Opens? <==> exists i :: 0 <= i < |galleries| && galleries[i].id == Some(triggerIds[k]))
  }

  class PortfolioGallery {
    var allGalleries: seq<Gallery>
    /** The page's triggers as wired, in document order. */
    var triggers: seq<Wiring>

    var currentImages: seq<string>
    var currentImageIndex: int
    var touchStartX: int
    var touchEndX: int

    // the modal, the body, the slider, the counter and the two buttons
    var modalActive: bool
    var scrollLocked: bool
    var slides: seq<string>
    var offset: int
    var counter: string
    var prevHidden: bool
    var nextHidden: bool

    /** The slideshow's variables and view as one value. */
    function Snapshot(): State
      reads this
    {
      State(currentImages, currentImageIndex, touchStartX, touchEndX,
            View(modalActive, scrollLocked, slides, offset, counter, prevHidden, nextHidden))
    }

    /** The page as loaded: no manifest yet, no trigger wired, the slideshow closed and empty. */
    constructor ()
      ensures allGalleries == [] && triggers == []
      ensures Snapshot() == State([], 0, 0, 0, View(false, false, [], 0, "", false, false))
      ensures Inv(Snapshot())
    {
      allGalleries := [];
      triggers := [];
      currentImages := [];
      currentImageIndex := 0;
      touchStartX := 0;
      touchEndX := 0;
      modalActive := false;
      scrollLocked := false;
      slides := [];
      offset := 0;
      counter := "";
      prevHidden := false;
      nextHidden := false;
    }

    /**
     * `loadGalleryData` once the fetch has settled: `manifest` is the parsed
     * manifest, or `None` when the request or the parse failed; `triggerIds`
     * are the gallery ids of the page's trigger elements, in document order.
     */
    method LoadGalleryData(manifest: Option<seq<Gallery>>, triggerIds: seq<string>)
      modifies this`allGalleries, this`triggers
      ensures manifest.Some? ==> allGalleries == manifest.value && IsWiringOf(triggers, allGalleries, triggerIds)
      ensures manifest.None? ==> allGalleries == old(allGalleries) && triggers == old(triggers)
    {
      match manifest
      case Some(galleries) =>
        allGalleries := galleries;
        triggers := InitializeGalleryTriggers(triggerIds);
      case None =>
    }

    /** `initializeGalleryTriggers`: wires each trigger whose id the manifest knows, warns about the others. */
    method InitializeGalleryTriggers(triggerIds: seq<string>) returns (wiring: seq<Wiring>)
      ensures |wiring| == |triggerIds|
      ensures forall k :: 0 <= k < |triggerIds| ==>
                wiring[k].galleryId == triggerIds[k] &&
                (wiring[k].Opens? <==> exists i :: 0 <= i < |allGalleries| && allGalleries[i].id == Some(triggerIds[k]))
    {
      wiring := [];
      var k := 0;
      while k < |triggerIds|
        invariant 0 <= k <= |triggerIds| && |wiring| == k
        invariant forall j :: 0 <= j < k ==>
                    wiring[j].galleryId == triggerIds[j] && (wiring[j].Opens? <==> AnyHasId(allGalleries, triggerIds[j]))
      {
        var galleryId := triggerIds[k];
        var galleryExists := AnyHasId(allGalleries, galleryId);
        if galleryExists {
          wiring := wiring + [Opens(galleryId)];
        } else {
          wiring := wiring + [Warned(galleryId)];
        }
        k := k + 1;
      }
    }

    /** A click on trigger k: a wired trigger opens its gallery, an inert one does nothing. */
    method ClickTrigger(k: nat)
      requires k < |triggers|
      modifies this`currentImages, this`currentImageIndex, this`slides, this`offset, this`counter,
               this`prevHidden, this`nextHidden, this`modalActive, this`scrollLocked
      ensures Snapshot() == if triggers[k].Opens?
                            then Open(allGalleries, old(Snapshot()), triggers[k].galleryId, AcceptsEmpty)
                            else old(Snapshot())
    {
      if triggers[k].Opens? {
        OpenGallery(triggers[k].galleryId);
      }
    }

    /** `openGallery(galleryId)` as written: a found entry with an empty image list is not refused. */
    method OpenGallery(galleryId: string)
      modifies this`currentImages, this`currentImageIndex, this`slides, this`offset, this`counter,
               this`prevHidden, this`nextHidden, this`modalActive, this`scrollLocked
      ensures Snapshot() == Open(allGalleries, old(Snapshot()), galleryId, AcceptsEmpty)
    {
      var gallery := Find(allGalleries, galleryId);
      // The emptiness test compares `!images.length`, a boolean, with 0, so it never holds.
      var emptinessTest := false;
      if gallery.None? || gallery.value.images.None? || emptinessTest {
        return;
      }
      var id := gallery.value.id.value;
      currentImages := gallery.value.images.value;
      currentImageIndex := 0;
      slides := [];
      var k := 0;
      while k < |currentImages|
        invariant 0 <= k <= |currentImages| && |slides| == k
        invariant forall j :: 0 <= j < k ==> slides[j] == ImagePath(galleryId, currentImages[j])
        modifies this`slides
      {
        slides := slides + [ImagePath(id, currentImages[k])];
        k := k + 1;
      }
      assert slides == SlidePaths(galleryId, currentImages);
      ShowImage(0);
      modalActive := true;
      scrollLocked := true;
    }

    /** `closeGallery`. */
    method CloseGallery()
      modifies this`modalActive, this`scrollLocked, this`slides, this`currentImages
      ensures Snapshot() == Close(old(Snapshot()))
    {
      modalActive := false;
      scrollLocked := false;
      slides := [];
      currentImages := [];
    }

    /** `nextImage`. */
    method NextImage()
      modifies this`currentImageIndex, this`offset, this`counter, this`prevHidden, this`nextHidden
      ensures Snapshot() == Next(old(Snapshot()))
    {
      if currentImageIndex < |currentImages| - 1 {
        ShowImage(currentImageIndex + 1);
      }
    }

    /** `prevImage`. */
    method PrevImage()
      modifies this`currentImageIndex, this`offset, this`counter, this`prevHidden, this`nextHidden
      ensures Snapshot() == Prev(old(Snapshot()))
    {
      if currentImageIndex > 0 {
        ShowImage(currentImageIndex - 1);
      }
    }

    /** `showImage(index)`. */
    method ShowImage(index: int)
      modifies this`currentImageIndex, this`offset, this`counter, this`prevHidden, this`nextHidden
      ensures Snapshot() == Show(old(Snapshot()), index)
    {
      if index < 0 || index >= |currentImages| {
        return;
      }
      currentImageIndex := index;
      offset := -(index * 100);
      counter := CounterText(index + 1, |currentImages|);
      prevHidden := index == 0;
      nextHidden := index == |currentImages| - 1;
    }

    /** The document's keydown listener. */
    method HandleKeyDown(key: string)
      modifies this`currentImageIndex, this`offset, this`counter, this`prevHidden, this`nextHidden,
               this`modalActive, this`scrollLocked, this`slides, this`currentImages
      ensures Snapshot() == OnKeyDown(old(Snapshot()), key)
    {
      if !modalActive {
        return;
      }
      if key == "ArrowRight" {
        NextImage();
      } else if key == "ArrowLeft" {
        PrevImage();
      } else if key == "Escape" {
        CloseGallery();
      }
    }

    /** The slider's touchstart listener; `x` is the first touch's horizontal position. */
    method HandleTouchStart(x: int)
      modifies this`touchStartX, this`touchEndX
      ensures Snapshot() == OnTouchStart(old(Snapshot()), x)
    {
      touchStartX := x;
      touchEndX := 0;
    }

    /** The slider's touchmove listener. */
    method HandleTouchMove(x: int)
      modifies this`touchEndX
      ensures Snapshot() == OnTouchMove(old(Snapshot()), x)
    {
      touchEndX := x;
    }

    /** The slider's touchend listener. */
    method HandleTouchEnd()
      modifies this`currentImageIndex, this`offset, this`counter, this`prevHidden, this`nextHidden,
               this`touchStartX, this`touchEndX
      ensures Snapshot() == OnTouchEnd(old(Snapshot()))
    {
      if touchEndX == 0 {
        return;
      }
      var swipeDistance := touchStartX - touchEndX;
      if swipeDistance > MIN_SWIPE_DISTANCE {
        NextImage();
      } else if swipeDistance < -MIN_SWIPE_DISTANCE {
        PrevImage();
      }
      touchStartX := 0;
      touchEndX := 0;
    }
  }
}
