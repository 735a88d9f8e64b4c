# Gallery slideshow controller — a Dafny model

The Rygina portfolio site shows its photo galleries in a modal slideshow. Two
scripts implement it: `Rygina/gallery.js` (the gallery page, which builds a
grid of preview cards from the manifest) and the gallery section of
`Rygina/script.js` (pages whose existing elements carry a `data-gallery-id`
trigger). Both keep the same module-level state: the loaded manifest
(`allGalleries`), the open gallery's image list (`currentImages`), the current
index (`currentImageIndex`) and the two touch positions (`touchStartX`,
`touchEndX`). Both write the same page elements: the modal's `active` class,
the body's `modal-open` class, the slides in the slider, the slider offset,
the counter text, and the `gallery-hidden` class of the previous and next
buttons.

The project has these parts:

- `slideshow.dfy` (module `Slideshow`) is the controller as a state machine on
  values. `Show`, `Next`, `Prev`, `Open`, `Close`, `OnKeyDown` and the three
  touch handlers map a `State` (variables and view) to the next one. `Step` and
  `Run` apply input events. `Inv` is the slideshow invariant: the modal is
  open exactly when there are images, there is one slide per image, scrolling
  is locked while the modal is open, and an open slideshow shows an image
  inside its list. For that image the counter is the text `"<index+1> / <n>"`,
  and the offset and both buttons agree with the index. The two scripts
  differ only in `openGallery`'s guard. That guard is the `OpenGuard`
  parameter: `RejectsEmpty` for gallery.js, `AcceptsEmpty` for script.js.
- `gallery_page.dfy` (class `GalleryScript.GalleryPage`) and
  `portfolio_gallery.dfy` (class `PortfolioScript.PortfolioGallery`) model the
  two scripts imperatively. Their fields are the scripts' variables and the
  elements they write. Their methods are the scripts' functions and event
  listeners. Each method changes only the fields named in its `modifies`
  clause, and it is proved to leave `Snapshot()` equal to the `Slideshow`
  function of the old snapshot. On the gallery page every handler also keeps
  `Valid()`, the invariant read on the page's fields. The loops of `buildGalleryGrid`,
  `openGallery` and `initializeGalleryTriggers` are loops with invariants.
- `manifest.dfy` holds the descriptor type, the `find` and `some` lookups,
  image paths and the grid's card filter. `text.dfy` holds the decimal
  rendering of the counter and a parser showing that the counter text
  determines the position and total it was built from.

Where the code departs from the controller's intended design (a slideshow that resets on close and never opens empty), the model follows the code:

- Closing keeps `currentImageIndex`. It is not reset to 0.
- A touch end with no recorded move (`touchEndX == 0`) returns early. It does
  not reset `touchStartX`. A move that ends at position 0 is also taken for
  "no move".
- script.js opens a found entry whose image list is empty (see Findings).
- The lookup takes the first entry with the requested id. A card whose id an
  earlier entry also carries opens that earlier entry.

## Model

| member | source | states |
|---|---|---|
| `Text.NatToString` | Rygina/gallery.js:173 | a number prints as a non-empty run of decimal digits, with a leading 0 only for 0 itself |
| `Text.ParseNatToString` | Rygina/gallery.js:173 | reading the printed digits back gives the number |
| `Text.CounterRoundTrip` | Rygina/gallery.js:173 | the counter text `"<position> / <total>"` reads back as exactly that position and total |
| `Text.CounterTextInjective` | Rygina/script.js:255 | two counters are the same text only when they show the same position and total |
| `Manifest.Find` | Rygina/gallery.js:100 | the lookup misses exactly when no entry carries the id; otherwise it returns an entry with that id before which no entry carries it |
| `Manifest.AnyHasId` | Rygina/script.js:165 | true exactly when some entry carries the id |
| `Manifest.CardsOfOrigins` | Rygina/gallery.js:59-85 | the grid's cards correspond one to one, in manifest order, to the entries with a title, an id and a non-empty image list; each card's cover is the entry's first image under the base path and the gallery id |
| `Manifest.NoListedEntriesNoCards` | Rygina/gallery.js:61-63 | a manifest whose entries all lack a title, an id or images gives no card |
| `Slideshow.ShowEffect` | Rygina/gallery.js:161-179 | `showImage(i)` outside `[0, n)` changes nothing; inside it sets the index to i, the offset to -100·i, the counter text to `"<i+1> / <n>"` (which reads back as exactly i+1 and n), prev hidden iff i = 0 and next hidden iff i = n-1, and nothing else |
| `Slideshow.NavigationSteps` | Rygina/gallery.js:143-156 | inside the list, next and previous move the index by exactly one; at the last and the first image they change nothing, also when repeated; there is no wrap-around |
| `Slideshow.CloseEffect` | Rygina/gallery.js:132-138 | closing empties the image list and the slider, deactivates the modal and unlocks scrolling; it keeps the index, the slider offset, the counter text, both button flags and both touch positions; afterwards next, previous and showImage change nothing |
| `Slideshow.OpenEffect` | Rygina/gallery.js:99-127 | a refused open (unknown id, no image list, and for gallery.js an empty one) changes nothing; an admitted one installs the entry's images at index 0, one slide per image, opens the modal and locks scrolling, and for n > 0 images shows "1 / n" with prev hidden and next hidden iff n = 1 |
| `Slideshow.OpenSlidePaths` | Rygina/gallery.js:113-119 | slide k of an opened gallery is `Rygina/galleries/<id>/<image k>` |
| `Slideshow.CardOpensItsGallery` | Rygina/gallery.js:80-82 | clicking the card of a listed entry opens that entry's images at the first image, when no earlier entry has the same id |
| `Slideshow.KeyDownEffect` | Rygina/script.js:278-289 | keys are ignored while the modal is inactive; otherwise ArrowRight is next, ArrowLeft is previous, Escape closes, and any other key does nothing |
| `Slideshow.SwipeGesture` | Rygina/gallery.js:205-231 | a touch start at x0, a move to x1 and a touch end navigate at most once: next if x0 - x1 > 50, previous if x0 - x1 < -50, else nothing; positions reset to 0, except when x1 = 0, which counts as no move and leaves the start position |
| `Slideshow.SwipeSymmetry` | Rygina/script.js:302-319 | reversing a recorded swipe reverses its direction, and a too-short swipe stays too short |
| `Slideshow.StepKeepsInv` | Rygina/gallery.js:99-231 | with gallery.js's guard, every input event (open, close, next, previous, key, touch) keeps the slideshow invariant |
| `Slideshow.RunKeepsInv` | Rygina/gallery.js:99-231 | with gallery.js's guard, any sequence of input events from a state satisfying the invariant keeps it |
| `Slideshow.NavigationKeepsBounds` | Rygina/script.js:226-249 | from an index inside the list, any sequence of events other than open and close keeps the image list and an index inside it |
| `Slideshow.ScriptNavigationKeepsBounds` | Rygina/script.js:188-189 | after opening a gallery with images, any such sequence keeps `0 <= currentImageIndex < |currentImages|` over that gallery's images |
| `Slideshow.ReopenReproducesOpen` | Rygina/script.js:181-221 | open, close, then open of the same gallery gives exactly the state of the first open |
| `Slideshow.GuardsDifferOnlyOnEmpty` | Rygina/script.js:183 | the two scripts' opens differ only on an entry whose image list is present and empty |
| `Slideshow.ScriptOpensEmptyGallery` | Rygina/script.js:183-209 | script.js opens an entry with an empty image list: the modal becomes active with no slides and no images, the counter, offset and buttons keep their old values, and the invariant fails |
| `Slideshow.ScriptGuardAdmitsEmptyGallery` | Rygina/script.js:183 | for the manifest with one entry whose image list is empty, gallery.js's open changes nothing while script.js's open breaks the invariant |
| `Slideshow.ThreeImageCounters` | Rygina/script.js:255 | the counters of a three-image gallery read "1 / 3", "2 / 3" and "3 / 3" |
| `Slideshow.ThreeImageOpen` | Rygina/gallery.js:106-126 | opening a three-image gallery shows "1 / 3", hides prev, shows next, and activates the modal |
| `Slideshow.MissingIdIgnored` | Rygina/gallery.js:100-104 | opening an id that no entry carries leaves the page state unchanged |
| `Slideshow.ThreeImageNavigation` | Rygina/gallery.js:143-178 | next twice reaches "3 / 3" with next hidden, a third next changes nothing, and previous twice returns to "1 / 3" |
| `Slideshow.ThreeImageSlides` | Rygina/gallery.js:114 | the slides of gallery "a" are `Rygina/galleries/a/1.jpg`, `…/2.jpg` and `…/3.jpg` |
| `GalleryScript.GalleryPage.constructor` | Rygina/gallery.js:14-19 | the page starts with no manifest and a closed, empty slideshow that satisfies the invariant |
| `GalleryScript.GalleryPage.LoadGalleryData` | Rygina/gallery.js:26-41 | a loaded manifest is stored and the grid is built from it; a failed load shows the fallback message in the grid and keeps the manifest |
| `GalleryScript.GalleryPage.BuildGalleryGrid` | Rygina/gallery.js:46-91 | on a page with a grid: "No galleries found." for an empty manifest, else exactly the cards of the listed entries; without a grid, nothing changes |
| `GalleryScript.GalleryPage.ClickCard` | Rygina/gallery.js:80-82 | a card click opens the card's gallery id; the page keeps the slideshow invariant |
| `GalleryScript.GalleryPage.OpenGallery` | Rygina/gallery.js:99-127 | the new slideshow state is `Open` with the guard that refuses empty image lists; the page keeps the slideshow invariant |
| `GalleryScript.GalleryPage.CloseGallery` | Rygina/gallery.js:132-138 | the new slideshow state is `Close` of the old one; the page keeps the slideshow invariant |
| `GalleryScript.GalleryPage.NextImage` | Rygina/gallery.js:143-147 | the new slideshow state is `Next` of the old one; the page keeps the slideshow invariant |
| `GalleryScript.GalleryPage.PrevImage` | Rygina/gallery.js:152-156 | the new slideshow state is `Prev` of the old one; the page keeps the slideshow invariant |
| `GalleryScript.GalleryPage.ShowImage` | Rygina/gallery.js:161-179 | the new slideshow state is `Show(old, index)`; only index, offset, counter and the two button flags may change; the page keeps the slideshow invariant |
| `GalleryScript.GalleryPage.HandleKeyDown` | Rygina/gallery.js:191-202 | the new slideshow state is `OnKeyDown` of the old one and the key; the page keeps the slideshow invariant |
| `GalleryScript.GalleryPage.HandleTouchStart` | Rygina/gallery.js:205-208 | records the start position and clears the end position; the page keeps the slideshow invariant |
| `GalleryScript.GalleryPage.HandleTouchMove` | Rygina/gallery.js:210-212 | records the latest position; the page keeps the slideshow invariant |
| `GalleryScript.GalleryPage.HandleTouchEnd` | Rygina/gallery.js:214-231 | the new slideshow state is `OnTouchEnd` of the old one; the page keeps the slideshow invariant |
| `PortfolioScript.PortfolioGallery.constructor` | Rygina/script.js:131-136 | the page starts with no manifest, no wired trigger, and a closed, empty slideshow that satisfies the invariant |
| `PortfolioScript.PortfolioGallery.LoadGalleryData` | Rygina/script.js:141-154 | a loaded manifest is stored and every trigger is wired or warned about by whether its id is in it; a failed load changes nothing |
| `PortfolioScript.PortfolioGallery.InitializeGalleryTriggers` | Rygina/script.js:159-176 | one outcome per trigger, in order, for that trigger's id: wired to open it exactly when some manifest entry carries that id, otherwise a warning and no listener |
| `PortfolioScript.PortfolioGallery.ClickTrigger` | Rygina/script.js:168-170 | a wired trigger opens its gallery with script.js's guard; an inert trigger changes nothing |
| `PortfolioScript.PortfolioGallery.OpenGallery` | Rygina/script.js:181-210 | the new slideshow state is `Open` with script.js's guard, which opens an entry whose image list is empty |
| `PortfolioScript.PortfolioGallery.CloseGallery` | Rygina/script.js:215-221 | the new slideshow state is `Close` of the old one |
| `PortfolioScript.PortfolioGallery.NextImage` | Rygina/script.js:226-230 | the new slideshow state is `Next` of the old one |
| `PortfolioScript.PortfolioGallery.PrevImage` | Rygina/script.js:235-239 | the new slideshow state is `Prev` of the old one |
| `PortfolioScript.PortfolioGallery.ShowImage` | Rygina/script.js:244-261 | the new slideshow state is `Show(old, index)` |
| `PortfolioScript.PortfolioGallery.HandleKeyDown` | Rygina/script.js:278-289 | the new slideshow state is `OnKeyDown` of the old one and the key |
| `PortfolioScript.PortfolioGallery.HandleTouchStart` | Rygina/script.js:293-296 | records the start position and clears the end position |
| `PortfolioScript.PortfolioGallery.HandleTouchMove` | Rygina/script.js:298-300 | records the latest position |
| `PortfolioScript.PortfolioGallery.HandleTouchEnd` | Rygina/script.js:302-319 | the new slideshow state is `OnTouchEnd` of the old one |

## Left out

- Fetching and parsing the manifest (`loadGalleryData`'s request and JSON parsing) is I/O. The outcome is a parameter: the parsed entries, or `None` for a failed request or parse. A payload that parses but is not an array is not modelled.
- Manifest fields are modelled as a string (for `images`, a list of strings) or absent. Numbers, `null` and other JSON values in those fields are not modelled.
- The markup itself is not modelled: card HTML, slide `alt` texts, `innerHTML` strings, the `translateX(...)` text. The slider offset is the integer percentage the transform string carries. The modal, body and button classes are booleans.
- `console.warn` and `console.error` output is not modelled. A warned trigger is recorded as `Warned`.
- Lucide icon initialisation is a call into a foreign library.
- The site script's page glue is browser-driven presentation: the mobile menu, the fade-in observer, smooth scrolling and scroll-spy highlighting (Rygina/script.js:1-109).
- Registering event listeners is not modelled. Each listener is a method that is called directly.
- Missing page elements: only the grid's absence (Rygina/gallery.js:47-49) is modelled. The modal, slider, counter and buttons are assumed present. Under that assumption script.js's presence checks (Rygina/script.js:267-275, 279, 292) always pass.
- Touch positions are integers. Browser `clientX` values can be fractional.
- The counter text and button classes the page markup starts with are not known. The constructors start them as the empty string and not hidden.

## Findings

| source | as written | input that shows it | evidently intended | confidence | as-written member | corrected member |
|---|---|---|---|---|---|---|
| Rygina/script.js:183 | `!gallery.images.length === 0` compares a boolean with 0 and is never true, so an empty image list is not refused | manifest `[{id: "empty", title: "Empty", images: []}]`, then `openGallery("empty")`: the modal opens with no slide and a stale counter | refuse an empty image list, as Rygina/gallery.js:101 does | high; not executed | `Slideshow.ScriptGuardAdmitsEmptyGallery` | `Slideshow.RunKeepsInv` |

`PortfolioScript.PortfolioGallery.OpenGallery` models script.js as written
(`AcceptsEmpty`). The gallery page and the invariant proofs use the corrected
guard (`RejectsEmpty`).
