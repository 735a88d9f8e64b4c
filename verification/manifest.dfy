/**
 * Gallery descriptors as loaded from the manifest, the lookups both scripts
 * make on them, image paths, and the preview-card filter of the gallery grid.
 */
module Manifest {
  import opened Wrappers

  /** Base path of every gallery's image folder. */
  const GALLERIES_PATH: string := "Rygina/galleries/"

  /**
   * One manifest entry. Each field may be absent from the JSON record
   * (`None`); a present `id` or `title` may still be the empty string.
   */
  datatype Gallery = Gallery(id: Option<string>, title: Option<string>, images: Option<seq<string>>)

  /** JavaScript truthiness of an optional string field. */
  predicate Truthy(field: Option<string>) {
    field.Some? && field.value != ""
  }

  /** Address of one image: base path, gallery id, a slash, the file name. */
  function ImagePath(galleryId: string, imageName: string): string {
    GALLERIES_PATH + galleryId + "/" + imageName
  }

  /** `allGalleries.find(g => g.id === galleryId)`: the first entry with that id. */
  function Find(galleries: seq<Gallery>, galleryId: string): (r: Option<Gallery>)
    ensures r.None? <==> forall i :: 0 <= i < |galleries| ==> galleries[i].id != Some(galleryId)
    ensures r.Some? ==> exists i :: 0 <= i < |galleries| && galleries[i] == r.value && galleries[i].id == Some(galleryId) &&
                                    forall j :: 0 <= j < i ==> galleries[j].id != Some(galleryId)
  {
    if galleries == [] then None
    else if galleries[0].id == Some(galleryId) then Some(galleries[0])
    else
      var r := Find(galleries[1..], galleryId);
      assert forall i :: 1 <= i < |galleries| ==> galleries[i] == galleries[1..][i - 1];
      r
  }

  /** `allGalleries.some(g => g.id === galleryId)`. */
  function AnyHasId(galleries: seq<Gallery>, galleryId: string): (b: bool)
    ensures b <==> exists i :: 0 <= i < |galleries| && galleries[i].id == Some(galleryId)
  {
    if galleries == [] then false
    else
      assert forall i :: 1 <= i < |galleries| ==> galleries[i] == galleries[1..][i - 1];
      galleries[0].id == Some(galleryId) || AnyHasId(galleries[1..], galleryId)
  }

  /** Paths of the slides `openGallery` appends, one per image, in order. */
  function SlidePaths(galleryId: string, images: seq<string>): (paths: seq<string>)
    ensures |paths| == |images|
  {
    seq(|images|, k requires 0 <= k < |images| => ImagePath(galleryId, images[k]))
  }

  /** A preview card: the gallery it opens, its title and its cover image. */
  datatype Card = Card(galleryId: string, title: string, cover: string)

  /** The grid shows a card only for an entry with a title, an id and at least one image. */
  predicate IsListed(g: Gallery) {
    Truthy(g.title) && Truthy(g.id) && g.images.Some? && |g.images.value| > 0
  }

  /** The card of a listed entry; its cover is the entry's first image. */
  function CardOf(g: Gallery): Card
    requires IsListed(g)
  {
    Card(g.id.value, g.title.value, ImagePath(g.id.value, g.images.value[0]))
  }

  /** The cards the grid receives, in the order its loop appends them. */
  function CardsOf(galleries: seq<Gallery>): seq<Card> {
    if galleries == [] then []
    else
      var last := galleries[|galleries| - 1];
      CardsOf(galleries[..|galleries| - 1]) + (if IsListed(last) then [CardOf(last)] else [])
  }

  /**
   * The cards are exactly the listed entries, in manifest order: card k comes
   * from entry origin[k], the origins increase, and every listed entry is one.
   */
  lemma {:induction false} CardsOfOrigins(galleries: seq<Gallery>) returns (origin: seq<nat>)
    ensures |origin| == |CardsOf(galleries)|
    ensures forall k :: 0 <= k < |origin| ==>
              origin[k] < |galleries| && IsListed(galleries[origin[k]]) && CardsOf(galleries)[k] == CardOf(galleries[origin[k]])
    ensures forall k, l :: 0 <= k < l < |origin| ==> origin[k] < origin[l]
    ensures forall i :: 0 <= i < |galleries| && IsListed(galleries[i]) ==> i in origin
  {
    if galleries == [] {
      origin := [];
    } else {
      var n := |galleries| - 1;
      var init := galleries[..n];
      var before := CardsOfOrigins(init);
      assert forall i :: 0 <= i < n ==> init[i] == galleries[i];
      if IsListed(galleries[n]) {
        origin := before + [n];
      } else {
        origin := before;
      }
    }
  }

  /** A manifest without listed entries gives no cards at all. */
  lemma {:induction false} NoListedEntriesNoCards(galleries: seq<Gallery>)
    requires forall i :: 0 <= i < |galleries| ==> !IsListed(galleries[i])
    ensures CardsOf(galleries) == []
  {
    if galleries != [] {
      NoListedEntriesNoCards(galleries[..|galleries| - 1]);
    }
  }
}
