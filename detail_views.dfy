/** The image lists and texts the room and nearby-place detail views show (`DetailViews.tsx`). */
module DetailViews {
  import opened Wrappers
  import opened Lists
  import opened Types

  /** `roomImages`: the room's main image followed by its further images, if any. */
  function RoomImages(room: RoomType): (r: seq<string>)
    ensures |r| == 1 + |room.more_images.GetOr([])|
    ensures r[0] == room.image_path && r[1..] == room.more_images.GetOr([])
  {
    [room.image_path] + room.more_images.GetOr([])
  }

  /** `rawImages`: the place's image, then `images`, then `more_images`, without the falsy entries. */
  function RawImages(place: NearbyPlace): (r: seq<string>)
    ensures "" !in r
    ensures forall v :: v in r <==>
              v != "" && (place.image_url == Some(v) || v in place.images.GetOr([]) || v in place.more_images.GetOr([]))
    ensures place.image_url.Some? && place.image_url.value != "" ==> |r| > 0 && r[0] == place.image_url.value
  {
    var a, b := place.images.GetOr([]), place.more_images.GetOr([]);
    var xs := [place.image_url] + Lift(a) + Lift(b);
    forall v ensures Some(v) in xs <==> place.image_url == Some(v) || v in a || v in b {
      LiftMembers(a, v);
      LiftMembers(b, v);
    }
    assert xs == [place.image_url] + (Lift(a) + Lift(b));
    Truthy(xs)
  }

  lemma LiftMembers(a: seq<string>, v: string)
    ensures Some(v) in Lift(a) <==> v in a
  {
  }

  /** `placeImages`: the raw images with the repeats removed. */
  function PlaceImages(place: NearbyPlace): (r: seq<string>)
    ensures "" !in r
    ensures NoDups(r)
    ensures forall v :: v in r <==>
              v != "" && (place.image_url == Some(v) || v in place.images.GetOr([]) || v in place.more_images.GetOr([]))
    ensures place.image_url.Some? && place.image_url.value != "" ==> |r| > 0 && r[0] == place.image_url.value
  {
    Dedup(RawImages(place))
  }

  /** The place images keep the order in which each image first occurs among the sources. */
  lemma PlaceImagesInFirstOccurrenceOrder(place: NearbyPlace)
    ensures forall i, j :: 0 <= i < j < |PlaceImages(place)| ==>
              FirstIndex(RawImages(place), PlaceImages(place)[i]) < FirstIndex(RawImages(place), PlaceImages(place)[j])
  {
    DedupKeepsFirstOccurrenceOrder(RawImages(place));
  }

  /** The gallery is rendered only when there is a place image. */
  predicate GalleryShown(place: NearbyPlace) {
    |PlaceImages(place)| > 0
  }

  /** The gallery is shown exactly when some image source of the place is non-empty. */
  lemma GalleryShownIffSomeImage(place: NearbyPlace)
    ensures GalleryShown(place) <==>
              (place.image_url.Some? && place.image_url.value != "")
              || (exists v :: v in place.images.GetOr([]) && v != "")
              || (exists v :: v in place.more_images.GetOr([]) && v != "")
  {
    var r := PlaceImages(place);
    if |r| > 0 {
      assert r[0] in r;
    }
  }

  /** The "About" text: the detail content when it is non-empty, else the description. */
  function AboutText(place: NearbyPlace): (t: string)
    ensures place.detail_content.Some? && place.detail_content.value != "" ==> t == place.detail_content.value
    ensures place.detail_content.None? || place.detail_content.value == "" ==> t == place.description
  {
    if place.detail_content.Some? && place.detail_content.value != "" then place.detail_content.value else place.description
  }
}
