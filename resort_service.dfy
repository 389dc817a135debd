/** The normalisation the catalog client applies to server records (`resortService.ts`):
    base-URL cleanup, image-URL rewriting, coordinate resolution, the resort transform and
    the query string of the resort search. The fetch calls themselves are not modelled. */
module ResortService {
  import opened Wrappers
  import opened Strings
  import opened Lists
  import opened Types
  import BrandRules

  /** `getBaseUrl` applied to the configured API base URL: one trailing slash removed. */
  function BaseUrl(apiBase: string): (r: string)
    ensures EndsWith(apiBase, "/") ==> r + "/" == apiBase
    ensures !EndsWith(apiBase, "/") ==> r == apiBase
  {
    if EndsWith(apiBase, "/") then apiBase[..|apiBase| - 1] else apiBase
  }

  /** `normalizeImage`. `origin` is the origin of the configured API base URL, or `None`
      when that URL does not parse (the `URL` constructor throws). */
  function NormalizeImage(url: Option<string>, origin: Option<string>): (r: string)
    ensures r == "" <==> url.None? || url.value == ""
    ensures url.Some? && (StartsWith(url.value, "http") || StartsWith(url.value, "data:")) ==> r == url.value
    ensures url.Some? && url.value != "" && !StartsWith(url.value, "http") && !StartsWith(url.value, "data:") ==>
              r == (if origin.None? then url.value
                    else if StartsWith(url.value, "/") then origin.value + url.value
                    else origin.value + "/" + url.value)
    ensures url.Some? ==> EndsWith(r, url.value)
  {
    if url.None? || url.value == "" then ""
    else if StartsWith(url.value, "http") || StartsWith(url.value, "data:") then url.value
    else if origin.None? then url.value
    else origin.value + (if StartsWith(url.value, "/") then "" else "/") + url.value
  }

  /** An origin of an `http:` or `https:` URL makes normalisation idempotent: a rewritten URL
      starts with "http" and is left alone the second time. */
  lemma NormalizeImageIdempotent(url: Option<string>, origin: Option<string>)
    requires origin.Some? ==> StartsWith(origin.value, "http")
    ensures NormalizeImage(Some(NormalizeImage(url, origin)), origin) == NormalizeImage(url, origin)
  {
  }

  /** A raw JSON field as `resolveCoordinate` sees it: `null`, the empty string, or another
      value together with the result of `Number(value)` (`None` for NaN). A key absent from
      the record stands for `undefined`. */
  datatype JsonValue = Null | EmptyString | Other(asNumber: Option<real>)

  /** A key whose value is present, parses to a number and is not zero. */
  predicate Usable(item: map<string, JsonValue>, key: string) {
    key in item && item[key].Other? && item[key].asNumber.Some? && item[key].asNumber.value != 0.0
  }

  /** Position of the first usable key, or `|keys|` when there is none. */
  function FirstUsable(item: map<string, JsonValue>, keys: seq<string>): (k: nat)
    ensures k <= |keys|
    ensures forall i :: 0 <= i < k ==> !Usable(item, keys[i])
    ensures k < |keys| ==> Usable(item, keys[k])
  {
    if keys == [] then 0
    else if Usable(item, keys[0]) then 0
    else 1 + FirstUsable(item, keys[1..])
  }

  /** What `resolveCoordinate(item, keys)` returns: the number of the first usable key. */
  function Coordinate(item: map<string, JsonValue>, keys: seq<string>): (r: Option<real>)
    ensures r.None? <==> forall i :: 0 <= i < |keys| ==> !Usable(item, keys[i])
    ensures r.Some? ==> r.value != 0.0
  {
    var k := FirstUsable(item, keys);
    if k < |keys| then item[keys[k]].asNumber else None
  }

  /** `resolveCoordinate`: the loop over the keys with its early return. */
  method ResolveCoordinate(item: map<string, JsonValue>, keys: seq<string>) returns (r: Option<real>)
    ensures r == Coordinate(item, keys)
  {
    for i := 0 to |keys|
      invariant forall j :: 0 <= j < i ==> !Usable(item, keys[j])
    {
      var key := keys[i];
      if key in item && item[key] != Null && item[key] != EmptyString {
        var parsed := item[key].asNumber;
        if parsed.Some? && parsed.value != 0.0 {
          assert FirstUsable(item, keys) == i;
          return parsed;
        }
      }
    }
    return None;
  }

  const LatitudeKeys: seq<string> := ["latitude", "lat", "mapy"]
  const LongitudeKeys: seq<string> := ["longitude", "lng", "mapx"]

  /** The image lists of a raw record: entries may be absent, `null` (None) or empty. */
  datatype RawRoom = RawRoom(id: int, name: string, image_path: Option<string>, more_images: Option<seq<Option<string>>>)

  datatype RawPlace = RawPlace(
    id: int,
    name: string,
    description: string,
    fields: map<string, JsonValue>,
    image_url: Option<string>,
    imageUrl: Option<string>,
    images: Option<seq<Option<string>>>,
    more_images: Option<seq<Option<string>>>,
    detail_content: Option<string>)

  datatype RawResort = RawResort(
    id: int,
    name: string,
    brand: string,
    application_type: Option<string>,
    fields: map<string, JsonValue>,
    thumbnail_url: Option<string>,
    images: Option<seq<Option<string>>>,
    more_images: Option<seq<Option<string>>>,
    facilities: Option<seq<string>>,
    booking_rule: Option<BookingRule>,
    reviews: Option<seq<Review>>,
    rooms: Option<seq<RawRoom>>,
    nearby_places: Option<seq<RawPlace>>,
    nearbyPlaces: Option<seq<RawPlace>>)

  /** `list.map(normalizeImage)`. */
  function NormalizeAll(xs: seq<Option<string>>, origin: Option<string>): (r: seq<string>)
    ensures |r| == |xs|
    ensures forall i :: 0 <= i < |xs| ==> r[i] == NormalizeImage(xs[i], origin)
  {
    seq(|xs|, i requires 0 <= i < |xs| => NormalizeImage(xs[i], origin))
  }

  /** `kept.map(normalizeImage)` after `.filter(Boolean)`: no entry becomes empty. */
  function NormalizeKept(kept: seq<string>, origin: Option<string>): (r: seq<string>)
    requires forall i :: 0 <= i < |kept| ==> kept[i] != ""
    ensures |r| == |kept|
    ensures forall i :: 0 <= i < |kept| ==> r[i] == NormalizeImage(Some(kept[i]), origin)
    ensures "" !in r
  {
    seq(|kept|, i requires 0 <= i < |kept| => NormalizeImage(Some(kept[i]), origin))
  }

  lemma NormalizeKeptMembers(kept: seq<string>, origin: Option<string>, v: string)
    requires forall i :: 0 <= i < |kept| ==> kept[i] != ""
    ensures v in NormalizeKept(kept, origin) <==> exists u :: u in kept && v == NormalizeImage(Some(u), origin)
  {
  }

  /** The truthy image entries of a record, in gallery order. */
  function GallerySources(thumbnail: Option<string>, images: Option<seq<Option<string>>>,
                          more: Option<seq<Option<string>>>): seq<string>
  {
    Truthy([thumbnail] + images.GetOr([]) + more.GetOr([]))
  }

  /** Deduplicating the normalised truthy sources of a gallery keeps exactly the normalised
      forms of its sources, none of them empty, headed by the normalised thumbnail when that
      is truthy. */
  lemma GalleryKeptFacts(thumbnail: Option<string>, images: Option<seq<Option<string>>>,
                         more: Option<seq<Option<string>>>, origin: Option<string>)
    ensures var r := Dedup(NormalizeKept(GallerySources(thumbnail, images, more), origin));
            NoDups(r) && "" !in r
    ensures var r := Dedup(NormalizeKept(GallerySources(thumbnail, images, more), origin));
            forall v :: v in r <==>
              exists u :: u in GallerySources(thumbnail, images, more) && v == NormalizeImage(Some(u), origin)
    ensures var r := Dedup(NormalizeKept(GallerySources(thumbnail, images, more), origin));
            thumbnail.Some? && thumbnail.value != "" ==> |r| > 0 && r[0] == NormalizeImage(thumbnail, origin)
  {
    var kept := GallerySources(thumbnail, images, more);
    var all := NormalizeKept(kept, origin);
    forall v ensures v in all <==> exists u :: u in kept && v == NormalizeImage(Some(u), origin) {
      NormalizeKeptMembers(kept, origin, v);
    }
    assert thumbnail.Some? && thumbnail.value != "" ==> |kept| > 0 && kept[0] == thumbnail.value by {
      var xs := [thumbnail] + images.GetOr([]) + more.GetOr([]);
      assert xs[0] == thumbnail;
    }
  }

  /** The resort gallery: the thumbnail, then `images`, then `more_images`, with falsy
      entries dropped, every entry normalised and the repeats removed. */
  function ResortImages(thumbnail: Option<string>, images: Option<seq<Option<string>>>,
                        more: Option<seq<Option<string>>>, origin: Option<string>): (r: seq<string>)
    ensures NoDups(r)
    ensures "" !in r
    ensures forall v :: v in r <==>
              exists u :: u in GallerySources(thumbnail, images, more) && v == NormalizeImage(Some(u), origin)
    ensures thumbnail.Some? && thumbnail.value != "" ==> |r| > 0 && r[0] == NormalizeImage(thumbnail, origin)
  {
    GalleryKeptFacts(thumbnail, images, more, origin);
    Dedup(NormalizeKept(GallerySources(thumbnail, images, more), origin))
  }

  /** The gallery keeps the order in which each normalised image first occurs among the
      thumbnail, `images` and `more_images`. */
  lemma ResortImagesInFirstOccurrenceOrder(thumbnail: Option<string>, images: Option<seq<Option<string>>>,
                                           more: Option<seq<Option<string>>>, origin: Option<string>)
    ensures var all := NormalizeKept(GallerySources(thumbnail, images, more), origin);
            var r := ResortImages(thumbnail, images, more, origin);
            forall i, j :: 0 <= i < j < |r| ==> FirstIndex(all, r[i]) < FirstIndex(all, r[j])
  {
    DedupKeepsFirstOccurrenceOrder(NormalizeKept(GallerySources(thumbnail, images, more), origin));
  }

  /** The transform of one room: its images normalised, a missing list read as empty. */
  function TransformRoom(room: RawRoom, origin: Option<string>): (r: RoomType)
    ensures r.id == room.id && r.name == room.name
    ensures r.image_path == NormalizeImage(room.image_path, origin)
    ensures r.more_images == Some(NormalizeAll(room.more_images.GetOr([]), origin))
    ensures |r.more_images.value| == |room.more_images.GetOr([])|
  {
    RoomType(room.id, room.name, NormalizeImage(room.image_path, origin),
             Some(NormalizeAll(room.more_images.GetOr([]), origin)))
  }

  /** The transform of one nearby place: its coordinates resolved (possibly to undefined),
      `image_url` falling back to `imageUrl` when empty, its image lists normalised. */
  function TransformPlace(place: RawPlace, origin: Option<string>): (r: NearbyPlace)
    ensures r.latitude == Coordinate(place.fields, LatitudeKeys)
    ensures r.longitude == Coordinate(place.fields, LongitudeKeys)
    ensures place.image_url.Some? && place.image_url.value != "" ==> r.image_url == Some(NormalizeImage(place.image_url, origin))
    ensures place.image_url.None? || place.image_url.value == "" ==> r.image_url == Some(NormalizeImage(place.imageUrl, origin))
    ensures r.id == place.id && r.name == place.name && r.description == place.description
    ensures r.detail_content == place.detail_content
    ensures r.images == Some(NormalizeAll(place.images.GetOr([]), origin))
    ensures r.more_images == Some(NormalizeAll(place.more_images.GetOr([]), origin))
  {
    var url := if place.image_url.Some? && place.image_url.value != "" then place.image_url else place.imageUrl;
    NearbyPlace(place.id, place.name, place.description,
                Coordinate(place.fields, LatitudeKeys), Coordinate(place.fields, LongitudeKeys),
                Some(NormalizeImage(url, origin)),
                Some(NormalizeAll(place.images.GetOr([]), origin)),
                Some(NormalizeAll(place.more_images.GetOr([]), origin)),
                place.detail_content)
  }

  function TransformRooms(rooms: seq<RawRoom>, origin: Option<string>): (r: seq<RoomType>)
    ensures |r| == |rooms|
    ensures forall i :: 0 <= i < |rooms| ==> r[i] == TransformRoom(rooms[i], origin)
  {
    seq(|rooms|, i requires 0 <= i < |rooms| => TransformRoom(rooms[i], origin))
  }

  function TransformPlaces(places: seq<RawPlace>, origin: Option<string>): (r: seq<NearbyPlace>)
    ensures |r| == |places|
    ensures forall i :: 0 <= i < |places| ==> r[i] == TransformPlace(places[i], origin)
  {
    seq(|places|, i requires 0 <= i < |places| => TransformPlace(places[i], origin))
  }

  /** `transformResortData`: defaults for the missing fields, the booking rule generated when
      the server sends none, coordinates resolved with 0 when unresolved. */
  function TransformResort(data: RawResort, origin: Option<string>): (r: Resort)
    ensures r.latitude == Coordinate(data.fields, LatitudeKeys).GetOr(0.0)
    ensures r.longitude == Coordinate(data.fields, LongitudeKeys).GetOr(0.0)
    ensures Coordinate(data.fields, LatitudeKeys).None? <==> r.latitude == 0.0
    ensures r.facilities == data.facilities.GetOr([]) && r.reviews == data.reviews.GetOr([])
    ensures data.booking_rule.Some? ==> r.booking_rule == data.booking_rule.value
    ensures data.booking_rule.None? ==> r.booking_rule == BrandRules.GenerateBookingRule(data.brand, data.application_type)
    ensures r.thumbnail_url == NormalizeImage(data.thumbnail_url, origin)
    ensures r.images == ResortImages(data.thumbnail_url, data.images, data.more_images, origin)
    ensures r.id == data.id && r.name == data.name && r.brand == data.brand
    ensures r.rooms == TransformRooms(data.rooms.GetOr([]), origin)
    ensures data.nearby_places.Some? ==> r.nearby_places == TransformPlaces(data.nearby_places.value, origin)
    ensures data.nearby_places.None? ==> r.nearby_places == TransformPlaces(data.nearbyPlaces.GetOr([]), origin)
  {
    var rawNearby := if data.nearby_places.Some? then data.nearby_places.value else data.nearbyPlaces.GetOr([]);
    var latitude := Coordinate(data.fields, LatitudeKeys);
    var longitude := Coordinate(data.fields, LongitudeKeys);
    Resort(
      data.id, data.name, data.brand,
      if latitude.Some? then latitude.value else 0.0,
      if longitude.Some? then longitude.value else 0.0,
      NormalizeImage(data.thumbnail_url, origin),
      data.facilities.GetOr([]),
      if data.booking_rule.Some? then data.booking_rule.value
      else BrandRules.GenerateBookingRule(data.brand, data.application_type),
      data.reviews.GetOr([]),
      ResortImages(data.thumbnail_url, data.images, data.more_images, origin),
      TransformRooms(data.rooms.GetOr([]), origin),
      TransformPlaces(rawNearby, origin))
  }

  /** Rank of a query key in the order `getResorts` appends them. */
  function KeyRank(key: string): int {
    if key == "brand" then 0 else if key == "region" then 1 else if key == "keyword" then 2 else 3
  }

  /** The parameters `getResorts` appends to its `URLSearchParams`, in order. */
  method SearchParams(filters: FilterState) returns (params: seq<(string, string)>)
    ensures ("brand", filters.selectedBrand) in params <==> filters.selectedBrand != "ALL"
    ensures ("region", filters.selectedRegion) in params <==> filters.selectedRegion != "ALL"
    ensures ("keyword", filters.searchQuery) in params <==> filters.searchQuery != ""
    ensures forall i :: 0 <= i < |params| ==> KeyRank(params[i].0) < 3
    ensures forall i, j :: 0 <= i < j < |params| ==> KeyRank(params[i].0) < KeyRank(params[j].0)
    ensures forall i :: 0 <= i < |params| ==>
              params[i].1 == (if params[i].0 == "brand" then filters.selectedBrand
                              else if params[i].0 == "region" then filters.selectedRegion
                              else filters.searchQuery)
  {
    params := [];
    if filters.selectedBrand != "ALL" {
      params := params + [("brand", filters.selectedBrand)];
    }
    if filters.selectedRegion != "ALL" {
      params := params + [("region", filters.selectedRegion)];
    }
    if filters.searchQuery != "" {
      params := params + [("keyword", filters.searchQuery)];
    }
  }
}
