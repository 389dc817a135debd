/** The records of the application's data model (`types.ts`), with only the fields the model computes. */
module Types {
  import opened Wrappers

  datatype Review = Review(id: int, author: string, rating: int, comment: string, date: string)

  datatype Theme = Theme(bg: string, text: string, border: string, icon_color: string)

  datatype BookingRule = BookingRule(name: string, description: string, badge_text: string, ui_theme: Theme)

  datatype RoomType = RoomType(id: int, name: string, image_path: string, more_images: Option<seq<string>>)

  datatype NearbyPlace = NearbyPlace(
    id: int,
    name: string,
    description: string,
    latitude: Option<real>,
    longitude: Option<real>,
    image_url: Option<string>,
    images: Option<seq<string>>,
    more_images: Option<seq<string>>,
    detail_content: Option<string>)

  datatype Resort = Resort(
    id: int,
    name: string,
    brand: string,
    latitude: real,
    longitude: real,
    thumbnail_url: string,
    facilities: seq<string>,
    booking_rule: BookingRule,
    reviews: seq<Review>,
    images: seq<string>,
    rooms: seq<RoomType>,
    nearby_places: seq<NearbyPlace>)

  datatype FilterState = FilterState(searchQuery: string, selectedRegion: string, selectedBrand: string)
}
