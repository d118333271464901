/** The record shapes of `src/types.ts`. */
module Types {
  import opened Common

  /** A map coordinate; JavaScript numbers are modelled as exact reals. */
  datatype LatLng = LatLng(lat: real, lng: real)

  /** One restaurant location; the order of a sequence of these is the feed order. */
  datatype LocationInfo = LocationInfo(
    id: string,
    name: string,
    category: string,
    priceRange: string,
    rating: real,
    reviewCount: int,
    openingTime: string,
    likes: int,
    comments: int,
    lat: real,
    lng: real,
    videoUrl: Option<string>,
    imageUrl: Option<string>,
    description: Option<string>,
    youtubeVideoId: Option<string>)

  /** No two locations of the sequence share an id. */
  predicate UniqueIds(locs: seq<LocationInfo>) {
    forall i, j :: 0 <= i < j < |locs| ==> locs[i].id != locs[j].id
  }
}
