/**
 * What both variants of `getAllProperties` take: the search options and the
 * default `limit`.
 */
module Search {
  import opened Wrappers

  /** The `limit` used when the caller passes none. */
  const DefaultLimit: int := 10

  /**
   * The search options. `None` stands for a property that is missing
   * (`undefined`) or `null`; a present value may still be falsy.
   */
  datatype SearchOptions = SearchOptions(
    ownerId: Option<int>,
    city: Option<string>,
    minimumPricePerNight: Option<int>,
    maximumPricePerNight: Option<int>,
    minimumRating: Option<int>)
}
