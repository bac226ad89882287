/**
 * The itinerary record as the client reads it from the server
 * (`src/types/index.ts`), reduced to the fields the modelled logic looks at.
 * Dates the dashboard sorts by are kept as their time value in milliseconds.
 */
module Itineraries {
  import opened Wrappers

  datatype Destination = Destination(city: Option<string>, country: Option<string>)

  datatype Budget = Budget(level: Option<string>, estimatedTotal: int)

  datatype Itinerary = Itinerary(
    id: string,
    title: string,
    destination: Option<Destination>,
    status: string,
    createdAtMs: int,
    startDateMs: int,
    budget: Option<Budget>,
    likes: Option<seq<string>>)

  /** `item.destination?.city`, absent when there is no destination or no city. */
  function CityOf(item: Itinerary): Option<string> {
    if item.destination.Some? then item.destination.value.city else None
  }

  /** `item.destination?.country`. */
  function CountryOf(item: Itinerary): Option<string> {
    if item.destination.Some? then item.destination.value.country else None
  }
}
