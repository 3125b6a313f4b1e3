/**
 * The signed-in user as the admin pages see it (the `useAuth` hook itself is
 * not part of this model): the id of the user's restaurant, which may be
 * missing altogether or present but empty.
 */
module Session {
  import opened Types

  /** `user?.restaurant` reduced to its id: `None` when there is no user or no
      restaurant, `Some("")` when the restaurant carries no id. */
  type RestaurantRef = Option<string>

  /** Whether a page must look the restaurant up before it can call the API:
      `!restaurantId` on a present restaurant. */
  predicate NeedsLookup(restaurant: RestaurantRef) {
    restaurant == Some("")
  }

  /** The restaurant id a handler proceeds with: the user's own when it is
      non-empty, otherwise the id the lookup returned; `None` means the
      handler stops (no restaurant at all, or the lookup failed). */
  function Resolve(restaurant: RestaurantRef, lookup: Outcome<string>): (r: Option<string>)
    ensures restaurant.None? ==> r.None?
    ensures restaurant.Some? && !NeedsLookup(restaurant) ==> r == restaurant
    ensures NeedsLookup(restaurant) ==> (r.Some? <==> lookup.Ok?)
    ensures NeedsLookup(restaurant) && lookup.Ok? ==> r == Some(lookup.value)
  {
    match restaurant
    case None => None
    case Some(id) =>
      if id != "" then Some(id)
      else match lookup
        case Ok(found) => Some(found)
        case Failed => None
  }

  /** The lookup outcome matters only when the user's restaurant has no id. */
  lemma ResolveIgnoresLookup(restaurant: RestaurantRef, l1: Outcome<string>, l2: Outcome<string>)
    requires !NeedsLookup(restaurant)
    ensures Resolve(restaurant, l1) == Resolve(restaurant, l2)
  {
  }
}
