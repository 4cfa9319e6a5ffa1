/**
 * The account records the session store keeps (src/context/AuthContext.tsx).
 * They are a different shape from the map records: a claim here has no owner
 * and its resources carry no type or position.
 */
module AccountTypes {
  import opened Wrappers
  import opened GameTypes

  /** A resource as listed under an account's claim. */
  datatype Stock = Stock(id: string, name: string, quantity: int, maxQuantity: int)

  datatype OwnedClaim = OwnedClaim(
    id: string,
    name: string,
    coordinates: Coordinates,
    status: ClaimStatus,
    resources: seq<Stock>)

  datatype User = User(
    id: string,
    username: string,
    email: string,
    avatar: Option<string>,
    claims: seq<OwnedClaim>,
    empires: seq<Empire>)

  datatype Empire = Empire(
    id: string,
    name: string,
    members: seq<User>,
    claims: seq<OwnedClaim>)

  /** The resource invariant 0 <= quantity <= maxQuantity for an account's stock. */
  predicate StockInRange(s: Stock) {
    0 <= s.quantity <= s.maxQuantity
  }
}
