/**
 * The world-map and chat records the game-data store holds
 * (src/context/BitCraftContext.tsx). A clock value is an opaque number of
 * milliseconds. Every JavaScript number (coordinates, sizes, quantities,
 * clock values) is modelled as an unbounded whole number.
 */
module GameTypes {

  /** A wall-clock reading in milliseconds (`Date.now()`, `new Date()`), supplied from outside the model. */
  type Time = int

  datatype Coordinates = Coordinates(x: int, y: int)

  datatype Size = Size(width: int, height: int)

  /** The closed set of resource types a map resource can have. */
  datatype ResourceKind = Wood | Stone | Iron | Gold | Food | Water

  /** The closed set of claim statuses; the client only observes them. */
  datatype ClaimStatus = Active | Inactive | UnderAttack

  datatype Resource = Resource(
    id: string,
    name: string,
    kind: ResourceKind,
    quantity: int,
    maxQuantity: int,
    coordinates: Coordinates)

  datatype Claim = Claim(
    id: string,
    name: string,
    owner: string,
    coordinates: Coordinates,
    status: ClaimStatus,
    resources: seq<Resource>)

  datatype WorldMap = WorldMap(
    id: string,
    name: string,
    size: Size,
    claims: seq<Claim>,
    resources: seq<Resource>)

  /**
   * A chat message. The channel is kept as the string the caller passed: the
   * store casts it into the message without checking it against
   * 'global' | 'empire' | 'claim'.
   */
  datatype ChatMessage = ChatMessage(
    id: string,
    sender: string,
    message: string,
    timestamp: Time,
    channel: string)

  const GlobalChannel: string := "global"
  const EmpireChannel: string := "empire"
  const ClaimChannel: string := "claim"

  /** One of the three channels the type declares. */
  predicate IsKnownChannel(channel: string) {
    channel == GlobalChannel || channel == EmpireChannel || channel == ClaimChannel
  }

  /** The resource invariant 0 <= quantity <= maxQuantity that every mock value meets; live data is not checked against it. */
  predicate InStock(r: Resource) {
    0 <= r.quantity <= r.maxQuantity
  }

  /** Every resource of the map, loose or inside a claim, satisfies the resource invariant. */
  predicate WellStocked(m: WorldMap) {
    && (forall r <- m.resources :: InStock(r))
    && (forall c <- m.claims :: forall r <- c.resources :: InStock(r))
  }
}
