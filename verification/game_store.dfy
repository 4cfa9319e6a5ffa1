/**
 * The game-data store of src/context/BitCraftContext.tsx. Each asynchronous
 * operation is one atomic transition from the state before the call to the
 * state once it has settled; the state published while it awaits is
 * `Loading`.
 */
module GameStore {
  import opened Wrappers
  import opened GameTypes
  import opened Gateway
  import BitCraftApi

  /** One world map, one message list, and a single loading flag and error shared by every operation. */
  datatype GameState = GameState(
    worldMap: Option<WorldMap>,
    chatMessages: seq<ChatMessage>,
    isLoading: bool,
    error: Option<string>)

  /** No operation is in flight and no error is shown. */
  predicate Settled(s: GameState) {
    !s.isLoading && s.error.None?
  }

  /** The state before any operation: no map, no messages, settled. */
  function Initial(): (s: GameState)
    ensures s.worldMap.None? && s.chatMessages == []
    ensures Settled(s)
  {
    GameState(None, [], false, None)
  }

  /** What a fetch publishes before it awaits: loading, error cleared, data untouched. */
  function Loading(s: GameState): (t: GameState)
    ensures t.isLoading && t.error.None?
    ensures t.worldMap == s.worldMap && t.chatMessages == s.chatMessages
  {
    s.(isLoading := true, error := None)
  }

  /**
   * `fetchWorldMap`: asks the façade for the map (without bounds) and stores
   * whatever it returns. The façade never throws, so the store always ends
   * settled with a map: the live one when the server delivered it, the mock
   * map otherwise. The messages are untouched.
   */
  function FetchWorldMap(s: GameState, ex: Exchange<WorldMap>): (t: GameState)
    ensures Settled(t) && t.worldMap.Some?
    ensures Delivers(ex) ==> t.worldMap == Some(ex.body.data.value)
    ensures !Delivers(ex) ==> t.worldMap == Some(BitCraftApi.MockWorldMap())
    ensures t.chatMessages == s.chatMessages
  {
    Loading(s).(worldMap := Some(BitCraftApi.GetWorldMap(None, ex).result), isLoading := false)
  }

  /**
   * The single message the chat fetch installs: stamped with the fetch's
   * clock, on a known channel, and never one the user sent.
   */
  function Greeting(at: Time): (m: ChatMessage)
    ensures m.timestamp == at
    ensures IsKnownChannel(m.channel) && m.channel == GlobalChannel
    ensures m.sender != "You"
  {
    ChatMessage("1", "Player1", "Hello everyone!", at, GlobalChannel)
  }

  /** The store's greeting is none of the façade's mock messages, whenever either was stamped: the fetch does not go through the façade. */
  lemma GreetingIsNoMock(at: Time, loadedAt: Time)
    ensures Greeting(at) !in BitCraftApi.MockChatMessages(loadedAt)
  {
  }

  /**
   * `fetchChatMessages`: replaces the whole list with one 'global' message,
   * whatever channel was asked for; it does not consult the façade. The map
   * is untouched and the store ends settled.
   */
  function FetchChatMessages(s: GameState, channel: string, at: Time): (t: GameState)
    ensures Settled(t)
    ensures |t.chatMessages| == 1 && t.chatMessages[0].channel == GlobalChannel
    ensures t.chatMessages[0].sender == "Player1" && t.chatMessages[0].timestamp == at
    ensures t.worldMap == s.worldMap
  {
    Loading(s).(chatMessages := [Greeting(at)], isLoading := false)
  }

  /**
   * `sendChatMessage`: appends one message from 'You' carrying the text and
   * channel exactly as given (no emptiness check here), keeps every earlier
   * message in place, clears the error and leaves the map and the loading
   * flag alone. `id` is the clock reading `Date.now().toString()`.
   */
  function SendChatMessage(s: GameState, message: string, channel: string, id: string, at: Time): (t: GameState)
    ensures |t.chatMessages| == |s.chatMessages| + 1
    ensures t.chatMessages[..|s.chatMessages|] == s.chatMessages
    ensures var m := t.chatMessages[|s.chatMessages|];
      m.sender == "You" && m.message == message && m.channel == channel && m.id == id && m.timestamp == at
    ensures t.worldMap == s.worldMap && t.isLoading == s.isLoading && t.error.None?
  {
    s.(error := None, chatMessages := s.chatMessages + [ChatMessage(id, "You", message, at, channel)])
  }

  /** `fetchClaimStatus`: not yet backed by any request; every id yields no claim. */
  function FetchClaimStatus(claimId: string): (c: Option<Claim>)
    ensures c.None?
  {
    None
  }

  /** `fetchResourceData`: not yet backed by any request; every id yields no resource. */
  function FetchResourceData(resourceId: string): (r: Option<Resource>)
    ensures r.None?
  {
    None
  }

  /** Fetches replace rather than merge: what they leave behind does not depend on what was there. */
  lemma FetchesReplace(s1: GameState, s2: GameState, ex: Exchange<WorldMap>, channel: string, at: Time)
    ensures FetchWorldMap(s1, ex).worldMap == FetchWorldMap(s2, ex).worldMap
    ensures FetchChatMessages(s1, channel, at).chatMessages == FetchChatMessages(s2, channel, at).chatMessages
  {
  }

  /** A message sent and then followed by a chat fetch is gone: nothing from 'You' survives the fetch. */
  lemma SendThenFetchDropsMessage(s: GameState, message: string, channel: string, id: string, sentAt: Time, fetchChannel: string, fetchedAt: Time)
    ensures var t := FetchChatMessages(SendChatMessage(s, message, channel, id, sentAt), fetchChannel, fetchedAt);
      forall m <- t.chatMessages :: m.sender != "You"
  {
  }

  /** Sending two messages in a row keeps the old list as a prefix and the new texts in sending order. */
  lemma SendsAccumulate(s: GameState, a: string, b: string, channel: string, id1: string, id2: string, t1: Time, t2: Time)
    ensures var t := SendChatMessage(SendChatMessage(s, a, channel, id1, t1), b, channel, id2, t2);
      && |t.chatMessages| == |s.chatMessages| + 2
      && t.chatMessages[..|s.chatMessages|] == s.chatMessages
      && t.chatMessages[|s.chatMessages|].message == a
      && t.chatMessages[|s.chatMessages| + 1].message == b
  {
  }

  /** One completed store operation, with the outside inputs it consumed. */
  datatype StoreOp =
    | FetchMap(ex: Exchange<WorldMap>)
    | FetchChat(channel: string, at: Time)
    | Send(message: string, channel: string, id: string, at: Time)

  function Apply(s: GameState, op: StoreOp): GameState {
    match op
    case FetchMap(ex) => FetchWorldMap(s, ex)
    case FetchChat(channel, at) => FetchChatMessages(s, channel, at)
    case Send(message, channel, id, at) => SendChatMessage(s, message, channel, id, at)
  }

  /** Completed operations applied one after the other. */
  function Run(s: GameState, ops: seq<StoreOp>): GameState
    decreases |ops|
  {
    if ops == [] then s else Run(Apply(s, ops[0]), ops[1..])
  }

  /**
   * Because no reachable path sets an error, a store that starts settled is
   * settled again after any sequence of completed operations, and once it
   * holds a map it keeps one.
   */
  lemma {:induction false} RunStaysSettled(s: GameState, ops: seq<StoreOp>)
    requires Settled(s)
    ensures Settled(Run(s, ops))
    ensures s.worldMap.Some? ==> Run(s, ops).worldMap.Some?
    decreases |ops|
  {
    if ops != [] {
      RunStaysSettled(Apply(s, ops[0]), ops[1..]);
    }
  }

  /** From the initial state the error stays null for good. */
  lemma ErrorNeverSet(ops: seq<StoreOp>)
    ensures Run(Initial(), ops).error.None?
  {
    RunStaysSettled(Initial(), ops);
  }
}
