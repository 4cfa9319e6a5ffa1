/**
 * The static façade of src/services/BitCraftAPI.ts: its fixed mock values,
 * the request each getter issues, and how each getter chooses between the
 * live payload and its mock.
 */
module BitCraftApi {
  import opened Wrappers
  import opened GameTypes
  import opened AccountTypes
  import opened Gateway

  // ---------------------------------------------------------------------------
  // Payload shapes that only the façade uses

  datatype MemberSummary = MemberSummary(id: string, username: string, email: string)

  datatype ClaimSummary = ClaimSummary(id: string, name: string, coordinates: Coordinates, status: ClaimStatus)

  datatype EmpireSummary = EmpireSummary(
    id: string,
    name: string,
    members: seq<MemberSummary>,
    claims: seq<ClaimSummary>)

  datatype ServerStatus = ServerStatus(status: string, players: int, uptime: string, version: string)

  datatype PlayerSummary = PlayerSummary(id: string, username: string, online: bool)

  /** What the chat endpoint answers to a post. */
  datatype SentMessage = SentMessage(id: string, message: string, channel: string)

  // ---------------------------------------------------------------------------
  // Mock values

  const WoodAtHaven := Resource("1", "Wood", Wood, 150, 200, Coordinates(100, 100))
  const StoneAtHaven := Resource("2", "Stone", Stone, 75, 100, Coordinates(100, 100))
  const IronAtForge := Resource("3", "Iron", Iron, 50, 100, Coordinates(200, 150))
  const GoldDeposit := Resource("4", "Gold", Gold, 25, 50, Coordinates(300, 200))

  /** MOCK_WORLD_MAP: a 1000 by 1000 world with two active claims and four loose resources, all in stock. */
  function MockWorldMap(): (m: WorldMap)
    ensures m.size == Size(1000, 1000)
    ensures |m.claims| == 2 && |m.resources| == 4
    ensures forall c <- m.claims :: c.status == Active
    ensures WellStocked(m)
  {
    WorldMap("1", "BitCraft World", Size(1000, 1000),
      [ Claim("1", "New Haven", "Player1", Coordinates(100, 100), Active, [WoodAtHaven, StoneAtHaven]),
        Claim("2", "Iron Forge", "Player2", Coordinates(200, 150), Active, [IronAtForge]) ],
      [WoodAtHaven, StoneAtHaven, IronAtForge, GoldDeposit])
  }

  /**
   * MOCK_CHAT_MESSAGES, whose timestamps are taken when the module loads:
   * two 'global' messages and then one 'empire' message, oldest first, all
   * before the load time.
   */
  function MockChatMessages(loadedAt: Time): (ms: seq<ChatMessage>)
    ensures |ms| == 3
    ensures ms[0].channel == GlobalChannel && ms[1].channel == GlobalChannel && ms[2].channel == EmpireChannel
    ensures ms[0].timestamp < ms[1].timestamp < ms[2].timestamp < loadedAt
    ensures ms[0].id != ms[1].id && ms[1].id != ms[2].id && ms[0].id != ms[2].id
  {
    [ ChatMessage("1", "Player1", "Welcome to BitCraft! Anyone want to form an empire?", loadedAt - 3600000, GlobalChannel),
      ChatMessage("2", "Player2", "I have a claim near the iron deposits. Looking for partners!", loadedAt - 1800000, GlobalChannel),
      ChatMessage("3", "Player3", "Great work on the new settlement!", loadedAt - 900000, EmpireChannel) ]
  }

  /** MOCK_USER_CLAIMS: one active claim whose two stocks are in range. */
  function MockUserClaims(): (cs: seq<OwnedClaim>)
    ensures |cs| == 1 && cs[0].status == Active
    ensures forall c <- cs :: forall s <- c.resources :: StockInRange(s)
  {
    [ OwnedClaim("1", "My First Claim", Coordinates(100, 100), Active,
        [Stock("1", "Wood", 150, 200), Stock("2", "Stone", 75, 100)]) ]
  }

  /** MOCK_USER_EMPIRES: one empire of two members holding the mock claim. */
  function MockUserEmpires(): (es: seq<EmpireSummary>)
    ensures |es| == 1 && |es[0].members| == 2 && |es[0].claims| == 1
    ensures es[0].claims[0].id == MockUserClaims()[0].id
  {
    [ EmpireSummary("1", "The Builders Guild",
        [MemberSummary("1", "Player1", "player1@example.com"), MemberSummary("2", "Player2", "player2@example.com")],
        [ClaimSummary("1", "My First Claim", Coordinates(100, 100), Active)]) ]
  }

  /** The status reported when the server gives none. */
  function MockServerStatus(): (s: ServerStatus)
    ensures s.status == "online" && s.players == 1250
  {
    ServerStatus("online", 1250, "99.9%", "1.0.0-alpha")
  }

  /** The three players reported when a search gives none; two of them online. */
  function MockPlayers(): (ps: seq<PlayerSummary>)
    ensures |ps| == 3
    ensures ps[0].online && !ps[1].online && ps[2].online
  {
    [ PlayerSummary("1", "Player1", true),
      PlayerSummary("2", "Player2", false),
      PlayerSummary("3", "Player3", true) ]
  }

  // ---------------------------------------------------------------------------
  // Requests

  const DefaultRadius: int := 100
  const DefaultSearchLimit: int := 10

  /** An optional text argument as a query value: `undefined` when the caller gives none. */
  function TextParam(v: Option<string>): Param {
    match v
    case Some(s) => Text(s)
    case None => Omitted
  }

  function WorldMapRequest(bounds: Option<string>): (req: Request)
    ensures req.path == "/bitcraft/world-map"
    ensures ParamOf(req, "bounds") == TextParam(bounds)
  {
    Get("/bitcraft/world-map", [QueryParam("bounds", TextParam(bounds))])
  }

  function UserClaimsRequest(userId: string): (req: Request)
    ensures req.path == "/bitcraft/claims" && ParamOf(req, "user_id") == Text(userId)
  {
    Get("/bitcraft/claims", [QueryParam("user_id", Text(userId))])
  }

  function UserEmpiresRequest(userId: string): (req: Request)
    ensures req.path == "/bitcraft/empires" && ParamOf(req, "user_id") == Text(userId)
  {
    Get("/bitcraft/empires", [QueryParam("user_id", Text(userId))])
  }

  function ChatMessagesRequest(channel: string): (req: Request)
    ensures req.path == "/chat/messages" && ParamOf(req, "channel") == Text(channel)
  {
    Get("/chat/messages", [QueryParam("channel", Text(channel))])
  }

  /** The post carries the message and the channel exactly as given. */
  function SendChatMessageRequest(message: string, channel: string): (req: Request)
    ensures req.Post? && req.path == "/chat/messages"
    ensures req.fields == [("message", message), ("channel", channel)]
  {
    Post("/chat/messages", [("message", message), ("channel", channel)])
  }

  function ServerStatusRequest(): (req: Request)
    ensures req.path == "/bitcraft/server-status" && req.Get? && req.query == []
  {
    Get("/bitcraft/server-status", [])
  }

  /** The area query; a radius the caller leaves out defaults to 100. */
  function ResourcesInAreaRequest(x: int, y: int, radius: Option<int>): (req: Request)
    ensures req.path == "/bitcraft/resources"
    ensures ParamOf(req, "x") == Number(x) && ParamOf(req, "y") == Number(y)
    ensures radius.None? ==> ParamOf(req, "radius") == Number(DefaultRadius)
    ensures radius.Some? ==> ParamOf(req, "radius") == Number(radius.value)
  {
    var query := [QueryParam("x", Number(x)), QueryParam("y", Number(y)), QueryParam("radius", Number(radius.GetOr(DefaultRadius)))];
    assert query[1..][1..] == [query[2]];
    assert "x"[0] != "y"[0] && "x"[0] != "radius"[0] && "y"[0] != "radius"[0];
    assert Lookup(query, "y") == Lookup(query[1..], "y") == Number(y);
    assert Lookup(query, "radius") == Lookup(query[1..], "radius") == Lookup(query[1..][1..], "radius");
    Get("/bitcraft/resources", query)
  }

  /** The player search; a limit the caller leaves out defaults to 10. */
  function SearchPlayersRequest(query: string, limit: Option<int>): (req: Request)
    ensures req.path == "/bitcraft/search/players"
    ensures ParamOf(req, "query") == Text(query)
    ensures limit.None? ==> ParamOf(req, "limit") == Number(DefaultSearchLimit)
    ensures limit.Some? ==> ParamOf(req, "limit") == Number(limit.value)
  {
    var params := [QueryParam("query", Text(query)), QueryParam("limit", Number(limit.GetOr(DefaultSearchLimit)))];
    assert params[1..] == [params[1]];
    assert "query"[0] != "limit"[0];
    assert Lookup(params, "limit") == Lookup(params[1..], "limit");
    assert Lookup(params[1..], "limit") == Number(limit.GetOr(DefaultSearchLimit));
    Get("/bitcraft/search/players", params)
  }

  // ---------------------------------------------------------------------------
  // Getters

  /** One façade call: the request it issued and the value it returned. */
  datatype Call<T> = Call(request: Request, result: T)

  /** `getWorldMap`: asks for the map within `bounds`; the delivered map, otherwise the mock map (on both failure paths). */
  function GetWorldMap(bounds: Option<string>, ex: Exchange<WorldMap>): (c: Call<WorldMap>)
    ensures c.request == WorldMapRequest(bounds)
    ensures Delivers(ex) ==> c.result == ex.body.data.value
    ensures !Delivers(ex) ==> c.result == MockWorldMap()
  {
    Call(WorldMapRequest(bounds), Resolve(ex, MockWorldMap(), MockWorldMap()))
  }

  /** `getUserClaims`: the delivered list (even an empty one), otherwise the mock claims. */
  function GetUserClaims(userId: string, ex: Exchange<seq<OwnedClaim>>): (c: Call<seq<OwnedClaim>>)
    ensures c.request == UserClaimsRequest(userId)
    ensures Delivers(ex) ==> c.result == ex.body.data.value
    ensures !Delivers(ex) ==> c.result == MockUserClaims()
  {
    Call(UserClaimsRequest(userId), Resolve(ex, MockUserClaims(), MockUserClaims()))
  }

  /** `getUserEmpires`: the delivered list, otherwise the mock empires. */
  function GetUserEmpires(userId: string, ex: Exchange<seq<EmpireSummary>>): (c: Call<seq<EmpireSummary>>)
    ensures c.request == UserEmpiresRequest(userId)
    ensures Delivers(ex) ==> c.result == ex.body.data.value
    ensures !Delivers(ex) ==> c.result == MockUserEmpires()
  {
    Call(UserEmpiresRequest(userId), Resolve(ex, MockUserEmpires(), MockUserEmpires()))
  }

  /** The messages of `ms` posted on `channel`, in their original order (`Array.prototype.filter`). */
  function OnChannel(ms: seq<ChatMessage>, channel: string): (r: seq<ChatMessage>)
    ensures |r| <= |ms|
    ensures forall m <- r :: m.channel == channel && m in ms
    ensures forall m <- ms :: m.channel == channel ==> m in r
  {
    if ms == [] then []
    else if ms[0].channel == channel then [ms[0]] + OnChannel(ms[1..], channel)
    else OnChannel(ms[1..], channel)
  }

  /** Filtering distributes over concatenation, so it keeps the relative order of what it keeps. */
  lemma {:induction false} OnChannelAppend(a: seq<ChatMessage>, b: seq<ChatMessage>, channel: string)
    ensures OnChannel(a + b, channel) == OnChannel(a, channel) + OnChannel(b, channel)
  {
    if a != [] {
      assert (a + b)[1..] == a[1..] + b;
      OnChannelAppend(a[1..], b, channel);
    } else {
      assert a + b == b;
    }
  }

  /**
   * `getChatMessages`: the delivered list as is; on an answer without a body
   * (the `catch` path) the mocks filtered to the requested channel; in every
   * other case, a rejected request included, all the mocks unfiltered.
   */
  function GetChatMessages(channel: string, loadedAt: Time, ex: Exchange<seq<ChatMessage>>): (c: Call<seq<ChatMessage>>)
    ensures c.request == ChatMessagesRequest(channel)
    ensures Delivers(ex) ==> c.result == ex.body.data.value
    ensures ex == Answered(NoBody) ==> c.result == OnChannel(MockChatMessages(loadedAt), channel)
    ensures !Delivers(ex) && ex != Answered(NoBody) ==> c.result == MockChatMessages(loadedAt)
  {
    Call(ChatMessagesRequest(channel), Resolve(ex, MockChatMessages(loadedAt), OnChannel(MockChatMessages(loadedAt), channel)))
  }

  /** The mocks split by channel: the two global messages in order, the one empire message, nothing else. */
  lemma MockChatByChannel(loadedAt: Time, channel: string)
    ensures OnChannel(MockChatMessages(loadedAt), GlobalChannel) == MockChatMessages(loadedAt)[..2]
    ensures OnChannel(MockChatMessages(loadedAt), EmpireChannel) == MockChatMessages(loadedAt)[2..]
    ensures channel != GlobalChannel && channel != EmpireChannel ==> OnChannel(MockChatMessages(loadedAt), channel) == []
  {
    var ms := MockChatMessages(loadedAt);
    assert ms[1..][1..] == ms[2..];
    assert ms[2..][1..] == [];
    assert OnChannel(ms[2..], GlobalChannel) == [];
    assert OnChannel(ms[1..], GlobalChannel) == [ms[1]];
    assert ms[..2] == [ms[0], ms[1]];
    if channel != GlobalChannel && channel != EmpireChannel {
      assert OnChannel(ms[2..], channel) == [];
      assert OnChannel(ms[1..], channel) == [];
    }
  }

  /** The two failure paths disagree: a rejected 'global' request shows the 'empire' message, a bodiless answer does not. */
  lemma ChatFailurePathsDiffer(reason: string, loadedAt: Time)
    ensures exists m <- GetChatMessages(GlobalChannel, loadedAt, Rejected(reason)).result :: m.channel == EmpireChannel
    ensures forall m <- GetChatMessages(GlobalChannel, loadedAt, Answered(NoBody)).result :: m.channel == GlobalChannel
  {
    var ms := MockChatMessages(loadedAt);
    assert ms[2] in GetChatMessages(GlobalChannel, loadedAt, Rejected(reason)).result;
  }

  /**
   * `sendChatMessage`: the response body as received; a rejected post
   * comes back as `{success: true, data: null}` from the interceptor, not as
   * the mock receipt, whose `catch` nothing reaches.
   */
  function SendChatMessage(message: string, channel: string, ex: Exchange<SentMessage>): (c: Call<Body<SentMessage>>)
    ensures c.request == SendChatMessageRequest(message, channel)
    ensures ex.Answered? ==> c.result == ex.body
    ensures ex.Rejected? ==> c.result.Envelope? && c.result.success && c.result.data.None?
  {
    Call(SendChatMessageRequest(message, channel), Intercept(ex))
  }

  /** The receipt of the `catch` branch: a success that echoes the message and channel, with a clock-derived id. */
  function MockSendReceipt(message: string, channel: string, id: string): (b: Body<SentMessage>)
    ensures b.Envelope? && b.success && b.data.Some?
    ensures b.data.value.message == message && b.data.value.channel == channel
  {
    Envelope(true, Some(SentMessage(id, message, channel)))
  }

  /** `getServerStatus`: the delivered status, otherwise the fixed online status. */
  function GetServerStatus(ex: Exchange<ServerStatus>): (c: Call<ServerStatus>)
    ensures c.request == ServerStatusRequest()
    ensures Delivers(ex) ==> c.result == ex.body.data.value
    ensures !Delivers(ex) ==> c.result == MockServerStatus()
  {
    Call(ServerStatusRequest(), Resolve(ex, MockServerStatus(), MockServerStatus()))
  }

  /** `getResourcesInArea`: the delivered resources, otherwise the mock map's resources wherever the area is. */
  function GetResourcesInArea(x: int, y: int, radius: Option<int>, ex: Exchange<seq<Resource>>): (c: Call<seq<Resource>>)
    ensures c.request == ResourcesInAreaRequest(x, y, radius)
    ensures Delivers(ex) ==> c.result == ex.body.data.value
    ensures !Delivers(ex) ==> c.result == MockWorldMap().resources
  {
    Call(ResourcesInAreaRequest(x, y, radius), Resolve(ex, MockWorldMap().resources, MockWorldMap().resources))
  }

  /** `searchPlayers`: the delivered players, otherwise the three mock players whatever the query. */
  function SearchPlayers(query: string, limit: Option<int>, ex: Exchange<seq<PlayerSummary>>): (c: Call<seq<PlayerSummary>>)
    ensures c.request == SearchPlayersRequest(query, limit)
    ensures Delivers(ex) ==> c.result == ex.body.data.value
    ensures !Delivers(ex) ==> c.result == MockPlayers()
  {
    Call(SearchPlayersRequest(query, limit), Resolve(ex, MockPlayers(), MockPlayers()))
  }

  /** The `success` flag is never consulted: a payload labelled as a failure is still shown. */
  lemma SuccessFlagIgnored(bounds: Option<string>, m: WorldMap)
    ensures GetWorldMap(bounds, Answered(Envelope(false, Some(m)))).result == m
  {
  }

  /** Live data is passed through unchecked: an out-of-range resource reaches the caller unclamped. */
  lemma LiveDataNotClamped(rs: seq<Resource>, x: int, y: int)
    ensures GetResourcesInArea(x, y, None, Answered(Envelope(true, Some(rs)))).result == rs
  {
  }

  /** Any map that is not delivered live is the well-stocked mock map. */
  lemma FallbackMapWellStocked(bounds: Option<string>, ex: Exchange<WorldMap>)
    ensures !Delivers(ex) ==> WellStocked(GetWorldMap(bounds, ex).result) && GetWorldMap(bounds, ex).result.size == Size(1000, 1000)
  {
  }
}
