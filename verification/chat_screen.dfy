/**
 * The chat screen of src/screens/ChatScreen.tsx as a state machine over its
 * own state (the draft text and the selected channel) and the game-data
 * store it drives.
 */
module ChatScreen {
  import opened GameTypes
  import opened Text
  import GameStore

  datatype ChatView = ChatView(draft: string, channel: string)

  /** The screen together with the store it reads and writes. */
  datatype Screen = Screen(view: ChatView, store: GameStore.GameState)

  /** The three channel buttons. */
  datatype ChannelButton = GlobalButton | EmpireButton | ClaimButton

  function ButtonChannel(b: ChannelButton): (channel: string)
    ensures IsKnownChannel(channel)
  {
    match b
    case GlobalButton => GlobalChannel
    case EmpireButton => EmpireChannel
    case ClaimButton => ClaimChannel
  }

  /** Mounting: an empty draft on 'global', and the effect fetches that channel. */
  function Mount(store: GameStore.GameState, at: Time): (sc: Screen)
    ensures sc.view == ChatView("", GlobalChannel)
    ensures sc.store == GameStore.FetchChatMessages(store, GlobalChannel, at)
  {
    Screen(ChatView("", GlobalChannel), GameStore.FetchChatMessages(store, GlobalChannel, at))
  }

  /** Typing replaces the draft with the field's new text. */
  function TypeText(sc: Screen, text: string): (r: Screen)
    ensures r.view.draft == text && r.view.channel == sc.view.channel && r.store == sc.store
  {
    sc.(view := sc.view.(draft := text))
  }

  /** The send button is disabled while the trimmed draft is empty, that is, while the draft is blank. */
  function SendDisabled(v: ChatView): (disabled: bool)
    ensures disabled <==> IsBlank(v.draft)
  {
    Trim(v.draft) == []
  }

  /**
   * `handleSendMessage`: a blank draft changes nothing and reaches no store
   * call; otherwise the trimmed draft is sent on the selected channel and the
   * draft is cleared.
   */
  function HandleSendMessage(sc: Screen, id: string, at: Time): (r: Screen)
    ensures IsBlank(sc.view.draft) ==> r == sc
    ensures !IsBlank(sc.view.draft) ==>
      && r.view == ChatView("", sc.view.channel)
      && r.store == GameStore.SendChatMessage(sc.store, Trim(sc.view.draft), sc.view.channel, id, at)
  {
    var text := Trim(sc.view.draft);
    if text != [] then
      Screen(sc.view.(draft := ""), GameStore.SendChatMessage(sc.store, text, sc.view.channel, id, at))
    else
      sc
  }

  /** Pressing the send button: nothing while it is disabled. */
  function PressSend(sc: Screen, id: string, at: Time): (r: Screen)
    ensures SendDisabled(sc.view) ==> r == sc
    ensures !SendDisabled(sc.view) ==> r == HandleSendMessage(sc, id, at)
  {
    if SendDisabled(sc.view) then sc else HandleSendMessage(sc, id, at)
  }

  /** The button's disabled test and the handler's own guard agree, and a press changes the screen exactly when enabled. */
  lemma SendGuardsAgree(sc: Screen, id: string, at: Time)
    ensures SendDisabled(sc.view) <==> IsBlank(sc.view.draft)
    ensures PressSend(sc, id, at) != sc <==> !SendDisabled(sc.view)
  {
  }

  /** The message a send appends is the draft without its surrounding whitespace: non-blank, with no whitespace at either end. */
  lemma SentTextIsTrimmed(sc: Screen, id: string, at: Time)
    requires !IsBlank(sc.view.draft)
    ensures var r := HandleSendMessage(sc, id, at);
      var m := r.store.chatMessages[|sc.store.chatMessages|];
      && m.message != [] && !IsWhitespace(m.message[0]) && !IsWhitespace(m.message[|m.message| - 1])
      && m.channel == sc.view.channel
      && TrimmedOf(sc.view.draft, m.message)
  {
  }

  /**
   * A channel button: the selection changes to its channel and, when that is
   * a different channel, the effect refetches messages for it; choosing the
   * selected channel again changes nothing.
   */
  function ChooseChannel(sc: Screen, b: ChannelButton, at: Time): (r: Screen)
    ensures r.view == ChatView(sc.view.draft, ButtonChannel(b))
    ensures ButtonChannel(b) != sc.view.channel ==> r.store == GameStore.FetchChatMessages(sc.store, ButtonChannel(b), at)
    ensures ButtonChannel(b) == sc.view.channel ==> r == sc
  {
    var channel := ButtonChannel(b);
    if channel == sc.view.channel then sc
    else Screen(sc.view.(channel := channel), GameStore.FetchChatMessages(sc.store, channel, at))
  }

  /** A user action on the screen, with the clock readings it consumes. */
  datatype ChatEvent =
    | Typed(text: string)
    | SendPressed(id: string, at: Time)
    | ChannelPressed(button: ChannelButton, at: Time)

  function Step(sc: Screen, e: ChatEvent): Screen {
    match e
    case Typed(text) => TypeText(sc, text)
    case SendPressed(id, at) => PressSend(sc, id, at)
    case ChannelPressed(b, at) => ChooseChannel(sc, b, at)
  }

  function Replay(sc: Screen, events: seq<ChatEvent>): Screen
    decreases |events|
  {
    if events == [] then sc else Replay(Step(sc, events[0]), events[1..])
  }

  /** Whatever the user does after mounting, the selected channel is one of the three known ones. */
  lemma {:induction false} ReplayKeepsChannelKnown(sc: Screen, events: seq<ChatEvent>)
    requires IsKnownChannel(sc.view.channel)
    ensures IsKnownChannel(Replay(sc, events).view.channel)
    decreases |events|
  {
    if events != [] {
      ReplayKeepsChannelKnown(Step(sc, events[0]), events[1..]);
    }
  }

  /** Every message this screen sends lands on a known channel, since it sends on the selected one. */
  lemma {:induction false} ReplaySendsOnKnownChannels(sc: Screen, events: seq<ChatEvent>)
    requires IsKnownChannel(sc.view.channel)
    requires forall m <- sc.store.chatMessages :: IsKnownChannel(m.channel)
    ensures forall m <- Replay(sc, events).store.chatMessages :: IsKnownChannel(m.channel)
    decreases |events|
  {
    if events != [] {
      var next := Step(sc, events[0]);
      assert forall m <- next.store.chatMessages :: IsKnownChannel(m.channel) by {
        if events[0].SendPressed? && !SendDisabled(sc.view) {
          assert next.store.chatMessages == sc.store.chatMessages + [next.store.chatMessages[|sc.store.chatMessages|]];
        }
      }
      ReplaySendsOnKnownChannels(next, events[1..]);
    }
  }

  /** From a fresh mount, neither the selection nor any shown message ever leaves the three channels. */
  lemma MountedScreenStaysOnKnownChannels(store: GameStore.GameState, at: Time, events: seq<ChatEvent>)
    ensures IsKnownChannel(Replay(Mount(store, at), events).view.channel)
    ensures forall m <- Replay(Mount(store, at), events).store.chatMessages :: IsKnownChannel(m.channel)
  {
    ReplayKeepsChannelKnown(Mount(store, at), events);
    ReplaySendsOnKnownChannels(Mount(store, at), events);
  }
}
