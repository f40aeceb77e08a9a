/**
 * The client's chat reducer: a pure function from the current list of chat
 * messages and an action to the next list.  Adding messages appends them,
 * stamped with the sender from the action's sync data when there is one.
 */
module ChatMessages {
  import opened Common

  /** A chat line; `from` is optional until the server stamps it. */
  datatype ChatMessage = ChatMessage(text: string, from: Option<string>)

  /** The sync data the server attaches to a relayed action. */
  datatype SyncData = SyncData(from: Option<string>)

  /** The actions the reducer sees: the one it handles, and an action of any other type. */
  datatype Action =
    | AddChatMessages(payload: seq<ChatMessage>, syncData: Option<SyncData>)
    | OtherAction

  /** `messages.map(message => ({ ...message, from }))`. */
  function Stamp(messages: seq<ChatMessage>, from: string): (r: seq<ChatMessage>)
    ensures |r| == |messages|
    ensures forall i :: 0 <= i < |messages| ==> r[i] == ChatMessage(messages[i].text, Some(from))
  {
    if messages == [] then []
    else [ChatMessage(messages[0].text, Some(from))] + Stamp(messages[1..], from)
  }

  /** Whether the sync data names a sender (`action.syncData && action.syncData.from`). */
  predicate HasSender(syncData: Option<SyncData>) {
    syncData.Some? && Truthy(syncData.value.from)
  }

  /** The messages an add action appends: stamped when the sync data names a sender, verbatim otherwise. */
  function NewMessages(payload: seq<ChatMessage>, syncData: Option<SyncData>): seq<ChatMessage> {
    if HasSender(syncData) then Stamp(payload, syncData.value.from.value) else payload
  }

  /** `reducer`; a missing state (`undefined`) defaults to the empty list. */
  function Reduce(state: Option<seq<ChatMessage>>, action: Action): seq<ChatMessage> {
    var current := if state.Some? then state.value else [];
    match action
    case AddChatMessages(payload, syncData) => current + NewMessages(payload, syncData)
    case OtherAction => current
  }

  /** Any other action returns the state it was given, and the empty list for a missing one. */
  lemma OtherActionKeepsState(state: Option<seq<ChatMessage>>)
    ensures Reduce(state, OtherAction) == if state.Some? then state.value else []
  {
  }

  /** Adding keeps the old list as a prefix and grows it by exactly the payload's length. */
  lemma AddAppends(state: seq<ChatMessage>, payload: seq<ChatMessage>, syncData: Option<SyncData>)
    ensures var r := Reduce(Some(state), AddChatMessages(payload, syncData));
      && |r| == |state| + |payload|
      && r[..|state|] == state
  {
  }

  /**
   * With a sender in the sync data, the i-th appended message is the i-th
   * payload message with its text kept and its `from` replaced by the sender.
   */
  lemma AddStampsSender(state: seq<ChatMessage>, payload: seq<ChatMessage>, syncData: Option<SyncData>)
    requires HasSender(syncData)
    ensures var r := Reduce(Some(state), AddChatMessages(payload, syncData));
      forall i :: 0 <= i < |payload| ==>
        && r[|state| + i].text == payload[i].text
        && r[|state| + i].from == syncData.value.from
  {
    var r := Reduce(Some(state), AddChatMessages(payload, syncData));
    forall i | 0 <= i < |payload|
      ensures r[|state| + i] == ChatMessage(payload[i].text, syncData.value.from)
    {
      assert r[|state| + i] == NewMessages(payload, syncData)[i];
    }
  }

  /** Without a sender the payload is appended verbatim. */
  lemma AddVerbatim(state: seq<ChatMessage>, payload: seq<ChatMessage>, syncData: Option<SyncData>)
    requires !HasSender(syncData)
    ensures Reduce(Some(state), AddChatMessages(payload, syncData)) == state + payload
  {
  }

  /** Applying the reducer to a missing state is applying it to the empty list. */
  lemma MissingStateIsEmpty(action: Action)
    ensures Reduce(None, action) == Reduce(Some([]), action)
  {
  }

  /** Two adds in a row append both payloads, each treated by its own sync data, in order. */
  lemma TwoAdds(state: Option<seq<ChatMessage>>, first: seq<ChatMessage>, firstSync: Option<SyncData>,
                second: seq<ChatMessage>, secondSync: Option<SyncData>)
    ensures Reduce(Some(Reduce(state, AddChatMessages(first, firstSync))), AddChatMessages(second, secondSync))
         == (if state.Some? then state.value else []) + NewMessages(first, firstSync) + NewMessages(second, secondSync)
  {
  }
}
