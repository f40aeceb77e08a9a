/**
 * The pre-round gate of the round state machine: its three entry points
 * (entering the state, a player disconnecting, a player action) and the
 * shared start-round routine that picks the leader and the word and tells
 * only the leader the word.
 *
 * The room data the state reads and writes is a `Context` object; each
 * handler is a method that changes it, proved equal to a spec function of the
 * old data (`After…`), and the properties of the gate are lemmas about those
 * functions.  The roster is read only, so it is a pair of constants.
 */
module BeforeRoundState {
  import opened Common
  import opened Roster
  import opened Outbox

  /** The state tag of the room: which state object the context currently holds. */
  datatype Phase = Wait | BeforeRound | RoundInProgress

  /** An action a player sends while this state is current: a word pick, or an action of any other type. */
  datatype RoundAction = PickWord(payload: Option<string>) | OtherAction

  /** The index of the first enumerated key whose player is connected, or `|order|` when there is none. */
  function FirstConnected(order: seq<Id>, players: map<Id, Player>): (k: nat)
    requires Keyed(order, players)
    ensures k <= |order|
    ensures forall j :: 0 <= j < k ==> players[order[j]].disconnected
    ensures k < |order| ==> !players[order[k]].disconnected
  {
    if order == [] then 0
    else if !players[order[0]].disconnected then 0
    else
      assert Keyed(order[1..], players) by {
        forall i | 0 <= i < |order[1..]| ensures order[1..][i] in players {
          assert order[1..][i] == order[i + 1];
        }
      }
      1 + FirstConnected(order[1..], players)
  }

  /**
   * `chooseLeader`: the first key, in enumeration order, whose player is not
   * disconnected; none exactly when every player is disconnected.
   */
  function ChooseLeader(order: seq<Id>, players: map<Id, Player>): (r: Option<Id>)
    requires Keyed(order, players)
    ensures r.None? <==> forall i :: 0 <= i < |order| ==> players[order[i]].disconnected
    ensures r.Some? ==> exists k :: && 0 <= k < |order| && order[k] == r.value
                                    && !players[order[k]].disconnected
                                    && forall j :: 0 <= j < k ==> players[order[j]].disconnected
  {
    var k := FirstConnected(order, players);
    if k < |order| then Some(order[k]) else None
  }

  /** `data.leader || chooseLeader()`: the stored leader wins; otherwise the first connected player. */
  function ResolveLeader(stored: Option<Id>, order: seq<Id>, players: map<Id, Player>): (r: Option<Id>)
    requires Keyed(order, players)
    ensures stored.Some? ==> r == stored
    ensures r.None? <==> stored.None? && forall i :: 0 <= i < |order| ==> players[order[i]].disconnected
    ensures stored.None? ==> r == ChooseLeader(order, players)
  {
    if stored.Some? then stored else ChooseLeader(order, players)
  }

  /** `data.word || chooseWord()`, where `picked` is what the injected `pickWord` returns. */
  function ResolveWord(stored: Option<string>, picked: string): string {
    if Truthy(stored) then stored.value else picked
  }

  /** The three sends of a round start, in order: the leader to all, a word-less start to the others, the word to the leader. */
  function StartRoundMessages(leader: Id, word: string): seq<Outbound> {
    [ Send(ToAll, SetLeader(leader)),
      Send(ToAllButOne(leader), StartRound(None)),
      Send(ToOne(leader), StartRound(Some(word))) ]
  }

  /** The part of the room data this state reads or writes besides the roster. */
  datatype Snapshot = Snapshot(
    phase: Phase,
    leader: Option<Id>,
    picker: Option<Id>,
    word: Option<string>,
    roundInProgress: bool,
    outbox: seq<Outbound>)

  /** `startNewRound` on values. */
  function AfterStartNewRound(s: Snapshot, order: seq<Id>, players: map<Id, Player>, picked: string): Snapshot
    requires Keyed(order, players)
  {
    match ResolveLeader(s.leader, order, players)
    case None => s
    case Some(leader) =>
      var word := ResolveWord(s.word, picked);
      s.(word := Some(word), roundInProgress := true,
         outbox := s.outbox + StartRoundMessages(leader, word),
         phase := RoundInProgress)
  }

  /** `startTwoPlayerRound` on values: `unsetPicker`, then start a round. */
  function AfterStartTwoPlayerRound(s: Snapshot, order: seq<Id>, players: map<Id, Player>, picked: string): Snapshot
    requires Keyed(order, players)
  {
    AfterStartNewRound(s.(picker := None), order, players, picked)
  }

  /** `handleEnter` on values. */
  function AfterEnter(s: Snapshot, order: seq<Id>, players: map<Id, Player>, picked: string): Snapshot
    requires Keyed(order, players)
  {
    if ConnectedCount(order, players) == 2 then AfterStartTwoPlayerRound(s, order, players, picked) else s
  }

  /** `handleDisconnectedPlayer` on values: the two guards of the source, one after the other. */
  function AfterDisconnectedPlayer(s: Snapshot, order: seq<Id>, players: map<Id, Player>, picked: string): Snapshot
    requires Keyed(order, players)
  {
    var s1 := if ConnectedCount(order, players) < 2 then s.(phase := Wait) else s;
    if ConnectedCount(order, players) == 2 then AfterStartTwoPlayerRound(s1, order, players, picked) else s1
  }

  /** `handleAction` on values. */
  function AfterAction(s: Snapshot, order: seq<Id>, players: map<Id, Player>,
                       fromId: Id, action: RoundAction, picked: string): Snapshot
    requires Keyed(order, players)
  {
    match action
    case PickWord(payload) =>
      if s.picker == Some(fromId) then AfterStartNewRound(s.(word := payload), order, players, picked) else s
    case OtherAction => s
  }

  /** Some player is connected exactly when `chooseLeader` finds one. */
  lemma {:induction false} ConnectedCountFindsLeader(order: seq<Id>, players: map<Id, Player>)
    requires Keyed(order, players)
    ensures ConnectedCount(order, players) > 0 <==> ChooseLeader(order, players).Some?
  {
    if order != [] {
      var rest := order[1..];
      assert Keyed(rest, players) by {
        forall i | 0 <= i < |rest| ensures rest[i] in players {
          assert rest[i] == order[i + 1];
        }
      }
      ConnectedCountFindsLeader(rest, players);
      if players[order[0]].disconnected {
        forall i | 0 <= i < |order| ensures players[order[i]].disconnected <==> i == 0 || players[rest[i - 1]].disconnected {
          if i > 0 { assert order[i] == rest[i - 1]; }
        }
        assert ChooseLeader(order, players).Some? <==> ChooseLeader(rest, players).Some? by {
          if ChooseLeader(rest, players).Some? {
            var j :| 0 <= j < |rest| && !players[rest[j]].disconnected;
            assert order[j + 1] == rest[j];
          }
        }
      }
    }
  }

  /** Without a stored leader and with every player disconnected, a round start changes nothing; otherwise it sends. */
  lemma StartWithoutLeader(s: Snapshot, order: seq<Id>, players: map<Id, Player>, picked: string)
    requires Keyed(order, players)
    ensures var r := AfterStartNewRound(s, order, players, picked);
      && (r.outbox == s.outbox <==> s.leader.None? && forall i :: 0 <= i < |order| ==> players[order[i]].disconnected)
      && (r.outbox == s.outbox ==> r == s)
  {
  }

  /**
   * When a leader resolves, a round start stores the resolved word (the stored
   * one when truthy, else the picked one), marks the round in progress, moves
   * to `RoundInProgress`, sends the three start records, and writes neither
   * `leader` nor `picker`.
   */
  lemma StartWithLeader(s: Snapshot, order: seq<Id>, players: map<Id, Player>, picked: string)
    requires Keyed(order, players)
    requires ResolveLeader(s.leader, order, players).Some?
    ensures var r := AfterStartNewRound(s, order, players, picked);
      var leader := ResolveLeader(s.leader, order, players).value;
      var word := if Truthy(s.word) then s.word.value else picked;
      && r.phase == RoundInProgress
      && r.roundInProgress
      && r.word == Some(word)
      && r.leader == s.leader && r.picker == s.picker
      && (s.leader.Some? ==> leader == s.leader.value)
      && (s.leader.None? ==> !players[leader].disconnected)
      && r.outbox == s.outbox + StartRoundMessages(leader, word)
  {
  }

  /**
   * Secrecy of one round start: every player learns the leader; the word
   * travels in exactly one record, addressed to the leader alone; every other
   * player receives a start record without it.
   */
  lemma StartRoundMessagesSecrecy(leader: Id, word: string, id: Id)
    ensures var m := StartRoundMessages(leader, word);
      && Send(ToOne(leader), StartRound(Some(word))) in m
      && (forall o :: o in m && CarriesWord(o) ==> o == Send(ToOne(leader), StartRound(Some(word))))
      && (forall o :: o in m && CarriesWord(o) && Reaches(o.target, id) ==> id == leader)
      && (exists o :: o in m && o.Send? && Reaches(o.target, id) && o.message == SetLeader(leader))
      && (exists o :: o in m && o.Send? && Reaches(o.target, id) && o.message.StartRound?)
  {
    var m := StartRoundMessages(leader, word);
    assert Reaches(m[0].target, id);
    if id == leader { assert Reaches(m[2].target, id); } else { assert Reaches(m[1].target, id); }
  }

  /** Of everything a round start appends, only what reaches the leader carries the word. */
  lemma StartNewRoundSecrecy(s: Snapshot, order: seq<Id>, players: map<Id, Player>, picked: string, id: Id)
    requires Keyed(order, players)
    ensures var r := AfterStartNewRound(s, order, players, picked);
      && |s.outbox| <= |r.outbox| && r.outbox[..|s.outbox|] == s.outbox
      && forall i :: |s.outbox| <= i < |r.outbox| && CarriesWord(r.outbox[i]) && Reaches(r.outbox[i].target, id) ==>
           Some(id) == ResolveLeader(s.leader, order, players)
  {
    var r := AfterStartNewRound(s, order, players, picked);
    var leader := ResolveLeader(s.leader, order, players);
    if leader.Some? {
      var m := StartRoundMessages(leader.value, ResolveWord(s.word, picked));
      StartRoundMessagesSecrecy(leader.value, ResolveWord(s.word, picked), id);
      forall i | |s.outbox| <= i < |r.outbox| && CarriesWord(r.outbox[i]) && Reaches(r.outbox[i].target, id)
        ensures Some(id) == leader
      {
        assert r.outbox[i] == m[i - |s.outbox|];
      }
    }
  }

  /** `handleEnter` starts a round, with the picker unset, exactly when two players are connected, and does nothing otherwise. */
  lemma EnterGate(s: Snapshot, order: seq<Id>, players: map<Id, Player>, picked: string)
    requires Keyed(order, players)
    ensures var r := AfterEnter(s, order, players, picked);
      && (ConnectedCount(order, players) != 2 ==> r == s)
      && (ConnectedCount(order, players) == 2 ==>
            && r.phase == RoundInProgress && r.roundInProgress && r.picker == None && r.leader == s.leader
            && r.word == Some(ResolveWord(s.word, picked))
            && ResolveLeader(s.leader, order, players).Some?
            && r.outbox == s.outbox + StartRoundMessages(ResolveLeader(s.leader, order, players).value, ResolveWord(s.word, picked)))
  {
    ConnectedCountFindsLeader(order, players);
  }

  /**
   * `handleDisconnectedPlayer`: below two connected players the room goes
   * back to `Wait` and this state itself sends nothing (what the entered
   * `WaitState` sends is not part of this model); at exactly two a round
   * starts with the picker unset; above two nothing changes.  This state sends
   * exactly at two, so the two guarded branches never both act.
   */
  lemma DisconnectedPlayerBranches(s: Snapshot, order: seq<Id>, players: map<Id, Player>, picked: string)
    requires Keyed(order, players)
    ensures var r := AfterDisconnectedPlayer(s, order, players, picked);
      && (ConnectedCount(order, players) < 2 ==> r == s.(phase := Wait))
      && (ConnectedCount(order, players) == 2 ==>
            r.phase == RoundInProgress && r.roundInProgress && r.picker == None && r.leader == s.leader)
      && (ConnectedCount(order, players) == 2 ==> r == AfterEnter(s, order, players, picked))
      && (ConnectedCount(order, players) > 2 ==> r == s)
      && (|r.outbox| > |s.outbox| <==> ConnectedCount(order, players) == 2)
  {
    ConnectedCountFindsLeader(order, players);
  }

  /** A word pick from anyone but the picker, and every other action, changes nothing. */
  lemma ActionIgnored(s: Snapshot, order: seq<Id>, players: map<Id, Player>, fromId: Id, action: RoundAction, picked: string)
    requires Keyed(order, players)
    requires action.OtherAction? || s.picker != Some(fromId)
    ensures AfterAction(s, order, players, fromId, action, picked) == s
  {
  }

  /**
   * A word pick from the picker stores the payload and starts a round with it,
   * falling back to the picked word when the payload is empty or missing.
   * When no leader resolves, the payload stays stored and nothing else changes.
   */
  lemma PickWordFromPicker(s: Snapshot, order: seq<Id>, players: map<Id, Player>, fromId: Id, payload: Option<string>, picked: string)
    requires Keyed(order, players)
    requires s.picker == Some(fromId)
    ensures var r := AfterAction(s, order, players, fromId, PickWord(payload), picked);
      var word := if Truthy(payload) then payload.value else picked;
      && (ResolveLeader(s.leader, order, players).None? ==> r == s.(word := payload))
      && (ResolveLeader(s.leader, order, players).Some? ==>
            && r.phase == RoundInProgress && r.roundInProgress && r.word == Some(word) && r.picker == s.picker
            && r.outbox == s.outbox + StartRoundMessages(ResolveLeader(s.leader, order, players).value, word))
  {
  }

  /** `context.data` as this state sees it, the roster included, and every send so far. */
  class Context {
    var phase: Phase
    var leader: Option<Id>
    var picker: Option<Id>
    var word: Option<string>
    var roundInProgress: bool
    /** `Object.keys(data.players)`, in enumeration order. */
    const order: seq<Id>
    /** `data.players`. */
    const players: map<Id, Player>
    ghost var outbox: seq<Outbound>

    predicate Valid() {
      WellFormed(order, players)
    }

    ghost function Snap(): Snapshot
      reads this
    {
      Snapshot(phase, leader, picker, word, roundInProgress, outbox)
    }

    /** `data.numberOfConnectedPlayers`. */
    function NumberOfConnectedPlayers(): (n: nat)
      requires Valid()
      ensures n == |ConnectedIds(players)|
    {
      ConnectedCountIsConnectedIds(order, players);
      ConnectedCount(order, players)
    }

    /** A room in this state over a given roster, before anything is sent. */
    constructor (order: seq<Id>, players: map<Id, Player>, leader: Option<Id>, picker: Option<Id>, word: Option<string>)
      requires WellFormed(order, players)
      ensures Valid()
      ensures Snap() == Snapshot(BeforeRound, leader, picker, word, false, [])
      ensures this.order == order && this.players == players
    {
      this.order, this.players := order, players;
      this.phase, this.leader, this.picker, this.word := BeforeRound, leader, picker, word;
      this.roundInProgress := false;
      this.outbox := [];
    }
  }

  /** `startNewRound`. */
  method StartNewRound(ctx: Context, picked: string)
    requires ctx.Valid()
    modifies ctx
    ensures ctx.Snap() == AfterStartNewRound(old(ctx.Snap()), ctx.order, ctx.players, picked)
  {
    var leader := if ctx.leader.Some? then ctx.leader else ChooseLeader(ctx.order, ctx.players);
    var word := if Truthy(ctx.word) then ctx.word.value else picked;
    if leader.Some? {
      ctx.word := Some(word);
      ctx.roundInProgress := true;
      ctx.outbox := ctx.outbox + [Send(ToAll, SetLeader(leader.value))];
      ctx.outbox := ctx.outbox + [Send(ToAllButOne(leader.value), StartRound(None))];
      ctx.outbox := ctx.outbox + [Send(ToOne(leader.value), StartRound(Some(word)))];
      ctx.phase := RoundInProgress;
    }
  }

  /** `startTwoPlayerRound`. */
  method StartTwoPlayerRound(ctx: Context, picked: string)
    requires ctx.Valid()
    modifies ctx
    ensures ctx.Snap() == AfterStartTwoPlayerRound(old(ctx.Snap()), ctx.order, ctx.players, picked)
  {
    ctx.picker := None;
    StartNewRound(ctx, picked);
  }

  /** `handleEnter`; the context calls it only while this state is current, as for the other two entry points. */
  method HandleEnter(ctx: Context, picked: string)
    requires ctx.Valid() && ctx.phase == BeforeRound
    modifies ctx
    ensures ctx.Snap() == AfterEnter(old(ctx.Snap()), ctx.order, ctx.players, picked)
  {
    if ctx.NumberOfConnectedPlayers() == 2 {
      StartTwoPlayerRound(ctx, picked);
    }
  }

  /** `handleDisconnectedPlayer`; the id of the player who left does not matter. */
  method HandleDisconnectedPlayer(ctx: Context, playerId: Id, picked: string)
    requires ctx.Valid() && ctx.phase == BeforeRound
    modifies ctx
    ensures ctx.Snap() == AfterDisconnectedPlayer(old(ctx.Snap()), ctx.order, ctx.players, picked)
  {
    if ctx.NumberOfConnectedPlayers() < 2 {
      ctx.phase := Wait;
    }
    if ctx.NumberOfConnectedPlayers() == 2 {
      StartTwoPlayerRound(ctx, picked);
    }
  }

  /** `handleAction`. */
  method HandleAction(ctx: Context, fromId: Id, action: RoundAction, picked: string)
    requires ctx.Valid() && ctx.phase == BeforeRound
    modifies ctx
    ensures ctx.Snap() == AfterAction(old(ctx.Snap()), ctx.order, ctx.players, fromId, action, picked)
  {
    match action
    case PickWord(payload) =>
      if ctx.picker == Some(fromId) {
        ctx.word := payload;
        StartNewRound(ctx, picked);
      }
    case OtherAction =>
  }
}
