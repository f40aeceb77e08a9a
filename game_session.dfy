/**
 * The session engine of one room (`Game`): connection of new players,
 * reconnection within the grace period, disconnection, and the delayed delete
 * that expires a disconnected player.
 *
 * The responder is recorded as the ghost `outbox`; the `'self'` notifications
 * that the engine feeds back into `handleMessage` are recorded there too, as
 * `Notify` records.  `uuid()` becomes the caller-supplied `freshId`; a timer
 * armed by `delayCall` becomes a handle in `pending`, and its expiry the
 * explicit event `FireDelete`.
 */
module GameSession {
  import opened Common
  import opened Roster
  import opened Outbox

  /** The identity of one armed delayed call. */
  type Handle = nat

  /**
   * The timers are in step with the roster: every pending delete is the one
   * recorded in `delayedDeletes` for its id, and that id is a present,
   * disconnected player.
   */
  predicate TimersInStep(players: map<Id, Player>, delayedDeletes: map<Id, Handle>, pending: map<Handle, Id>) {
    forall h :: h in pending ==>
      && pending[h] in delayedDeletes && delayedDeletes[pending[h]] == h
      && pending[h] in players && players[pending[h]].disconnected
  }

  /** A reconnect keeps the timers in step and leaves no pending delete for the reconnected id. */
  lemma ReconnectKeepsTimersInStep(players: map<Id, Player>, delayedDeletes: map<Id, Handle>, pending: map<Handle, Id>, id: Id)
    requires TimersInStep(players, delayedDeletes, pending) && id in players
    ensures var pending' := if id in delayedDeletes then pending - {delayedDeletes[id]} else pending;
      && TimersInStep(players[id := players[id].(disconnected := false)], delayedDeletes - {id}, pending')
      && forall h :: h in pending' ==> pending'[h] != id
  {
  }

  /** A new join under a fresh id keeps the timers in step. */
  lemma JoinKeepsTimersInStep(players: map<Id, Player>, delayedDeletes: map<Id, Handle>, pending: map<Handle, Id>, p: Player)
    requires TimersInStep(players, delayedDeletes, pending) && p.id !in players
    ensures TimersInStep(players[p.id := p], delayedDeletes, pending)
  {
  }

  /** Disconnecting a connected player, with a new handle, keeps the timers in step. */
  lemma DisconnectKeepsTimersInStep(players: map<Id, Player>, delayedDeletes: map<Id, Handle>, pending: map<Handle, Id>, id: Id, h: Handle)
    requires TimersInStep(players, delayedDeletes, pending)
    requires id in players && !players[id].disconnected && h !in pending
    ensures TimersInStep(players[id := players[id].(disconnected := true)], delayedDeletes[id := h], pending[h := id])
  {
  }

  /** A delete firing keeps the timers in step. */
  lemma FireKeepsTimersInStep(players: map<Id, Player>, delayedDeletes: map<Id, Handle>, pending: map<Handle, Id>, h: Handle)
    requires TimersInStep(players, delayedDeletes, pending) && h in pending
    ensures TimersInStep(players - {pending[h]}, delayedDeletes, pending - {h})
  {
  }

  /** A new join adds one player, and one connected player, to the counts. */
  lemma JoinCounts(order: seq<Id>, players: map<Id, Player>, p: Player)
    requires WellFormed(order, players) && p.id !in players && !p.disconnected
    ensures WellFormed(order + [p.id], players[p.id := p])
    ensures |players[p.id := p]| == |players| + 1
    ensures ConnectedCount(order + [p.id], players[p.id := p]) == ConnectedCount(order, players) + 1
  {
    WellFormedInsert(order, players, p);
    ConnectedCountIsConnectedIds(order, players);
    ConnectedCountIsConnectedIds(order + [p.id], players[p.id := p]);
    ConnectedIdsUpdate(players, p);
    assert p.id !in ConnectedIds(players);
  }

  /** Changing one player's flag keeps the roster size, and moves the connected count by at most one. */
  lemma FlagCounts(order: seq<Id>, players: map<Id, Player>, id: Id, disconnected: bool)
    requires WellFormed(order, players) && id in players
    ensures var players' := players[id := players[id].(disconnected := disconnected)];
      && WellFormed(order, players')
      && |players'| == |players|
      && ConnectedCount(order, players') == ConnectedCount(order, players)
           - (if !players[id].disconnected && disconnected then 1 else 0)
           + (if players[id].disconnected && !disconnected then 1 else 0)
  {
    var p := players[id].(disconnected := disconnected);
    var players' := players[id := p];
    WellFormedUpdate(order, players, p);
    ConnectedCountIsConnectedIds(order, players);
    ConnectedCountIsConnectedIds(order, players');
    ConnectedIdsUpdate(players, p);
    RemoveOneSize(ConnectedIds(players), id);
    assert players'.Keys == players.Keys;
  }

  /**
   * Expiring a player lowers the key count below the old roster size by one
   * exactly when it was present, and the connected count by one exactly when
   * it was present and connected.
   */
  lemma DeleteCounts(order: seq<Id>, players: map<Id, Player>, id: Id)
    requires WellFormed(order, players)
    ensures Keyed(RemoveId(order, id), players - {id})
    ensures |RemoveId(order, id)| == |players| - (if id in players then 1 else 0)
    ensures ConnectedCount(RemoveId(order, id), players - {id})
         == ConnectedCount(order, players) - (if id in players && !players[id].disconnected then 1 else 0)
  {
    var order', players' := RemoveId(order, id), players - {id};
    WellFormedRemove(order, players, id);
    WellFormedSize(order, players);
    ConnectedCountIsConnectedIds(order, players);
    ConnectedCountIsConnectedIds(order', players');
    assert ConnectedIds(players') == ConnectedIds(players) - {id};
    RemoveOneSize(ConnectedIds(players), id);
  }

  /**
   * Disconnecting a player that is already disconnected and still has its
   * delete pending leaves that delete orphaned: it is no longer the recorded one.
   */
  lemma SecondDisconnectOrphansTimer(players: map<Id, Player>, delayedDeletes: map<Id, Handle>, pending: map<Handle, Id>, id: Id, h: Handle)
    requires TimersInStep(players, delayedDeletes, pending)
    requires id in players && id in delayedDeletes && delayedDeletes[id] in pending && h !in pending
    requires pending[delayedDeletes[id]] == id
    ensures !TimersInStep(players[id := players[id].(disconnected := true)], delayedDeletes[id := h], pending[h := id])
  {
    var first := delayedDeletes[id];
    assert first != h;
    assert (pending[h := id])[first] == id && (delayedDeletes[id := h])[id] != first;
  }

  class Game {
    /** `data.players`. */
    var players: map<Id, Player>
    /** The order in which `Object.keys(data.players)` enumerates the roster. */
    var order: seq<Id>
    /** `delayedDeletes`: the handle last armed for each id. */
    var delayedDeletes: map<Id, Handle>
    /** The armed delayed deletes that have neither fired nor been cancelled, with the id each one deletes. */
    var pending: map<Handle, Id>
    /** The next handle `delayCall` hands out. */
    var nextHandle: Handle
    /** Every responder call and self-notification, in order. */
    ghost var outbox: seq<Outbound>

    ghost predicate Valid()
      reads this
    {
      && WellFormed(order, players)
      && (forall h :: h in pending ==> h < nextHandle)
    }

    /**
     * `TimersInStep` for this room.  The source does not guarantee it by itself
     * (a second disconnect of a disconnected player orphans the first timer),
     * so it is stated apart from `Valid` and each operation says when it keeps it.
     */
    ghost predicate TimersTidy()
      reads this
    {
      TimersInStep(players, delayedDeletes, pending)
    }

    /** A room with no players, no timers and nothing sent. */
    constructor ()
      ensures Valid() && TimersTidy()
      ensures players == map[] && order == []
      ensures delayedDeletes == map[] && pending == map[] && nextHandle == 0
      ensures outbox == []
    {
      players, order := map[], [];
      delayedDeletes, pending, nextHandle := map[], map[], 0;
      outbox := [];
    }

    /** `numberOfPlayers`: the number of keys of the roster. */
    function NumberOfPlayers(): (n: nat)
      reads this
      requires Valid()
      ensures n == |players|
    {
      WellFormedSize(order, players);
      |order|
    }

    /** `numberOfConnectedPlayers`: the keys whose player is not marked disconnected. */
    function NumberOfConnectedPlayers(): (n: nat)
      reads this
      requires Valid()
      ensures n == |ConnectedIds(players)|
      ensures n <= NumberOfPlayers()
    {
      ConnectedCountIsConnectedIds(order, players);
      ConnectedCount(order, players)
    }

    /** `findPlayerByConnectionInfo`: a truthy prior id finds the player stored under it, if any. */
    function FindPlayerByConnectionInfo(priorId: Option<string>): (r: Option<Player>)
      reads this
      requires Valid()
      ensures r.Some? <==> Truthy(priorId) && priorId.value in players
      ensures r.Some? ==> r.value == players[priorId.value] && r.value.id == priorId.value
    {
      if Truthy(priorId) && priorId.value in players then Some(players[priorId.value])
      else None
    }

    /** `sendPlayer`: what it enqueues, one broadcast of the player's current record, and nothing for an unknown id. */
    function SendPlayer(id: Id): seq<Outbound>
      reads this
    {
      if id in players then [Send(ToAll, AddPlayers([players[id]]))] else []
    }

    /** `sendAllPlayersTo`: what it enqueues, the whole roster in key order to that one player. */
    function SendAllPlayersTo(id: Id): seq<Outbound>
      reads this
      requires Valid()
    {
      [Send(ToOne(id), AddPlayers(Records(order, players)))]
    }

    /** `sendDeletePlayer`: what it enqueues. */
    static function SendDeletePlayer(id: Id): seq<Outbound> {
      [Send(ToAll, DeletePlayer(id))]
    }

    /** `notifyAboutNewPlayer`: the `'self'` notification, carrying the new player's id and name. */
    static function NotifyAboutNewPlayer(id: Id, name: string): seq<Outbound> {
      [Notify(NewPlayerNote(id, name))]
    }

    /** `notifyAboutDisconnectedPlayer`: the `'self'` notification. */
    static function NotifyAboutDisconnectedPlayer(id: Id): seq<Outbound> {
      [Notify(DisconnectedNote(id))]
    }

    /** `notifyAboutDeletedPlayer`: the `'self'` notification. */
    static function NotifyAboutDeletedPlayer(id: Id): seq<Outbound> {
      [Notify(DeletedNote(id))]
    }

    /**
     * `tryReconnect`: when the prior id names a player, mark it connected,
     * broadcast its record, and cancel and forget its recorded delayed delete.
     * Nothing at all changes otherwise.
     */
    method TryReconnect(priorId: Option<string>) returns (r: Option<Id>)
      requires Valid()
      modifies this
      ensures Valid()
      ensures r.Some? <==> old(FindPlayerByConnectionInfo(priorId)).Some?
      ensures r.None? ==> unchanged(this)
      ensures r.Some? ==>
        var id := r.value;
        && priorId.Some? && priorId.value == id && id in old(players)
        && players == old(players)[id := old(players)[id].(disconnected := false)]
        && order == old(order)
        && outbox == old(outbox) + [Send(ToAll, AddPlayers([players[id]]))]
        && delayedDeletes == old(delayedDeletes) - {id}
        && pending == (if id in old(delayedDeletes) then old(pending) - {old(delayedDeletes)[id]} else old(pending))
        && nextHandle == old(nextHandle)
      ensures r.Some? && old(TimersTidy()) ==>
        TimersTidy() && forall h :: h in pending ==> pending[h] != r.value
    {
      var oldPlayer := FindPlayerByConnectionInfo(priorId);
      if oldPlayer.None? {
        return None;
      }
      var id := oldPlayer.value.id;
      if TimersTidy() { ReconnectKeepsTimersInStep(players, delayedDeletes, pending, id); }
      WellFormedUpdate(order, players, oldPlayer.value.(disconnected := false));
      players := players[id := oldPlayer.value.(disconnected := false)];
      outbox := outbox + SendPlayer(id);
      if id in delayedDeletes {
        pending := pending - {delayedDeletes[id]};
        delayedDeletes := delayedDeletes - {id};
      }
      r := Some(id);
    }

    /**
     * `connectPlayerWithInfo`: a reconnect when the prior id names a known
     * player; otherwise a new join under `freshId`, the id `uuid()` returns,
     * which sends the whole roster to the newcomer, broadcasts the newcomer's
     * record and notifies, in that order.
     */
    method ConnectPlayerWithInfo(name: string, priorId: Option<string>, freshId: Id) returns (id: Id)
      requires Valid() && freshId !in players
      modifies this
      ensures Valid()
      ensures old(FindPlayerByConnectionInfo(priorId)).Some? ==>
        && priorId.Some? && priorId.value == id && id in old(players)
        && players == old(players)[id := old(players)[id].(disconnected := false)]
        && order == old(order)
        && outbox == old(outbox) + [Send(ToAll, AddPlayers([players[id]]))]
        && delayedDeletes == old(delayedDeletes) - {id}
        && pending == (if id in old(delayedDeletes) then old(pending) - {old(delayedDeletes)[id]} else old(pending))
        && nextHandle == old(nextHandle)
      ensures old(FindPlayerByConnectionInfo(priorId)).None? ==>
        && id == freshId
        && players == old(players)[id := Player(id, name, 0, false)]
        && order == old(order) + [id]
        && Records(order, players) == Records(old(order), old(players)) + [players[id]]
        && outbox == old(outbox) + [
             Send(ToOne(id), AddPlayers(Records(order, players))),
             Send(ToAll, AddPlayers([players[id]])),
             Notify(NewPlayerNote(id, name))]
        && delayedDeletes == old(delayedDeletes) && pending == old(pending) && nextHandle == old(nextHandle)
      ensures old(TimersTidy()) ==> TimersTidy()
      ensures old(TimersTidy()) && old(FindPlayerByConnectionInfo(priorId)).Some? ==>
        forall h :: h in pending ==> pending[h] != id
    {
      var oldId := TryReconnect(priorId);
      if oldId.Some? {
        return oldId.value;
      }
      id := freshId;
      var newPlayer := Player(id, name, 0, false);
      WellFormedInsert(order, players, newPlayer);
      RecordsAppend(order, players, id, newPlayer);
      if TimersTidy() { JoinKeepsTimersInStep(players, delayedDeletes, pending, newPlayer); }
      players := players[id := newPlayer];
      order := order + [id];
      outbox := outbox + SendAllPlayersTo(id);
      outbox := outbox + SendPlayer(id);
      outbox := outbox + NotifyAboutNewPlayer(id, name);
    }

    /**
     * `disconnectPlayerWithId`: mark the player disconnected (it stays in the
     * roster), broadcast its record, notify, and arm a delayed delete.  The new
     * handle overwrites any handle already recorded for the id without
     * cancelling it, as the source does.
     */
    method DisconnectPlayerWithId(id: Id)
      requires Valid() && id in players
      modifies this
      ensures Valid()
      ensures players == old(players)[id := old(players)[id].(disconnected := true)]
      ensures order == old(order)
      ensures outbox == old(outbox) + [Send(ToAll, AddPlayers([players[id]])), Notify(DisconnectedNote(id))]
      ensures nextHandle == old(nextHandle) + 1
      ensures delayedDeletes == old(delayedDeletes)[id := old(nextHandle)]
      ensures pending == old(pending)[old(nextHandle) := id]
      ensures old(TimersTidy()) && !old(players)[id].disconnected ==> TimersTidy()
    {
      if TimersTidy() && !players[id].disconnected {
        DisconnectKeepsTimersInStep(players, delayedDeletes, pending, id, nextHandle);
      }
      var marked := players[id].(disconnected := true);
      WellFormedUpdate(order, players, marked);
      players := players[id := marked];
      outbox := outbox + SendPlayer(id);
      outbox := outbox + NotifyAboutDisconnectedPlayer(id);
      var handle := nextHandle;
      nextHandle := nextHandle + 1;
      pending := pending[handle := id];
      delayedDeletes := delayedDeletes[id := handle];
    }

    /**
     * The armed callback of `disconnectPlayerWithId` firing: delete the entry
     * (a no-op when it is already gone), broadcast the deletion, notify.
     * A cancelled delete is not in `pending` and so can never fire; a fired
     * handle leaves `pending` but stays recorded in `delayedDeletes`.
     */
    method FireDelete(h: Handle)
      requires Valid() && h in pending
      modifies this
      ensures Valid()
      ensures var id := old(pending)[h];
        && players == old(players) - {id}
        && order == RemoveId(old(order), id)
        && outbox == old(outbox) + [Send(ToAll, DeletePlayer(id)), Notify(DeletedNote(id))]
      ensures pending == old(pending) - {h}
      ensures delayedDeletes == old(delayedDeletes) && nextHandle == old(nextHandle)
      ensures old(TimersTidy()) ==> TimersTidy()
    {
      var id := pending[h];
      if TimersTidy() { FireKeepsTimersInStep(players, delayedDeletes, pending, h); }
      pending := pending - {h};
      WellFormedRemove(order, players, id);
      players := players - {id};
      order := RemoveId(order, id);
      outbox := outbox + SendDeletePlayer(id);
      outbox := outbox + NotifyAboutDeletedPlayer(id);
    }
  }

  /**
   * A disconnect of a connected player followed by a reconnect with its id
   * restores the roster and the set of pending deletes.
   */
  method DisconnectThenReconnect(g: Game, id: Id, name: string, freshId: Id)
    requires g.Valid() && g.TimersTidy() && id in g.players && !g.players[id].disconnected
    requires freshId !in g.players
    modifies g
    ensures g.Valid() && g.TimersTidy()
    ensures g.players == old(g.players) && g.order == old(g.order)
    ensures g.pending == old(g.pending)
  {
    ghost var p, n := g.players[id], g.nextHandle;
    g.DisconnectPlayerWithId(id);
    assert n !in old(g.pending);
    var back := g.ConnectPlayerWithInfo(name, Some(id), freshId);
    assert p.(disconnected := true).(disconnected := false) == p;
  }

  /**
   * The orphaned timer: two disconnects in a row leave the first delete armed,
   * the reconnect in between cancels only the second, and the first one then
   * removes the player who is connected again.
   */
  method OrphanedTimerScenario() returns (reconnected: bool, survives: bool)
    ensures reconnected && !survives
  {
    var g := new Game();
    var a := g.ConnectPlayerWithInfo("Meow", None, "a");
    g.DisconnectPlayerWithId(a);
    var first := g.delayedDeletes[a];
    g.DisconnectPlayerWithId(a);
    var back := g.ConnectPlayerWithInfo("Meow", Some(a), "b");
    reconnected := back == a && !g.players[a].disconnected;
    g.FireDelete(first);
    survives := a in g.players;
  }
}
