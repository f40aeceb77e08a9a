/**
 * The player roster shared by the session engine and the round states:
 * a dictionary from player id to player record, together with the order in
 * which `Object.keys` enumerates it.  That is insertion order for keys that
 * are not array indices (such as "0" or "17"), which the `uuid()` strings never are.
 */
module Roster {
  import opened Common

  /** A player id.  Ids are minted by `uuid()` and are never empty, so a present id is truthy. */
  type Id = s: string | |s| > 0 witness "p"

  datatype Player = Player(id: Id, name: string, score: nat, disconnected: bool)

  /** Every enumerated key has an entry. */
  predicate Keyed(order: seq<Id>, players: map<Id, Player>) {
    forall i :: 0 <= i < |order| ==> order[i] in players
  }

  /**
   * `order` enumerates exactly the keys of `players`, each once, and every
   * record is stored under its own id.
   */
  predicate WellFormed(order: seq<Id>, players: map<Id, Player>) {
    && Distinct(order)
    && Keyed(order, players)
    && (forall id :: id in players ==> id in order)
    && (forall id :: id in players ==> players[id].id == id)
  }

  /** The ids of the players that are not marked disconnected. */
  function ConnectedIds(players: map<Id, Player>): set<Id> {
    set id | id in players && !players[id].disconnected
  }

  /** `Object.keys(players).filter(id => !players[id].disconnected).length`. */
  function ConnectedCount(order: seq<Id>, players: map<Id, Player>): nat
    requires Keyed(order, players)
  {
    if order == [] then 0
    else (if players[order[0]].disconnected then 0 else 1) + ConnectedCount(order[1..], players)
  }

  /** `Object.keys(players).map(id => players[id])`: the records in enumeration order. */
  function Records(order: seq<Id>, players: map<Id, Player>): seq<Player>
    requires Keyed(order, players)
  {
    seq(|order|, i requires 0 <= i < |order| => players[order[i]])
  }

  /** The enumeration order after `delete players[id]`: `id` is dropped, the rest keep their order. */
  function RemoveId(order: seq<Id>, id: Id): seq<Id> {
    if order == [] then []
    else if order[0] == id then RemoveId(order[1..], id)
    else [order[0]] + RemoveId(order[1..], id)
  }

  /**
   * `RemoveId` drops exactly `id`: the others are kept, a repetition-free
   * order stays repetition-free and is then one shorter when it held `id`.
   */
  lemma {:induction false} RemoveIdFacts(order: seq<Id>, id: Id)
    ensures forall x :: x in RemoveId(order, id) <==> x in order && x != id
    ensures Distinct(order) ==> Distinct(RemoveId(order, id))
    ensures Distinct(order) ==> |RemoveId(order, id)| == |order| - (if id in order then 1 else 0)
  {
    if order != [] {
      RemoveIdFacts(order[1..], id);
      assert order == [order[0]] + order[1..];
      assert forall x :: x in order <==> x == order[0] || x in order[1..];
      if Distinct(order) {
        DistinctTail(order);
        var rest := RemoveId(order[1..], id);
        if order[0] != id {
          var r := [order[0]] + rest;
          forall i, j | 0 <= i < j < |r| ensures r[i] != r[j] {
            if i == 0 { assert r[j] == rest[j - 1]; assert r[j] in rest; }
            else { assert r[i] == rest[i - 1] && r[j] == rest[j - 1]; }
          }
        }
      }
    }
  }

  /** Deleting a key that is not enumerated leaves the enumeration as it was. */
  lemma {:induction false} RemoveIdAbsent(order: seq<Id>, id: Id)
    requires id !in order
    ensures RemoveId(order, id) == order
  {
    if order != [] {
      assert order[0] != id && id !in order[1..];
      RemoveIdAbsent(order[1..], id);
      assert order == [order[0]] + order[1..];
    }
  }

  /**
   * Deleting the key at position `k` of a repetition-free enumeration splices
   * it out: the keys before it and the keys after it keep their order.
   */
  lemma {:induction false} RemoveIdSplice(order: seq<Id>, id: Id, k: nat)
    requires Distinct(order) && k < |order| && order[k] == id
    ensures RemoveId(order, id) == order[..k] + order[k + 1..]
  {
    DistinctTail(order);
    var rest := order[1..];
    if k == 0 {
      RemoveIdAbsent(rest, id);
    } else {
      assert rest[k - 1] == id;
      RemoveIdSplice(rest, id, k - 1);
      assert order[..k] == [order[0]] + rest[..k - 1];
      assert order[k + 1..] == rest[k..];
    }
  }

  /** The roster size read through the keys equals the dictionary's size. */
  lemma WellFormedSize(order: seq<Id>, players: map<Id, Player>)
    requires WellFormed(order, players)
    ensures |order| == |players|
  {
    DistinctSize(order);
    assert players.Keys == set x | x in order;
  }

  /** The connected ids among those that `order` enumerates. */
  function ConnectedAmong(order: seq<Id>, players: map<Id, Player>): set<Id> {
    set id | id in order && id in players && !players[id].disconnected
  }

  /** The connected count is the number of connected ids, independent of the enumeration order. */
  lemma {:induction false} ConnectedCountIsSize(order: seq<Id>, players: map<Id, Player>)
    requires Distinct(order) && Keyed(order, players)
    ensures ConnectedCount(order, players) == |ConnectedAmong(order, players)|
  {
    if order != [] {
      var rest := order[1..];
      DistinctTail(order);
      assert Keyed(rest, players) by {
        forall i | 0 <= i < |rest| ensures rest[i] in players {
          assert rest[i] == order[i + 1];
        }
      }
      ConnectedCountIsSize(rest, players);
      var all, tail := ConnectedAmong(order, players), ConnectedAmong(rest, players);
      assert order == [order[0]] + rest;
      assert forall id :: id in order <==> id == order[0] || id in rest;
      if players[order[0]].disconnected {
        forall id ensures id in all <==> id in tail {
          if id in all && id != order[0] { assert id in rest; }
        }
        assert all == tail;
      } else {
        forall id ensures id in all <==> id in tail + {order[0]} {
          if id in all && id != order[0] { assert id in rest; }
        }
        assert all == tail + {order[0]};
      }
    }
  }

  /** The filter keeps at most every key. */
  lemma {:induction false} ConnectedCountBound(order: seq<Id>, players: map<Id, Player>)
    requires Keyed(order, players)
    ensures ConnectedCount(order, players) <= |order|
  {
    if order != [] {
      assert Keyed(order[1..], players) by {
        forall i | 0 <= i < |order[1..]| ensures order[1..][i] in players {
          assert order[1..][i] == order[i + 1];
        }
      }
      ConnectedCountBound(order[1..], players);
    }
  }

  /** Over a well-formed roster the connected count is the size of `ConnectedIds`, and never exceeds the roster size. */
  lemma ConnectedCountIsConnectedIds(order: seq<Id>, players: map<Id, Player>)
    requires WellFormed(order, players)
    ensures ConnectedCount(order, players) == |ConnectedIds(players)|
    ensures |ConnectedIds(players)| <= |players|
  {
    ConnectedCountIsSize(order, players);
    assert ConnectedAmong(order, players) == ConnectedIds(players);
    ConnectedCountBound(order, players);
    WellFormedSize(order, players);
  }

  /** Inserting a new player under a new key, appended to the order, keeps the roster well formed. */
  lemma WellFormedInsert(order: seq<Id>, players: map<Id, Player>, p: Player)
    requires WellFormed(order, players) && p.id !in players
    ensures WellFormed(order + [p.id], players[p.id := p])
  {
    var order' := order + [p.id];
    forall i, j | 0 <= i < j < |order'| ensures order'[i] != order'[j] {
      if j == |order| { assert order'[i] in order; } else { assert order'[i] == order[i] && order'[j] == order[j]; }
    }
    forall i | 0 <= i < |order'| ensures order'[i] in players[p.id := p] {
      if i < |order| { assert order'[i] == order[i]; }
    }
  }

  /** Replacing a record by one with the same id keeps the roster well formed. */
  lemma WellFormedUpdate(order: seq<Id>, players: map<Id, Player>, p: Player)
    requires WellFormed(order, players) && p.id in players
    ensures WellFormed(order, players[p.id := p])
  {
  }

  /** Deleting a key from the dictionary and from the order keeps the roster well formed. */
  lemma WellFormedRemove(order: seq<Id>, players: map<Id, Player>, id: Id)
    requires WellFormed(order, players)
    ensures WellFormed(RemoveId(order, id), players - {id})
    ensures |RemoveId(order, id)| == |order| - (if id in players then 1 else 0)
  {
    RemoveIdFacts(order, id);
    var order' := RemoveId(order, id);
    forall i | 0 <= i < |order'| ensures order'[i] in players - {id} {
      assert order'[i] in order';
    }
  }

  /** Setting a player's flag moves exactly that id into or out of the connected set. */
  lemma ConnectedIdsUpdate(players: map<Id, Player>, p: Player)
    ensures ConnectedIds(players[p.id := p]) ==
      if p.disconnected then ConnectedIds(players) - {p.id} else ConnectedIds(players) + {p.id}
  {
  }

  /** Removing an id from a set of ids lowers its size by one exactly when the id was in it. */
  lemma RemoveOneSize(s: set<Id>, id: Id)
    ensures |s - {id}| == |s| - (if id in s then 1 else 0)
  {
    if id in s { assert s == (s - {id}) + {id}; }
  }

  /** Enumerating a roster after inserting a new key lists the old records, then the new one. */
  lemma RecordsAppend(order: seq<Id>, players: map<Id, Player>, id: Id, p: Player)
    requires Keyed(order, players) && id !in order
    ensures Keyed(order + [id], players[id := p])
    ensures Records(order + [id], players[id := p]) == Records(order, players) + [p]
  {
    var order', players' := order + [id], players[id := p];
    forall i | 0 <= i < |order'| ensures order'[i] in players' {
      if i < |order| { assert order'[i] == order[i]; }
    }
    var lhs, rhs := Records(order', players'), Records(order, players) + [p];
    forall i | 0 <= i < |lhs| ensures lhs[i] == rhs[i] {
      if i < |order| {
        assert order'[i] == order[i] && order[i] != id;
      }
    }
  }
}
