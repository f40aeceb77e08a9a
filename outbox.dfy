/**
 * The outbound side of the engine, reduced to abstract records.  Every call
 * into the responder (to all, to one, to all but one) becomes one `Send`
 * record; every self-issued lifecycle notification (`handleMessage('self', …)`)
 * becomes one `Notify` record.  Message construction and transport are not
 * modelled: a record carries only the tag and the payload that matter.
 */
module Outbox {
  import opened Common
  import opened Roster

  /** Who a responder call is addressed to. */
  datatype Target = ToAll | ToOne(id: Id) | ToAllButOne(excluded: Id)

  /** The outbound action tags the core produces, with their payloads. */
  datatype Message =
    | AddPlayers(players: seq<Player>)
    | DeletePlayer(id: Id)
    | SetLeader(leader: Id)
    | StartRound(word: Option<string>)

  /** The lifecycle notifications the engine feeds back to itself as sender `'self'`. */
  datatype Notification =
    | NewPlayerNote(id: Id, name: string)
    | DisconnectedNote(id: Id)
    | DeletedNote(id: Id)

  datatype Outbound = Send(target: Target, message: Message) | Notify(note: Notification)

  /** Whether a responder call addressed to `t` reaches the player `id`. */
  predicate Reaches(t: Target, id: Id) {
    match t
    case ToAll => true
    case ToOne(one) => one == id
    case ToAllButOne(excluded) => excluded != id
  }

  /** A record through which the secret word travels. */
  predicate CarriesWord(o: Outbound) {
    o.Send? && o.message.StartRound? && o.message.word.Some?
  }
}
