/** The world of the two stores: tickets and states by id, and a log of what was done. */
module Stores {
  import opened Basics
  import opened Tickets
  import opened PineModels

  /** Asked is a preview submitted to the broker, ClientLost a preview that was counted
      but whose client could not be loaded, Answered a preview that succeeded. */
  datatype Note =
    | Created(id: string)
    | Prepared(id: string)
    | Enriched(id: string)
    | Pending(id: string)
    | Asked(id: string, account: string, request: Option<Request>)
    | ClientLost(id: string)
    | Answered(id: string, previewId: Option<string>)
    | Confirmed(id: string, on: bool, request: Option<Request>)
    | Placed(id: string, account: string, place: PlaceRequest)
    | Accepted(state: string, event: string)
    | StatesCleared

  datatype World = World(tickets: map<string, Ticket>, states: map<string, PineState>, log: seq<Note>)

  const EMPTY_WORLD := World(map[], map[], [])

  function Saved(w: World, t: Ticket): World { w.(tickets := w.tickets[t.id := t]) }

  function Noted(w: World, n: Note): World { w.(log := w.log + [n]) }

  function StateSaved(w: World, sid: string, s: PineState): World { w.(states := w.states[sid := s]) }

  function Cleared(w: World, alsoStates: bool): World {
    if alsoStates then World(map[], map[], w.log + [StatesCleared]) else w.(tickets := map[])
  }
}
