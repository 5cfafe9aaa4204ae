// What source programs, IR and target code share at run time: calls are events whose
// results come from the surrounding world.
module Runtime {
  import opened Common

  datatype Event = Event(callee: string, args: seq<int>, result: int)
  type Trace = seq<Event>

  // The world answers a call from the history of calls, the callee and the arguments.
  // None is a call that does not come back.
  type World = (Trace, string, seq<int>) -> Option<int>
}
