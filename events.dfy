/** The events that flow through the backtester's single queue, and the queue itself. */
module Events {

  /** One queued event. Every variant carries the `target` lane tag ("ALGO" or "BENCH");
      the type tag of the source's event hierarchy becomes the constructor. An event whose
      type string names none of the four known kinds is an `Other`: its `kind` is never
      "MARKET", "SIGNAL", "ORDER" or "FILL", since an event of one of those types is built
      with its own constructor. */
  datatype Event =
    | Market(target: string)
    | Signal(symbol: string, strength: real, target: string)
    | Order(symbol: string, orderType: string, quantity: int, direction: string, target: string)
    | Fill(symbol: string, quantity: int, direction: string, commission: real, target: string)
    | Other(kind: string, target: string)

  /** The shared event list: every component holds a reference to the same queue,
      pushes at the tail, and only the dispatcher removes the head. */
  class EventQueue {
    var items: seq<Event>

    constructor ()
      ensures items == []
    {
      items := [];
    }

    method Push(e: Event)
      modifies this
      ensures items == old(items) + [e]
    {
      items := items + [e];
    }

    method PushAll(es: seq<Event>)
      modifies this
      ensures items == old(items) + es
    {
      items := items + es;
    }

    /** Erases the head event; the source only does so after checking the list is non-empty. */
    method PopFront()
      requires items != []
      modifies this
      ensures items == old(items)[1..]
    {
      items := items[1..];
    }
  }
}
