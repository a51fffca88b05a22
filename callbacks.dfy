/** The mutable objects the core hands around: caller-owned ArrayLists, the HashSet a
    page scan records its fields in, and the two callback interfaces, whose
    implementations are modelled by what they receive. */
module Callbacks {

  /** A java.util.ArrayList that methods append to and clear. */
  class ArrayList<T> {
    var items: seq<T>

    constructor()
      ensures items == []
    {
      items := [];
    }

    /** `add`: appends at the end. */
    method Add(x: T)
      modifies this
      ensures items == old(items) + [x]
    {
      items := items + [x];
    }

    /** `clear`. */
    method Clear()
      modifies this
      ensures items == []
    {
      items := [];
    }
  }

  /** A java.util.HashSet that methods add to; only its contents are modelled. */
  class HashSet<T(==)> {
    var elements: set<T>

    constructor()
      ensures elements == {}
    {
      elements := {};
    }

    /** `add`: a no-op when the element is already present. */
    method Add(x: T)
      modifies this
      ensures elements == old(elements) + {x}
    {
      elements := elements + {x};
    }
  }

  /** GameRetrievalCallback: every call of `retrieveGame` is recorded as one batch, in
      call order, holding the collection's contents at the time of the call. */
  class GameCallback<T> {
    var batches: seq<seq<T>>

    constructor()
      ensures batches == []
    {
      batches := [];
    }

    method RetrieveGame(games: seq<T>)
      modifies this
      ensures batches == old(batches) + [games]
    {
      batches := batches + [games];
    }
  }

  /** GameRetrievalErrorCallback: every `handleError` is recorded, in call order. */
  class ErrorCallback {
    var errors: seq<string>

    constructor()
      ensures errors == []
    {
      errors := [];
    }

    method HandleError(reason: string)
      modifies this
      ensures errors == old(errors) + [reason]
    {
      errors := errors + [reason];
    }
  }
}
