module Wrappers {
  datatype Option<+T> = None | Some(value: T)

  /** Things numbered in the order of their creation: the newest one and the earlier ones. */
  datatype Line<T> = Line(past: seq<T>, now: Option<T>) {
    function Size(): nat {
      |past| + if now.Some? then 1 else 0
    }

    predicate Has(i: nat) {
      i < |past| || (i == |past| && now.Some?)
    }

    function Get(i: nat): T
      requires Has(i)
    {
      if i < |past| then past[i] else now.value
    }

    function Put(i: nat, x: T): Line<T>
      requires Has(i)
    {
      if i < |past| then this.(past := past[i := x]) else this.(now := Some(x))
    }

    function Push(x: T): Line<T> {
      Line(if now.Some? then past + [now.value] else past, Some(x))
    }

    /** The number of the newest thing. */
    function Newest(): Option<nat> {
      if now.Some? then Some(|past|) else None
    }
  }

  function Empty<T>(): Line<T> {
    Line([], None)
  }
}
