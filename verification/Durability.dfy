/**
  Places on a disk that may lose what was not synced.
 */
module Durability {
  import opened ByteLines

  /** What a place holds now, and every version of it that a crash may bring back. */
  datatype Cell<T> = Cell(live: T, may: set<T>)

  function Durable<T>(v: T): Cell<T> { Cell(v, {v}) }

  function Changed<T>(c: Cell<T>, v: T): Cell<T> { Cell(v, c.may + {v}) }

  function Prefixes(old_: seq<byte>, chunk: seq<byte>): set<seq<byte>> {
    set k | 0 <= k <= |chunk| :: old_ + chunk[..k]
  }

  /** Appending may persist any prefix of the bytes. */
  function Appended(c: Cell<seq<byte>>, chunk: seq<byte>): Cell<seq<byte>> {
    Cell(c.live + chunk, c.may + Prefixes(c.live, chunk))
  }

  predicate Current<T>(c: Cell<T>) {
    c.live in c.may
  }

  predicate Restarted<T>(a: Cell<T>, b: Cell<T>) {
    b.live in a.may && b.may == {b.live}
  }

  lemma SubsetSmaller(a: set<string>, b: set<string>)
    requires a <= b
    ensures |a| <= |b|
  {
    if a != {} {
      var x :| x in a;
      SubsetSmaller(a - {x}, b - {x});
    }
  }
}
