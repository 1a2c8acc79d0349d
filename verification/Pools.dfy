/** Reusable slices (cache/pools.go): Go slices over shared arrays, and the pools that hand the arrays out again. */
module Pools {

  const INITIAL_CAPACITY := 16
  const MAX_POOL_SLICE_SIZE := 256

  /** A Go slice that starts at the first element of its backing array. */
  datatype Slice<!T> = Slice(backing: array<T>, len: nat) {
    predicate Ok() {
      len <= backing.Length
    }

    function View(): seq<T>
      requires Ok()
      reads backing
    {
      backing[..len]
    }
  }

  /** Go's `append` of one element: in place while the capacity lasts, else in a new, larger array. */
  method Append<T(0)>(s: Slice<T>, x: T) returns (r: Slice<T>)
    requires s.Ok()
    modifies s.backing
    ensures r.Ok() && r.View() == old(s.View()) + [x]
    ensures if s.len < s.backing.Length then r.backing == s.backing else fresh(r.backing)
    ensures forall k :: s.len < k < s.backing.Length ==> s.backing[k] == old(s.backing[k])
  {
    var backing := s.backing;
    if s.len == s.backing.Length {
      var capacity: int := *;
      backing := new T[if capacity > s.len then capacity else s.len + 1];
      CopyInto(s.backing, backing, s.len);
    }
    backing[s.len] := x;
    r := Slice(backing, s.len + 1);
  }

  /** Go's `copy` of the first n elements between different arrays. */
  method CopyInto<T>(from: array<T>, to: array<T>, n: nat)
    requires n <= from.Length && n <= to.Length && from != to
    modifies to
    ensures to[..n] == from[..n]
    ensures forall k :: n <= k < to.Length ==> to[k] == old(to[k])
  {
    for i := 0 to n
      invariant to[..i] == from[..i]
      invariant forall k :: n <= k < to.Length ==> to[k] == old(to[k])
    {
      to[i] := from[i];
    }
  }

  /** A copy of a slice in an array of its own. */
  method Copied<T(0)>(s: Slice<T>) returns (a: array<T>)
    requires s.Ok()
    ensures fresh(a) && a[..] == s.View()
  {
    a := new T[s.len];
    CopyInto(s.backing, a, s.len);
  }

  /** A pool of arrays, of which `sync.Pool` may return any, or none. */
  class SlicePool<T(0)> {
    var free: set<array<T>>

    constructor ()
      ensures free == {}
    {
      free := {};
    }

    /** An empty slice over an array nobody else can get from the pool until it is put back. */
    method Get() returns (s: Slice<T>)
      modifies this
      ensures s.Ok() && s.View() == [] && s.backing !in free
      ensures || (s.backing in old(free) && free == old(free) - {s.backing})
              || (fresh(s.backing) && s.backing.Length == 16 && free == old(free))
    {
      var discarded: bool := *;
      if free == {} || discarded {
        var backing := new T[INITIAL_CAPACITY];
        s := Slice(backing, 0);
      } else {
        var a :| a in free;
        free := free - {a};
        s := Slice(a, 0);
      }
    }

    /** Arrays that have grown too large are left to the garbage collector. An array put back twice could be handed out
        to two users at once, so every caller has to show that the pool does not hold it already. */
    method Put(s: Slice<T>)
      requires s.backing !in free
      modifies this
      ensures free == old(free) + if s.backing.Length <= 256 then {s.backing} else {}
    {
      if s.backing.Length <= MAX_POOL_SLICE_SIZE {
        free := free + {s.backing};
      }
    }
  }
}
