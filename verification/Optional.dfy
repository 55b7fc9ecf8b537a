/** Swift's optional type `T?` and the operations on it that the view controller
    demonstrates: nil-coalescing `??`, forced unwrapping `!`, optional chaining `?.`,
    and the library accessors that answer with an optional (`first`, a dictionary
    subscript) next to the one that does not (an array subscript). */
module Optional {

  /** `T?`: nil, or a wrapped value. Absence is its own state, not a sentinel of `T`. */
  datatype Option<T> = None | Some(value: T)

  /** `o ?? d`: the wrapped value when there is one, otherwise the default. */
  function Coalesce<T>(o: Option<T>, d: T): T
  {
    match o
    case Some(v) => v
    case None => d
  }

  /** `o!`: only allowed where `o` is known not to be nil. */
  function ForceUnwrap<T>(o: Option<T>): (r: T)
    requires o != None
    ensures Some(r) == o
  {
    o.value
  }

  /** `o?.member`: nil short-circuits the access; otherwise the member of the wrapped value. */
  function Chain<T, U>(o: Option<T>, member: T -> U): (r: Option<U>)
    ensures r.Some? <==> o.Some?
  {
    match o
    case Some(v) => Some(member(v))
    case None => None
  }

  /** `a.first` on an array. */
  function First<T>(a: seq<T>): (r: Option<T>)
    ensures r == None <==> a == []
  {
    if |a| == 0 then None else Some(a[0])
  }

  /** `m[k]` on a dictionary: nil for a key the dictionary does not hold. */
  function Lookup<K, V>(m: map<K, V>, k: K): (r: Option<V>)
    ensures r.Some? <==> k in m
  {
    if k in m then Some(m[k]) else None
  }

  /** `a[i]` on an array: not optional; an index out of range is a fatal error.
      The element at `i` is the one `first` finds once the `i` elements before it
      are dropped. */
  function Subscript<T>(a: seq<T>, i: int): (r: T)
    requires 0 <= i < |a|
    ensures r in a
    ensures First(a[i..]) == Some(r)
  {
    a[i]
  }

  /** `??` yields the default exactly when there is nothing else to yield:
      the optional is nil, or it wraps the default itself. A present value,
      even an empty string, is never replaced. */
  lemma CoalesceCharacterization<T>(o: Option<T>, d: T)
    ensures o == None ==> Coalesce(o, d) == d
    ensures Coalesce(o, d) == d <==> (o == None || o == Some(d))
    ensures o != None ==> Coalesce(o, d) == ForceUnwrap(o)
  {
  }

  /** Chaining then coalescing with the member's default equals coalescing then
      reading the member. */
  lemma ChainCoalesce<T, U>(o: Option<T>, member: T -> U, d: T)
    ensures Coalesce(Chain(o, member), member(d)) == member(Coalesce(o, d))
  {
  }

  /** `first` agrees with subscript 0 on a non-empty array. */
  lemma FirstIsSubscriptZero<T>(a: seq<T>)
    ensures |a| > 0 ==> First(a) == Some(Subscript(a, 0))
    ensures First(a) != None ==> |a| > 0 && ForceUnwrap(First(a)) == Subscript(a, 0)
  {
  }

  /** A dictionary lookup answers `v` exactly when the key is bound to `v`. */
  lemma LookupCharacterization<K, V>(m: map<K, V>, k: K, v: V)
    ensures Lookup(m, k) == Some(v) <==> k in m && m[k] == v
    ensures Lookup(m, k) == None <==> k !in m
  {
  }

  /** An unwrap guarded by a nil test (`if o != nil { o! }`) gives back what `o` wraps,
      and it is the same value `??` yields. */
  lemma GuardedUnwrap<T>(o: Option<T>, d: T)
    requires o != None
    ensures Some(ForceUnwrap(o)) == o
    ensures ForceUnwrap(o) == Coalesce(o, d)
  {
  }
}
