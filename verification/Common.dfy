/** Types shared by every component. */
module Common {
  datatype Option<+T> = None | Some(value: T)

  datatype Result<+T, +E> = Ok(value: T) | Err(error: E)

  /** A reading of the monotonic clock, in seconds. */
  type Instant = real

  /** Time from `earlier` to `now`, zero when the readings are out of order. */
  function SaturatingSince(now: Instant, earlier: Instant): (d: real)
    ensures d >= 0.0
    ensures d >= now - earlier
    ensures d == 0.0 || d == now - earlier
  {
    if now > earlier then now - earlier else 0.0
  }

  const I64_MAX: int := 0x7FFF_FFFF_FFFF_FFFF

  function Min(a: int, b: int): int {
    if a < b then a else b
  }

  function Max(a: int, b: int): int {
    if a < b then b else a
  }

  lemma {:induction false} SubsetSize<T>(a: set<T>, b: set<T>)
    requires a <= b
    ensures |a| <= |b|
  {
    assert b == a + (b - a);
  }

  lemma {:induction false} RemoveOne<T>(a: set<T>, x: T)
    requires x in a
    ensures |a - {x}| == |a| - 1
  {
    assert a == (a - {x}) + {x};
  }
}
