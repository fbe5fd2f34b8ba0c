/** Flow-control window arithmetic of an HTTP/2 engine (section 6.9 and 6.9.1 of RFC 7540).

    The window is a signed 32-bit register. Every mutating operation computes a candidate
    with checked machine arithmetic and assigns it only when the arithmetic did not
    overflow, so a failed operation leaves the window exactly as it was. */
module FlowControl {

  /** The values of a Rust `i32`. */
  type i32 = x: int | -0x8000_0000 <= x <= 0x7fff_ffff

  /** The values of a Rust `u32`. */
  type u32 = x: int | 0 <= x <= 0xffff_ffff

  const I32_MIN: int := -0x8000_0000
  const I32_MAX: int := 0x7fff_ffff
  const TWO_POW_32: int := 0x1_0000_0000

  /** The largest value a flow-control window may reach (2^31 - 1). */
  const MAX_WINDOW_SIZE: u32 := 0x7fff_ffff

  /** The largest legal increment carried by a single WINDOW_UPDATE (2^31 - 1). */
  const MAX_WINDOW_SIZE_INC: u32 := 0x7fff_ffff

  predicate InI32(x: int) {
    I32_MIN <= x <= I32_MAX
  }

  datatype Option<T> = None | Some(value: T)

  // ---------------------------------------------------------------------------
  // Two's-complement casts and checked arithmetic on i32
  // ---------------------------------------------------------------------------

  /** `x as u32`: the same 32 bits read as an unsigned number. */
  function AsU32(x: i32): (r: u32)
    ensures (r - x) % TWO_POW_32 == 0
    ensures x >= 0 ==> r == x
    ensures x < 0 ==> r > I32_MAX
  {
    if x >= 0 then x else x + TWO_POW_32
  }

  /** `u as i32`: the same 32 bits read as a signed number. */
  function AsI32(u: u32): (r: i32)
    ensures (u - r) % TWO_POW_32 == 0
    ensures u <= I32_MAX ==> r == u
    ensures u > I32_MAX ==> r < 0
  {
    if u <= I32_MAX then u else u - TWO_POW_32
  }

  /** Reading the bits of an i32 as unsigned and back again gives the same i32. */
  lemma AsI32AsU32(x: i32)
    ensures AsI32(AsU32(x)) == x
  {
  }

  /** The low 32 bits of the exact sum, as the register holds them. */
  function WrappingAdd(a: i32, b: i32): i32 {
    AsI32((a + b) % TWO_POW_32)
  }

  /** The low 32 bits of the exact difference, as the register holds them. */
  function WrappingSub(a: i32, b: i32): i32 {
    AsI32((a - b) % TWO_POW_32)
  }

  /** `a.checked_add(b)`: the register sum, rejected when the operands have the same sign
      and the sum's sign differs from theirs. It succeeds exactly when the true sum fits
      an i32, and then yields that sum. */
  function CheckedAdd(a: i32, b: i32): (r: Option<i32>)
    ensures r.Some? <==> InI32(a + b)
    ensures r.Some? ==> r.value == a + b
  {
    var sum := WrappingAdd(a, b);
    if (a >= 0) == (b >= 0) && (sum >= 0) != (a >= 0) then None else Some(sum)
  }

  /** `a.checked_sub(b)`: the register difference, rejected when the operands have
      different signs and the difference's sign differs from `a`'s. It succeeds exactly
      when the true difference fits an i32, and then yields that difference. */
  function CheckedSub(a: i32, b: i32): (r: Option<i32>)
    ensures r.Some? <==> InI32(a - b)
    ensures r.Some? ==> r.value == a - b
  {
    var diff := WrappingSub(a, b);
    if (a >= 0) != (b >= 0) && (diff >= 0) != (a >= 0) then None else Some(diff)
  }

  // ---------------------------------------------------------------------------
  // The window
  // ---------------------------------------------------------------------------

  /** The size of a flow-control window. It may be negative; it is never outside the i32
      range because every mutation goes through checked arithmetic. A result of `true`
      stands for `Ok(())`, `false` for `Err(())`. */
  class WindowSize {
    var value: i32

    /** Any i32 is accepted as the initial size, negative ones included. */
    constructor (size: i32)
      ensures value == size
    {
      value := size;
    }

    /** The current size, which may be negative. */
    function Size(): (r: i32)
      reads this
      ensures r == value
    {
      value
    }

    /** Adds a WINDOW_UPDATE increment. A zero increment or one above
        MAX_WINDOW_SIZE_INC is refused outright; an increment that would carry the window
        past MAX_WINDOW_SIZE is refused too. Nothing changes on refusal. The last clause
        holds because the window is an i32, whose largest value is MAX_WINDOW_SIZE. */
    method TryIncrease(delta: u32) returns (ok: bool)
      modifies this
      ensures ok <==> 0 < delta <= MAX_WINDOW_SIZE_INC && old(value) + delta <= MAX_WINDOW_SIZE
      ensures ok ==> value == old(value) + delta
      ensures !ok ==> value == old(value)
      ensures ok ==> value <= MAX_WINDOW_SIZE
    {
      if delta > MAX_WINDOW_SIZE_INC || delta == 0 {
        return false;
      }
      match CheckedAdd(value, AsI32(delta))
      case None =>
        ok := false;
      case Some(next) =>
        value := next;
        ok := true;
    }

    /** Subtracts `delta` with no floor at zero; fails, leaving the window unchanged,
        only when the difference leaves the i32 range (at either end, since `delta` may
        be negative). */
    method TryDecrease(delta: i32) returns (ok: bool)
      modifies this
      ensures ok <==> InI32(old(value) - delta)
      ensures ok ==> value == old(value) - delta
      ensures !ok ==> value == old(value)
    {
      match CheckedSub(value, delta)
      case Some(next) =>
        value := next;
        ok := true;
      case None =>
        ok := false;
    }

    /** Subtracts `delta` only when the difference is an i32 and not negative (zero is
        allowed); otherwise fails and leaves the window unchanged. */
    method TryDecreaseToPositive(delta: i32) returns (ok: bool)
      modifies this
      ensures ok <==> 0 <= old(value) - delta <= I32_MAX
      ensures ok ==> value == old(value) - delta
      ensures !ok ==> value == old(value)
    {
      match CheckedSub(value, delta)
      case Some(next) =>
        if next >= 0 {
          value := next;
          ok := true;
        } else {
          ok := false;
        }
      case None =>
        ok := false;
    }

    /** The size as an unsigned number. Its documented contract forbids calling it on a
        negative window; on a non-negative one the number is unchanged. */
    function Unsigned(): (r: u32)
      reads this
      requires value >= 0
      ensures r == value
      ensures r <= MAX_WINDOW_SIZE
    {
      AsU32(value)
    }

    /** The accessor as its code reads: cast to u32, then check that casting back gives
        the stored value. That check holds for every i32, so it never fires, and a
        negative window comes back wrapped to a number above 2^31 - 1. */
    method UnsignedAsWritten() returns (r: u32)
      ensures value >= 0 ==> r == value
      ensures value < 0 ==> r == value + TWO_POW_32
    {
      r := AsU32(value);
      AsI32AsU32(value);
      assert AsI32(r) == value;
    }
  }

  // ---------------------------------------------------------------------------
  // Scenarios
  // ---------------------------------------------------------------------------

  /** A stream window of 65535 takes an increment of 1000 and then a send of 70000
      octets; both succeed and the window ends at -3465. */
  method StreamScenario() returns (afterIncrease: int, unsignedAfterIncrease: int, final: int)
    ensures afterIncrease == 66535
    ensures unsignedAfterIncrease == 66535
    ensures final == -3465
  {
    var w := new WindowSize(65535);
    var ok := w.TryIncrease(1000);
    assert ok;
    afterIncrease := w.Size();
    unsignedAfterIncrease := w.Unsigned();
    ok := w.TryDecrease(70000);
    assert ok;
    final := w.Size();
  }

  /** From a window of 10: decreasing by 50 gives -40, while the non-negative decrease by
      50 fails and leaves 10; increments of 0 and 2^31 are both refused. */
  method SmallWindowScenario() returns (decreased: int, keptPositive: int, okPositive: bool,
                                        okZeroInc: bool, okHugeInc: bool, afterIncs: int)
    ensures decreased == -40
    ensures !okPositive && keptPositive == 10
    ensures !okZeroInc && !okHugeInc && afterIncs == 10
  {
    var w := new WindowSize(10);
    var ok := w.TryDecrease(50);
    decreased := w.Size();
    var v := new WindowSize(10);
    okPositive := v.TryDecreaseToPositive(50);
    keptPositive := v.Size();
    okZeroInc := v.TryIncrease(0);
    okHugeInc := v.TryIncrease(0x8000_0000);
    afterIncs := v.Size();
  }

  /** The as-written accessor on the window of -3465 returns 2^32 - 3465 instead of
      failing. */
  method NegativeUnsignedScenario() returns (r: int)
    ensures r == 4294963831
  {
    var w := new WindowSize(-3465);
    r := w.UnsignedAsWritten();
  }
}
