# HTTP/2 header values and flow-control windows

A Dafny model of two value types from a Rust HTTP/2 engine:

- **`WindowSize`** (module `FlowControl`, file `window_size.dfy`): the flow-control window
  of section 6.9 and 6.9.1 of RFC 7540. It is a class with one mutable field `value` of type
  `i32` (the integers in [-2^31, 2^31-1]). `TryIncrease`, `TryDecrease` and
  `TryDecreaseToPositive` compute a candidate with checked `i32` arithmetic and assign it only
  on success. Each method's contract says exactly when it succeeds, what the new value is,
  and that the value is unchanged on failure. The source returns `Result<(), ()>`; the model
  returns `true` for `Ok(())` and `false` for `Err(())`. The source does not tell its failure
  causes apart, so the model does not either. The checked arithmetic (`checked_add`,
  `checked_sub`) is modelled the way the machine does it: wrap the result to 32 bits, then
  detect overflow from the signs. Its contracts prove that this succeeds exactly when the
  true result fits an `i32`. The casts `as u32` and `as i32` are modelled as two's-complement
  reinterpretations, `AsU32` and `AsI32`.
- **`HeaderValue`** (module `HeaderValues`, file `header_value.dfy`): a header field value
  whose bytes have been validated once. `FromBytes` scans the bytes in order, as the source's
  loop does. The first byte at or above 0x80 gives `HeaderValueNotAscii`. The first byte
  outside {0x09} ∪ [0x20, 0x7E] gives `IncorrectCharInValue`. In both cases the input buffer
  is handed back. The function `Validate` specifies that scan through `FirstInvalid`, the
  position of the first rejected byte. The lemmas prove that validation succeeds exactly when
  every byte is valid, that the first rejected byte fixes the error kind, and that the bytes
  round-trip. The field of `HeaderValue` has the type `FieldBytes` (byte strings whose every
  byte is a tab or visible ASCII), so no value breaking that rule can be built, just as the
  private field of the Rust struct can only be filled through `from_bytes` or
  `from_bytes_unchecked`.

Where the code and its comments disagree, the model follows the code:

- The comment in `from_bytes` quotes RFC 7230, which allows obs-text (0x80-0xFF) as opaque
  data. The code rejects those octets with `HeaderValueNotAscii`, and the model does too.
- The doc comment of `unsigned()` (src/solicit/window_size.rs:89) says it panics on a
  negative window; the code does not (see Findings). `Unsigned` models the documented
  contract as a precondition, `UnsignedAsWritten` the code.

## Model

| member | source | states |
|---|---|---|
| FlowControl.AsU32 | src/solicit/window_size.rs:91 | `x as u32` keeps the value modulo 2^32: a non-negative i32 unchanged, a negative one above 2^31-1 |
| FlowControl.AsI32 | src/solicit/window_size.rs:92 | `u as i32` keeps the value modulo 2^32: a u32 up to 2^31-1 unchanged (the `delta as i32` of line 35 relies on this), a larger one negative |
| FlowControl.AsI32AsU32 | src/solicit/window_size.rs:91-92 | casting an i32 to u32 and back gives the same i32, for every i32 |
| FlowControl.CheckedAdd | src/solicit/window_size.rs:35-47 | `checked_add` succeeds exactly when the true sum lies in the i32 range, and then yields that sum |
| FlowControl.CheckedSub | src/solicit/window_size.rs:56-62 | `checked_sub` succeeds exactly when the true difference lies in the i32 range, and then yields that difference |
| FlowControl.WindowSize.constructor | src/solicit/window_size.rs:75-78 | `new` accepts any i32, negative included, without a bound check, and stores it |
| FlowControl.WindowSize.Size | src/solicit/window_size.rs:79-85 | returns exactly the stored value, which may be negative |
| FlowControl.WindowSize.TryIncrease | src/solicit/window_size.rs:26-48 | fails when delta is 0 or above MAX_WINDOW_SIZE_INC; otherwise succeeds iff old + delta ≤ MAX_WINDOW_SIZE; on success the value is old + delta and at most MAX_WINDOW_SIZE; on failure it is unchanged |
| FlowControl.WindowSize.TryDecrease | src/solicit/window_size.rs:50-63 | succeeds iff old − delta lies in the i32 range, at either end; the result may be negative; on failure the value is unchanged |
| FlowControl.WindowSize.TryDecreaseToPositive | src/solicit/window_size.rs:65-73 | succeeds iff 0 ≤ old − delta ≤ 2^31-1 (zero allowed) and then stores it; otherwise the value is unchanged |
| FlowControl.WindowSize.Unsigned | src/solicit/window_size.rs:87-94 | callable only on a non-negative window, as documented; returns the same number, at most MAX_WINDOW_SIZE |
| FlowControl.WindowSize.UnsignedAsWritten | src/solicit/window_size.rs:90-94 | the `assert_eq!` of line 92 holds for every window, so the code never panics; a negative window comes back as value + 2^32 |
| FlowControl.StreamScenario | src/solicit/window_size.rs:29-63 | 65535, then an increase of 1000, gives 66535 (also through `unsigned`); then a decrease of 70000 gives −3465; every step succeeds |
| FlowControl.SmallWindowScenario | src/solicit/window_size.rs:29-73 | from 10: a decrease of 50 gives −40; a non-negative decrease of 50 fails and leaves 10; increases of 0 and 2^31 fail and leave 10 |
| FlowControl.NegativeUnsignedScenario | src/solicit/window_size.rs:90-94 | the as-written accessor on −3465 returns 4294963831 instead of panicking |
| HeaderValues.HeaderValue.IntoInner | httpbis/src/solicit/header/value.rs:50-53 | gives back the wrapped bytes, so wrapping them again rebuilds the same value; those bytes always satisfy the valid-byte rule, which the value's type carries |
| HeaderValues.HeaderValue.AsSlice | httpbis/src/solicit/header/value.rs:55-58 | the byte view is exactly the wrapped bytes, all of them tab or visible ASCII |
| HeaderValues.ErrorFor | httpbis/src/solicit/header/value.rs:38-44 | for a rejected byte: HeaderValueNotAscii iff it is ≥ 0x80; IncorrectCharInValue iff it is a control byte other than tab, or 0x7F |
| HeaderValues.FirstInvalid | httpbis/src/solicit/header/value.rs:37-45 | the position where the scan stops: every byte before it is valid, the byte at it (if any) is not |
| HeaderValues.FirstInvalidIs | httpbis/src/solicit/header/value.rs:37-45 | that position is unique: the scan stops at k exactly when all bytes before k are valid and the byte at k is not |
| HeaderValues.Validate | httpbis/src/solicit/header/value.rs:37-47 | the reference definition of the scan; it never alters the bytes: a success wraps exactly the input and a failure hands back exactly the input |
| HeaderValues.FromBytes | httpbis/src/solicit/header/value.rs:12-48 | the scan loop with early returns yields exactly `Validate(bs)`: the error of the first rejected byte with the input buffer, or the wrapped input |
| HeaderValues.SucceedsIffAllValid | httpbis/src/solicit/header/value.rs:37-47 | validation succeeds iff every byte is 0x09 or in [0x20, 0x7E] |
| HeaderValues.ErrorFromFirstRejected | httpbis/src/solicit/header/value.rs:37-45 | the error kind is fixed by the first rejected byte in scan order (≥ 0x80: HeaderValueNotAscii, else IncorrectCharInValue), and the input buffer is returned |
| HeaderValues.RoundTrip | httpbis/src/solicit/header/value.rs:37-58 | on success `into_inner` and `as_slice` return exactly the input, every byte of it valid; on failure the returned buffer is exactly the input |
| HeaderValues.EqualIffSameBytes | httpbis/src/solicit/header/value.rs:7-8 | validated values are equal iff their byte strings are equal |
| HeaderValues.Examples | httpbis/src/solicit/header/value.rs:37-47 | the empty string and "Hi" are accepted; [0x0A] and [0x7F] give IncorrectCharInValue, [0x80] gives HeaderValueNotAscii, and [0x0A, 0x80] gives IncorrectCharInValue |
| HeaderValues.FromBytesUnchecked | httpbis/src/solicit/header/value.rs:60-63 | under its caller's obligation that every byte is valid, builds the same value validation would |
| HeaderValues.From | httpbis/src/solicit/header/value.rs:72-100 | the panicking conversions: on valid bytes (the only input that does not panic), the same value as `from_bytes`, holding the input bytes |

## Left out

- `fmt::Display` for `WindowSize` and `fmt::Debug` for `HeaderValue`: string formatting only.
- The `AsRef<str>` view of a header value: the UTF-8 conversion is a foreign call. The field of `HeaderValue` has the type `FieldBytes`, whose every byte is a tab or visible ASCII, so every value the model can build is plain ASCII text.
- `Into<Bytes>` and `AsRef<[u8]>`: they return the wrapped bytes, exactly like `IntoInner` and `AsSlice`.
- `WindowSize` derives `Copy`, `Clone` and `PartialEq` (src/solicit/window_size.rs:23): in Rust it is a plain value compared by its number. The model is a heap class, so `==` on two `WindowSize` objects compares references and copying one aliases it; compare `Size()` instead.
- The internals of `crate::ascii::Ascii` and `bytes::Bytes` are not part of this model. `Ascii` is a transparent wrapper around a byte sequence, and the reference-counted sharing of `Bytes` buffers (no copy is made when the buffer is handed back) is not modelled.
- HeaderValues.From: the five `From` conversions (`Bytes`, `Vec<u8>`, `&[u8]`, `String`, `&str`) all reduce to the byte content, so one member models them. Their panic on invalid input is modelled as a precondition, not as an abort.
- FlowControl.WindowSize.Unsigned: the documented panic on a negative window is modelled as a precondition. The code as written does not panic (see Findings).
- HeaderValues.FromBytesUnchecked: it is modelled with a precondition that the bytes are valid, so it cannot build a value that breaks the invariant, which the unsafe original can.
- What callers do with failures (RST_STREAM, GOAWAY), frame codecs, HPACK and stream state machines are not part of this model.

## Findings

| source | as written | input that shows it | evidently intended | confidence | as-written member | corrected member |
|---|---|---|---|---|---|---|
| src/solicit/window_size.rs:87-94 | `unsigned()` casts the window to u32 and asserts that casting back gives the stored value; that round trip is exact for every i32, so the assertion never fails | a window of −3465: `unsigned()` returns 4294963831 and does not panic | the doc comment says it panics on a negative window; callers may rely on it only for non-negative windows | not executed | FlowControl.WindowSize.UnsignedAsWritten | FlowControl.WindowSize.Unsigned |
