/** Header field values of an HTTP/2 engine: a byte string validated once, at
    construction, against the characters a field value may hold (horizontal tab and
    visible US-ASCII), after the field-value grammar of section 3.2 of RFC 7230 but
    stricter than it: octets 0x80-0xFF (obs-text) are rejected rather than kept as
    opaque data. */
module HeaderValues {

  type byte = x: int | 0 <= x < 256

  /** The two ways validation can fail. */
  datatype HeaderError = HeaderValueNotAscii | IncorrectCharInValue

  /** Byte strings in which every byte is a tab or visible ASCII. */
  type FieldBytes = s: seq<byte> | AllValid(s) witness []

  /** A validated value: a transparent wrapper around its bytes, which always satisfy the
      valid-byte rule. Equality is structural. */
  datatype HeaderValue = HeaderValue(bytes: FieldBytes) {

    /** Gives up the value and returns the bytes it wraps. */
    function IntoInner(): (r: seq<byte>)
      ensures AllValid(r)
      ensures HeaderValue(r) == this
    {
      bytes
    }

    /** A read-only view of the bytes the value wraps. */
    function AsSlice(): (r: seq<byte>)
      ensures AllValid(r)
      ensures HeaderValue(r) == this
    {
      bytes
    }
  }

  /** The outcome of validation: the value, or the error kind together with the
      untouched input buffer. */
  datatype FromBytesResult = Ok(value: HeaderValue) | Err(error: HeaderError, rejected: seq<byte>)

  predicate IsAscii(b: byte) {
    b < 0x80
  }

  /** Horizontal tab or visible ASCII (space through tilde). */
  predicate ValidByte(b: byte) {
    b == 0x09 || 0x20 <= b <= 0x7E
  }

  predicate AllValid(s: seq<byte>) {
    forall i :: 0 <= i < |s| ==> ValidByte(s[i])
  }

  /** The error reported for a byte the scan rejects: the non-ASCII test comes first. */
  function ErrorFor(b: byte): (e: HeaderError)
    requires !ValidByte(b)
    ensures e == HeaderValueNotAscii <==> b >= 0x80
    ensures e == IncorrectCharInValue <==> (b < 0x20 && b != 0x09) || b == 0x7F
  {
    if !IsAscii(b) then HeaderValueNotAscii else IncorrectCharInValue
  }

  /** The position of the first rejected byte, or |s| when there is none. */
  function FirstInvalid(s: seq<byte>): (i: nat)
    ensures i <= |s|
    ensures forall j :: 0 <= j < i ==> ValidByte(s[j])
    ensures i < |s| ==> !ValidByte(s[i])
  {
    if s == [] then 0
    else if !ValidByte(s[0]) then 0
    else 1 + FirstInvalid(s[1..])
  }

  /** What validation yields: the error of the first rejected byte in scan order, or the
      wrapped bytes when none is rejected. */
  function Validate(bs: seq<byte>): (r: FromBytesResult)
    ensures r.Ok? ==> r.value.IntoInner() == bs
    ensures r.Err? ==> r.rejected == bs
  {
    var i := FirstInvalid(bs);
    if i == |bs| then Ok(HeaderValue(bs)) else Err(ErrorFor(bs[i]), bs)
  }

  /** `from_bytes`: scans the bytes in order and stops at the first one it rejects. */
  method FromBytes(bs: seq<byte>) returns (r: FromBytesResult)
    ensures r == Validate(bs)
  {
    for k := 0 to |bs|
      invariant forall j :: 0 <= j < k ==> ValidByte(bs[j])
    {
      var b := bs[k];
      if !IsAscii(b) {
        FirstInvalidIs(bs, k);
        return Err(HeaderValueNotAscii, bs);
      }
      if (b < 0x20 || b > 0x7E) && b != 0x09 {
        FirstInvalidIs(bs, k);
        return Err(IncorrectCharInValue, bs);
      }
    }
    FirstInvalidIs(bs, |bs|);
    r := Ok(HeaderValue(bs));
  }

  /** The unchecked constructor. Its caller must guarantee the invariant; when it does,
      the value is the one validation would have produced. */
  function FromBytesUnchecked(bs: seq<byte>): (v: HeaderValue)
    requires AllValid(bs)
    ensures Validate(bs) == Ok(v)
  {
    HeaderValue(bs)
  }

  /** `From<Bytes>` (and through it `From<Vec<u8>>`, `From<&[u8]>`, `From<String>` and
      `From<&str>`): validation followed by `unwrap`, which panics on invalid input, so
      callers must pass valid bytes. */
  method From(bs: seq<byte>) returns (v: HeaderValue)
    requires AllValid(bs)
    ensures Validate(bs) == Ok(v)
    ensures v.IntoInner() == bs
  {
    var r := FromBytes(bs);
    SucceedsIffAllValid(bs);
    v := r.value;
  }

  // ---------------------------------------------------------------------------
  // Properties of validation
  // ---------------------------------------------------------------------------

  /** The first rejected byte is at `k` exactly when every byte before `k` passes and
      the byte at `k` (if any) does not. */
  lemma FirstInvalidIs(s: seq<byte>, k: nat)
    requires k <= |s|
    requires forall j :: 0 <= j < k ==> ValidByte(s[j])
    requires k < |s| ==> !ValidByte(s[k])
    ensures FirstInvalid(s) == k
  {
  }

  /** Validation succeeds exactly when every byte is a tab or visible ASCII. */
  lemma SucceedsIffAllValid(bs: seq<byte>)
    ensures Validate(bs).Ok? <==> AllValid(bs)
  {
  }

  /** The error kind is fixed by the first rejected byte: NotAscii when it is 0x80 or
      above, IncorrectCharInValue otherwise; the buffer handed back is the input. */
  lemma ErrorFromFirstRejected(bs: seq<byte>, k: nat)
    requires k < |bs|
    requires AllValid(bs[..k]) && !ValidByte(bs[k])
    ensures Validate(bs) == Err(if bs[k] >= 0x80 then HeaderValueNotAscii else IncorrectCharInValue, bs)
  {
  }

  /** Success hands back exactly the input through both views, and those bytes satisfy
      the valid-byte rule; failure hands back exactly the input buffer. */
  lemma RoundTrip(bs: seq<byte>)
    ensures Validate(bs).Ok? ==> Validate(bs).value.IntoInner() == bs
    ensures Validate(bs).Ok? ==> Validate(bs).value.AsSlice() == bs
    ensures Validate(bs).Ok? ==> AllValid(Validate(bs).value.AsSlice())
    ensures Validate(bs).Err? ==> Validate(bs).rejected == bs
  {
  }

  /** Values validated from equal byte strings are equal, and values that are equal hold
      equal byte strings. */
  lemma EqualIffSameBytes(a: seq<byte>, b: seq<byte>)
    requires Validate(a).Ok? && Validate(b).Ok?
    ensures Validate(a).value == Validate(b).value <==> a == b
  {
  }

  /** Worked cases: the empty string and "Hi" are accepted; line feed, DEL and 0x80 are
      rejected; in [0x0A, 0x80] the line feed is met first. */
  lemma Examples()
    ensures Validate([]) == Ok(HeaderValue([]))
    ensures Validate([0x48, 0x69]) == Ok(HeaderValue([0x48, 0x69]))
    ensures Validate([0x0A]) == Err(IncorrectCharInValue, [0x0A])
    ensures Validate([0x7F]) == Err(IncorrectCharInValue, [0x7F])
    ensures Validate([0x80]) == Err(HeaderValueNotAscii, [0x80])
    ensures Validate([0x0A, 0x80]) == Err(IncorrectCharInValue, [0x0A, 0x80])
  {
  }
}
