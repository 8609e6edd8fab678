/** `egress_credential_canary_transport.py` and `egress_canary_network_policy.py`: a response body read within a
    limit. */
module BodyReader {
  import opened Utf8
  import opened Json

  const READ_CHUNK_BYTES: nat := 16_384
  const MOST_BYTES: int := 1_048_576

  /** `BoundedResponse`. */
  class BoundedResponse {
    const maximumBytes: int
    var receivedBytes: nat

    constructor (maximumBytes: int)
      requires 1 <= maximumBytes <= MOST_BYTES
      ensures this.maximumBytes == maximumBytes && receivedBytes == 0
    {
      this.maximumBytes := maximumBytes;
      receivedBytes := 0;
    }

    /** `__init__` with its check; null stands for its exception. */
    static method Create(maximumBytes: int) returns (r: BoundedResponse?)
      ensures r == null <==> !(1 <= maximumBytes <= 1_048_576)
      ensures r != null ==> fresh(r) && r.maximumBytes == maximumBytes && r.receivedBytes == 0
    {
      if !(1 <= maximumBytes <= MOST_BYTES) { return null; }
      r := new BoundedResponse(maximumBytes);
    }

    /** False stands for the exception; the bytes are counted either way. */
    method Accept(chunk: seq<Byte>) returns (ok: bool)
      modifies this
      ensures receivedBytes == old(receivedBytes) + |chunk|
      ensures ok <==> receivedBytes <= maximumBytes
    {
      receivedBytes := receivedBytes + |chunk|;
      ok := receivedBytes <= maximumBytes;
    }
  }

  /** What `StreamReader.read(n)` returns at a position: nothing at the end, else at least one byte and at most n, as
      the network happens to deliver them. */
  function Read(stream: seq<Byte>, at: nat, n: nat, delivered: (nat, nat) -> nat): (chunk: seq<Byte>)
    requires at <= |stream|
    ensures chunk == [] <==> at == |stream| || n == 0
    ensures |chunk| <= n && at + |chunk| <= |stream|
  {
    if at == |stream| || n == 0 then []
    else
      var k := delivered(at, n);
      var most := if |stream| - at < n then |stream| - at else n;
      stream[at..at + if k < 1 then 1 else if k > most then most else k]
  }

  /** The outcome, from the three lengths alone; None is an exception. */
  function BodyLength(length: nat, expected: Option<int>, maximum: int): Option<nat>
  {
    if !(1 <= maximum <= MOST_BYTES) then None
    else match expected
      case Some(e) =>
        if e > maximum then None else if e <= 0 then Some(0) else if e <= length then Some(e) else None
      case None => if length <= maximum then Some(length) else None
  }

  /** `_read_bounded_body`: however the stream is cut into chunks, the outcome is that of its length. */
  method ReadBoundedBody(stream: seq<Byte>, delivered: (nat, nat) -> nat, maximum: int, expected: Option<int>)
    returns (r: Option<nat>)
    ensures r == BodyLength(|stream|, expected, maximum)
  {
    if expected.Some? && expected.value > maximum { return None; }
    var limiter := BoundedResponse.Create(maximum);
    if limiter == null { return None; }
    var remaining := expected;
    var at := 0;
    while remaining.None? || remaining.value > 0
      invariant at == limiter.receivedBytes <= |stream| && at <= maximum
      invariant limiter.maximumBytes == maximum
      invariant remaining.Some? <==> expected.Some?
      invariant expected.Some? ==> remaining.value == expected.value - at && (at == 0 || remaining.value >= 0)
      invariant fresh(limiter)
      decreases |stream| - at
    {
      var readSize := if remaining.None? then READ_CHUNK_BYTES
                      else if remaining.value < READ_CHUNK_BYTES then remaining.value
                      else READ_CHUNK_BYTES;
      var chunk := Read(stream, at, readSize, delivered);
      at := at + |chunk|;
      if chunk == [] {
        if remaining.Some? { return None; }
        break;
      }
      var ok := limiter.Accept(chunk);
      if !ok { return None; }
      if remaining.Some? { remaining := Some(remaining.value - |chunk|); }
    }
    if expected.None? && limiter.receivedBytes == maximum {
      var extra := Read(stream, at, 1, delivered);
      if extra != [] { return None; }
    }
    r := Some(limiter.receivedBytes);
  }

  // ---- the declared length ----

  predicate AllDigits(s: string)
  {
    s != "" && forall i :: 0 <= i < |s| ==> '0' <= s[i] <= '9'
  }

  /** `int` of a text of decimal digits. */
  function Value(s: string): nat
    requires forall i :: 0 <= i < |s| ==> '0' <= s[i] <= '9'
  {
    if s == "" then 0 else 10 * Value(s[..|s| - 1]) + (s[|s| - 1] as int - '0' as int)
  }

  datatype Declared = Undeclared | Length(n: nat) | Invalid

  /** `_content_length`. Of the other characters `isdigit` admits, `int` refuses those that Latin-1 has. */
  function ContentLength(values: seq<string>): Declared
  {
    if values == [] then Undeclared
    else if (exists i :: 0 <= i < |values| && values[i] != values[0]) || !AllDigits(values[0]) then Invalid
    else Length(Value(values[0]))
  }

  lemma {:induction false} ValueOfDigits(n: nat)
    ensures AllDigits(Digits(n)) && Value(Digits(n)) == n
  {
    if n < 10 {
      assert Digits(n)[..0] == "";
    } else {
      ValueOfDigits(n / 10);
      var s := Digits(n);
      assert s[..|s| - 1] == Digits(n / 10);
    }
  }

  /** A length printed in decimal, in one header or in several that agree, is the length read; and a body of at least
      that many bytes is then read to exactly that length if it is within the limit. */
  lemma DeclaredLengthRead(n: nat, values: seq<string>, length: nat, maximum: int)
    requires values != [] && forall i :: 0 <= i < |values| ==> values[i] == Digits(n)
    ensures ContentLength(values) == Length(n)
    ensures 1 <= maximum <= MOST_BYTES && n <= length ==>
              BodyLength(length, Some(n), maximum) == if n <= maximum then Some(n) else None
  {
    ValueOfDigits(n);
  }

  /** Two headers that differ in any character are refused, even if they denote the same number. */
  lemma DisagreeingHeaders(values: seq<string>, i: nat, j: nat)
    requires i < |values| && j < |values| && values[i] != values[j]
    ensures ContentLength(values) == Invalid
  {
    if values[i] == values[0] { assert values[j] != values[0]; }
  }
}
