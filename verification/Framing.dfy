/**
 The chat messages on a stream: a 32-bit little-endian length, then the body. A sender lays
 one message out in one buffer; a receiver finds it in however many buffers the stream was
 cut into. Lengths and offsets are 32-bit words.
*/
module Framing {
  import opened Options
  import Integers

  newtype byte = x: int | 0 <= x < 256

  const WORD32: int := 0x1_0000_0000
  const MAX_MESSAGE_SIZE: int := 1024 * 1024

  // -------------------------------------------------------------------
  // The stream
  // -------------------------------------------------------------------

  /** What a list of buffers holds. */
  function Concat(buffers: seq<seq<byte>>): seq<byte> {
    if buffers == [] then [] else Concat(buffers[..|buffers| - 1]) + buffers[|buffers| - 1]
  }

  lemma ConcatNext(buffers: seq<seq<byte>>, i: nat)
    requires i < |buffers|
    ensures Concat(buffers[..i + 1]) == Concat(buffers[..i]) + buffers[i]
  {
    assert buffers[..i + 1][..i] == buffers[..i];
  }

  /** The first buffers hold the first part of the stream. */
  lemma {:induction false} ConcatPrefix(buffers: seq<seq<byte>>, i: nat)
    requires i <= |buffers|
    ensures |Concat(buffers[..i])| <= |Concat(buffers)|
    ensures Concat(buffers[..i]) == Concat(buffers)[..|Concat(buffers[..i])|]
    decreases |buffers| - i
  {
    if i == |buffers| {
      assert buffers[..i] == buffers;
    } else {
      ConcatNext(buffers, i);
      ConcatPrefix(buffers, i + 1);
    }
  }

  /** Every buffer's length is a 32-bit word. */
  predicate Lengths(buffers: seq<seq<byte>>) {
    forall i :: 0 <= i < |buffers| ==> |buffers[i]| < WORD32
  }

  // -------------------------------------------------------------------
  // Reading
  // -------------------------------------------------------------------

  /** The number of bytes in all buffers, as a 32-bit word. */
  method GetTotalLength(buffers: seq<seq<byte>>) returns (total: nat)
    ensures total == |Concat(buffers)| % WORD32
  {
    total := 0;
    var i := 0;
    while i < |buffers|
      invariant 0 <= i <= |buffers| && total == |Concat(buffers[..i])| % WORD32
    {
      ConcatNext(buffers, i);
      total := (total + |buffers[i]|) % WORD32;
      i := i + 1;
    }
    assert buffers[..i] == buffers;
  }

  /** The part of a stream from `offset` on, `length` bytes or what there is. */
  function Slice(stream: seq<byte>, offset: nat, length: nat): (s: seq<byte>)
    ensures |s| <= length
  {
    if offset <= |stream| then stream[offset..Integers.Min(offset + length, |stream|)] else []
  }

  /** The slice grows with the stream. */
  lemma SliceNext(stream: seq<byte>, more: seq<byte>, offset: nat, length: nat)
    ensures var start := if offset > |stream| then offset - |stream| else 0;
            Slice(stream + more, offset, length) ==
              if |stream| + |more| <= offset then []
              else Slice(stream, offset, length) + more[start..][..Integers.Min(|more| - start, length - |Slice(stream, offset, length)|)]
  {
    if |stream| + |more| > offset && offset <= |stream| {
      assert (stream + more)[offset..] == stream[offset..] + more;
    }
  }

  /** The destination holds the slice of the stream so far, n bytes, and after them what it held before. */
  ghost predicate Copied(now: seq<byte>, was: seq<byte>, done: seq<byte>, offset: nat, length: nat, n: nat) {
    n == |Slice(done, offset, length)| <= |was| && now == Slice(done, offset, length) + was[n..]
  }

  /** A buffer before the offset is skipped. */
  lemma CopySkip(now: seq<byte>, was: seq<byte>, done: seq<byte>, buffer: seq<byte>, offset: nat, length: nat, n: nat)
    requires Copied(now, was, done, offset, length, n) && |done| + |buffer| <= offset
    ensures Copied(now, was, done + buffer, offset, length, n)
  {
    SliceNext(done, buffer, offset, length);
    SliceNext([], done, offset, length);
    assert [] + done == done;
  }

  /** From any other buffer, what belongs to the slice is copied. */
  lemma CopyMore(now: seq<byte>, was: seq<byte>, done: seq<byte>, buffer: seq<byte>, offset: nat, length: nat, n: nat,
                 start: nat, size: nat)
    requires Copied(now, was, done, offset, length, n) && |done| + |buffer| > offset && length <= |was|
    requires start == (if offset > |done| then offset - |done| else 0) && size == Integers.Min(|buffer| - start, length - n)
    ensures Copied(now[..n] + buffer[start..start + size] + now[n + size..], was, done + buffer, offset, length, n + size)
    ensures n + size == length <==> offset + length <= |done| + |buffer|
  {
    SliceNext(done, buffer, offset, length);
    assert buffer[start..][..size] == buffer[start..start + size];
  }

  /**
   Copies `length` bytes from `offset` on out of the buffers, or as many of them as there are. Nothing
   outside a buffer is read and nothing beyond `length` written, whatever the lengths are; and when the
   buffers hold less than 2^32 bytes, what is copied does not depend on how the stream is cut.
  */
  method CopyDataFromBuffers(buffers: seq<seq<byte>>, offset: nat, destination: array<byte>, length: nat) returns (ok: bool)
    requires Lengths(buffers) && offset < WORD32 && length < WORD32 && length <= destination.Length
    modifies destination
    ensures destination[length..] == old(destination[length..])
    ensures |Concat(buffers)| < WORD32 ==>
              var copied := Slice(Concat(buffers), offset, length);
              && destination[..] == copied + old(destination[..])[|copied|..]
              && (ok <==> offset < |Concat(buffers)| && offset + length <= |Concat(buffers)|)
  {
    hide Slice;
    hide Concat;
    hide Copied;
    var destPtr := 0;
    var remainingCopy := length;
    var currentOffset := 0;
    ghost var was := destination[..];
    ghost var small := |Concat(buffers)| < WORD32;
    var i := 0;
    CopyStart(buffers, was, offset, length);
    while i < |buffers|
      invariant 0 <= i <= |buffers| && 0 <= currentOffset < WORD32
      invariant 0 <= destPtr && 0 <= remainingCopy && destPtr + remainingCopy == length
      invariant destination[length..] == was[length..]
      invariant small ==> currentOffset == |Concat(buffers[..i])|
      invariant small ==> Copied(destination[..], was, Concat(buffers[..i]), offset, length, destPtr)
      invariant small ==> !(offset < currentOffset && offset + length <= currentOffset)
    {
      ghost var done := Concat(buffers[..i]);
      ConcatNext(buffers, i);
      ConcatPrefix(buffers, i + 1);
      ghost var before := destination[..];
      var bufLen := |buffers[i]|;
      if (currentOffset + bufLen) % WORD32 <= offset {
        if small {
          CopySkip(before, was, done, buffers[i], offset, length, destPtr);
        }
        currentOffset := (currentOffset + bufLen) % WORD32;
        i := i + 1;
        continue;
      }
      var startInBuf := if offset > currentOffset then offset - currentOffset else 0;
      StartInBuffer(currentOffset, bufLen, offset);
      var copySize := bufLen - startInBuf;
      if copySize > remainingCopy {
        copySize := remainingCopy;
      }
      MemCopyWithin(destination, destPtr, buffers[i], startInBuf, copySize, length);
      if small {
        CopyMore(before, was, done, buffers[i], offset, length, destPtr, startInBuf, copySize);
      }
      destPtr := destPtr + copySize;
      remainingCopy := remainingCopy - copySize;
      currentOffset := (currentOffset + bufLen) % WORD32;
      i := i + 1;
      if remainingCopy == 0 {
        if small {
          CopiedAll(destination[..], was, buffers, i, offset, length);
        }
        return true;
      }
    }
    CopiedSome(destination[..], was, buffers, offset, length, destPtr);
    return false;
  }

  lemma CopyStart(buffers: seq<seq<byte>>, was: seq<byte>, offset: nat, length: nat)
    ensures Concat(buffers[..0]) == [] && Copied(was, was, [], offset, length, 0)
  {
    assert was[0..] == was;
  }

  /** Even if the sum wraps around, what is skipped in a buffer lies within it. */
  lemma StartInBuffer(currentOffset: nat, bufLen: nat, offset: nat)
    requires currentOffset < WORD32 && bufLen < WORD32 && (currentOffset + bufLen) % WORD32 > offset
    ensures offset > currentOffset ==> offset - currentOffset <= bufLen
  {
  }

  /** Once all has been copied, the rest of the stream adds nothing to it. */
  lemma CopiedAll(now: seq<byte>, was: seq<byte>, buffers: seq<seq<byte>>, i: nat, offset: nat, length: nat)
    requires i <= |buffers| && Copied(now, was, Concat(buffers[..i]), offset, length, length)
    requires offset < |Concat(buffers[..i])|
    ensures var copied := Slice(Concat(buffers), offset, length); now == copied + was[|copied|..]
    ensures offset < |Concat(buffers)| && offset + length <= |Concat(buffers)|
  {
    ConcatPrefix(buffers, i);
    hide Concat;
    var part, stream := Concat(buffers[..i]), Concat(buffers);
    assert Slice(part, offset, length) == Slice(stream, offset, length) by {
      assert part == stream[..|part|];
    }
  }

  lemma CopiedSome(now: seq<byte>, was: seq<byte>, buffers: seq<seq<byte>>, offset: nat, length: nat, n: nat)
    ensures buffers[..|buffers|] == buffers
    ensures Copied(now, was, Concat(buffers), offset, length, n) ==>
              var copied := Slice(Concat(buffers), offset, length); |copied| <= |was| && now == copied + was[|copied|..]
  {
    assert buffers[..|buffers|] == buffers;
  }

  /** memcpy into the first `length` bytes of the destination. */
  method MemCopyWithin(destination: array<byte>, at: nat, source: seq<byte>, from: nat, size: nat, ghost length: nat)
    requires at + size <= length <= destination.Length && from + size <= |source|
    modifies destination
    ensures destination[..] == old(destination[..])[..at] + source[from..from + size] + old(destination[..])[at + size..]
    ensures destination[length..] == old(destination[length..])
  {
    MemCopy(destination, at, source, from, size);
  }

  /** memcpy */
  method MemCopy(destination: array<byte>, at: nat, source: seq<byte>, from: nat, size: nat)
    requires at + size <= destination.Length && from + size <= |source|
    modifies destination
    ensures destination[..] == old(destination[..at]) + source[from..from + size] + old(destination[at + size..])
  {
    forall i | 0 <= i < size {
      destination[at + i] := source[from + i];
    }
  }

  // -------------------------------------------------------------------
  // Messages
  // -------------------------------------------------------------------

  function Power256(i: nat): (r: nat)
    ensures r > 0
  {
    if i == 0 then 1 else 0x100 * Power256(i - 1)
  }

  /** The wire format of a length: byte i of the stream is digit i of n, to the base 256, for the first four. */
  ghost predicate BeginsWithLength(stream: seq<byte>, n: nat) {
    |stream| >= 4 && forall i :: 0 <= i < 4 ==> stream[i] as int == n / Power256(i) % 0x100
  }

  /** A complete message with this body, not too long, is at the front of the stream. */
  ghost predicate Carries(stream: seq<byte>, body: seq<byte>) {
    && |body| <= MAX_MESSAGE_SIZE && 4 + |body| <= |stream|
    && BeginsWithLength(stream, |body|)
    && forall i :: 0 <= i < |body| ==> stream[4 + i] == body[i]
  }

  /** The number that four bytes stand for, the least significant first. */
  function Decode(h: seq<byte>): (n: nat)
    requires |h| == 4
    ensures n < WORD32
  {
    h[0] as int + h[1] as int * 0x100 + h[2] as int * 0x1_0000 + h[3] as int * 0x100_0000
  }

  /** The message at the front of a stream: none if it is not complete, or too long. */
  function Parse(stream: seq<byte>): Option<seq<byte>> {
    if |stream| < 4 then None
    else
      var n := Decode(stream[..4]);
      if n > MAX_MESSAGE_SIZE || |stream| < 4 + n then None else Some(stream[4..4 + n])
  }

  /** Parses the buffers of one event; what it finds does not depend on how the stream is cut into them. */
  method TryParseStringMessage(buffers: seq<seq<byte>>) returns (output: Option<seq<byte>>)
    requires Lengths(buffers)
    ensures |Concat(buffers)| < WORD32 ==> output == Parse(Concat(buffers))
    ensures |Concat(buffers)| < WORD32 ==> forall body :: output == Some(body) <==> Carries(Concat(buffers), body)
  {
    hide Concat;
    hide Decode;
    hide Carries;
    ghost var stream := Concat(buffers);
    ParseCarries(stream);
    var totalBytes := GetTotalLength(buffers);
    if totalBytes < 4 {
      return None;
    }
    var headerBytes := new byte[4];
    var copied := CopyDataFromBuffers(buffers, 0, headerBytes, 4);
    assert |stream| < WORD32 ==> headerBytes[..] == stream[..4];
    var bodyLength := Decode(headerBytes[..]);
    if bodyLength > MAX_MESSAGE_SIZE {
      return None;
    }
    if totalBytes < 4 + bodyLength {
      return None;
    }
    var outputString := new byte[bodyLength];
    copied := CopyDataFromBuffers(buffers, 4, outputString, bodyLength);
    assert |stream| < WORD32 ==> outputString[..] == stream[4..4 + bodyLength];
    return Some(outputString[..]);
  }

  /** What a sender puts on the stream: the length as a 32-bit word, and as much of the body as it counts. */
  function Encode(n: nat): (h: seq<byte>)
    requires n < WORD32
    ensures |h| == 4
  {
    [(n % 0x100) as byte, (n / 0x100 % 0x100) as byte, (n / 0x1_0000 % 0x100) as byte, (n / 0x100_0000 % 0x100) as byte]
  }

  function Frame(body: seq<byte>): seq<byte> {
    var bodyLength := |body| % WORD32;
    Encode(bodyLength) + body[..bodyLength]
  }

  /**
   Lays a message out. The total length is a 32-bit word too, so the length of the body, as a word, must
   leave room for the header in it.
  */
  method SendJsonMessage(jsonMessage: seq<byte>) returns (rawBuffer: array<byte>)
    requires |jsonMessage| % WORD32 + 4 < WORD32
    ensures fresh(rawBuffer) && rawBuffer[..] == Frame(jsonMessage)
    ensures rawBuffer.Length == 4 + |jsonMessage| % WORD32 && BeginsWithLength(rawBuffer[..], |jsonMessage| % WORD32)
    ensures forall i :: 0 <= i < |jsonMessage| % WORD32 ==> rawBuffer[4 + i] == jsonMessage[i]
  {
    var bodyLength := |jsonMessage| % WORD32;
    var totalLength := (4 + bodyLength) % WORD32;
    rawBuffer := new byte[totalLength];
    rawBuffer[0] := (bodyLength % 0x100) as byte;
    rawBuffer[1] := (bodyLength / 0x100 % 0x100) as byte;
    rawBuffer[2] := (bodyLength / 0x1_0000 % 0x100) as byte;
    rawBuffer[3] := (bodyLength / 0x100_0000 % 0x100) as byte;
    assert rawBuffer[..4] == Encode(bodyLength);
    if bodyLength > 0 {
      MemCopy(rawBuffer, 4, jsonMessage, 0, bodyLength);
    }
    LengthDigits(rawBuffer[..], bodyLength);
  }

  /** Dividing by a power of the byte range is dividing by the byte range again and again. */
  lemma Digits(n: nat)
    ensures n / 0x1_0000 == n / 0x100 / 0x100 && n / 0x100_0000 == n / 0x1_0000 / 0x100
  {
  }

  /** The last digit, and the others. */
  lemma Digit(n: int, digit: int, rest: int)
    requires n == digit + rest * 0x100 && 0 <= digit < 0x100
    ensures n % 0x100 == digit && n / 0x100 == rest
  {
  }

  lemma DecodeEncode(n: nat)
    requires n < WORD32
    ensures Decode(Encode(n)) == n
  {
    Digits(n);
    var n1 := n / 0x100;
    var n2 := n1 / 0x100;
    assert n == n % 0x100 + n1 * 0x100;
    assert n1 == n1 % 0x100 + n2 * 0x100;
    assert n2 == n2 % 0x100 + n2 / 0x100 * 0x100;
  }

  /**
   What a sender lays out, with anything after it, is parsed as exactly the body; unless the body is longer
   than the greatest message, when a receiver does not accept it.
  */
  lemma RoundTrip(body: seq<byte>, rest: seq<byte>)
    ensures Parse(Frame(body) + rest) == Some(body) <==> |body| <= MAX_MESSAGE_SIZE
    ensures |body| % WORD32 > MAX_MESSAGE_SIZE ==> Parse(Frame(body) + rest) == None
  {
    var n := |body| % WORD32;
    var stream := Frame(body) + rest;
    DecodeEncode(n);
    assert stream[..4] == Encode(n);
    assert stream[4..4 + n] == body[..n];
    if |body| >= WORD32 {
      assert |body[..n]| < |body|;
    } else {
      assert body[..n] == body;
    }
  }

  /**
   However a stream of less than 2^32 bytes that begins with a frame is cut into buffers, empty ones
   included, parsing the buffers finds the body that was sent, unless it is longer than the greatest message.
  */
  method AnyFragmentation(buffers: seq<seq<byte>>, ghost body: seq<byte>, ghost rest: seq<byte>)
    returns (output: Option<seq<byte>>)
    requires Lengths(buffers) && |Concat(buffers)| < WORD32
    requires Concat(buffers) == Frame(body) + rest
    ensures output == Some(body) <==> |body| <= MAX_MESSAGE_SIZE
  {
    output := TryParseStringMessage(buffers);
    RoundTrip(body, rest);
  }

  /** Nothing is found before the last byte of the message is there. */
  lemma IncompleteMessage(body: seq<byte>, k: nat)
    requires |body| <= MAX_MESSAGE_SIZE && k < |Frame(body)|
    ensures Parse(Frame(body)[..k]) == None
  {
    hide Decode;
    hide Encode;
    DecodeEncode(|body|);
    if k >= 4 {
      assert Frame(body)[..k][..4] == Encode(|body|);
    }
  }

  /** The parser accepts nothing but what a sender would have laid out. */
  lemma ParsedWasFramed(stream: seq<byte>)
    requires Parse(stream).Some?
    ensures var body := Parse(stream).value;
            |body| <= MAX_MESSAGE_SIZE && |Frame(body)| <= |stream| && stream[..|Frame(body)|] == Frame(body)
  {
    var h := stream[..4];
    EncodeDecode(h);
    assert stream[..4 + Decode(h)] == h + stream[4..4 + Decode(h)];
  }

  lemma EncodeDecode(h: seq<byte>)
    requires |h| == 4
    ensures Encode(Decode(h)) == h
  {
    var n := Decode(h);
    var rest := h[1] as int + (h[2] as int + h[3] as int * 0x100) * 0x100;
    Digits(n);
    Digit(n, h[0] as int, rest);
    Digit(rest, h[1] as int, h[2] as int + h[3] as int * 0x100);
    Digit(h[2] as int + h[3] as int * 0x100, h[2] as int, h[3] as int);
  }

  /** The four bytes of a length are its digits. */
  lemma LengthDigits(stream: seq<byte>, n: nat)
    requires n < WORD32
    ensures BeginsWithLength(stream, n) <==> |stream| >= 4 && stream[..4] == Encode(n)
  {
    assert Power256(0) == 1;
    assert Power256(1) == 0x100 * Power256(0) == 0x100;
    assert Power256(2) == 0x100 * Power256(1) == 0x1_0000;
    assert Power256(3) == 0x100 * Power256(2) == 0x100_0000;
    hide Power256;
    if |stream| >= 4 {
      assert stream[0] == stream[..4][0] && stream[1] == stream[..4][1] && stream[2] == stream[..4][2] && stream[3] == stream[..4][3];
      if BeginsWithLength(stream, n) {
        assert stream[..4] == Encode(n);
      } else {
        assert stream[..4] != Encode(n);
      }
    }
  }

  /** The parser finds a body exactly if the stream begins with the digits of its length, and then the body. */
  lemma ParseCarries(stream: seq<byte>)
    ensures forall body :: Parse(stream) == Some(body) <==> Carries(stream, body)
  {
    forall body ensures Parse(stream) == Some(body) <==> Carries(stream, body) {
      ParseCarriesBody(stream, body);
    }
  }

  lemma ParseCarriesBody(stream: seq<byte>, body: seq<byte>)
    ensures Parse(stream) == Some(body) <==> Carries(stream, body)
  {
    hide Decode;
    hide Encode;
    hide BeginsWithLength;
    if |body| <= MAX_MESSAGE_SIZE && 4 + |body| <= |stream| {
      var n := |body|;
      LengthDigits(stream, n);
      DecodeEncode(n);
      EncodeDecode(stream[..4]);
      var part := stream[4..4 + n];
      assert forall i :: 0 <= i < n ==> part[i] == stream[4 + i];
      assert (forall i :: 0 <= i < n ==> stream[4 + i] == body[i]) <==> part == body;
    }
  }
}
