/** `moonbeam-foreign-assets/src/evm.rs`: reading the reason out of the data an EVM call reverted with.

    The data of a revert with a reason is the call encoding of `Error(string)` of the Solidity Contract
    ABI Specification, section "Errors": selector, offset of the string, its length, its bytes. */
module RevertMessage {
  import opened Integers
  import opened Sequences
  import opened Utf8
  import opened Xcm

  const LEN_START: nat := 36
  const MESSAGE_START: nat := 68
  const BASE_MESSAGE: string := "VM Exception while processing transaction: revert"
  const U256_SIZE: nat := 0x1_0000_0000_0000_0000_0000_0000_0000_0000_0000_0000_0000_0000_0000_0000_0000_0000

  // ---------- Big-endian words ----------

  /** `U256::from_big_endian`. */
  function FromBigEndian(bytes: seq<Byte>): nat {
    if bytes == [] then 0 else 256 * FromBigEndian(bytes[..|bytes| - 1]) + bytes[|bytes| - 1] as nat
  }

  function ToBigEndian(n: nat, size: nat): (bytes: seq<Byte>)
    ensures |bytes| == size
  {
    if size == 0 then [] else ToBigEndian(n / 256, size - 1) + [(n % 256) as Byte]
  }

  function Capacity(size: nat): nat {
    if size == 0 then 1 else 256 * Capacity(size - 1)
  }

  lemma {:induction false} BigEndianRoundTrip(n: nat, size: nat)
    requires n < Capacity(size)
    ensures FromBigEndian(ToBigEndian(n, size)) == n
  {
    if size > 0 {
      BigEndianRoundTrip(n / 256, size - 1);
      assert ToBigEndian(n, size)[..size - 1] == ToBigEndian(n / 256, size - 1);
    }
  }

  lemma WordCapacity()
    ensures Capacity(32) == U256_SIZE
  {
    assert Capacity(8) == 0x1_0000_0000_0000_0000;
    assert Capacity(16) == 0x1_0000_0000_0000_0000_0000_0000_0000_0000;
    assert Capacity(24) == 0x1_0000_0000_0000_0000_0000_0000_0000_0000_0000_0000_0000_0000;
  }

  // ---------- Extraction ----------

  function ExtractRevertMessage(data: seq<Byte>): string {
    if |data| <= MESSAGE_START then BASE_MESSAGE
    else
      var messageLen := Saturated(FromBigEndian(data[LEN_START..MESSAGE_START]), USIZE_MAX);
      var messageEnd := SaturatingAdd(MESSAGE_START, messageLen, USIZE_MAX);
      if |data| < messageEnd then BASE_MESSAGE
      else
        match Decode(data[MESSAGE_START..messageEnd])
        case Some(reason) => BASE_MESSAGE + " " + reason
        case None => BASE_MESSAGE
  }

  // ---------- The encoding it inverts ----------

  function Padding(size: nat): seq<Byte> {
    seq((32 - size % 32) % 32, i => 0 as Byte)
  }

  /** The selector of `Error(string)`, and the offset of its only argument. */
  function ErrorHead(): (head: seq<Byte>)
    ensures |head| == LEN_START
  {
    [0x08, 0xc3, 0x79, 0xa0] + ToBigEndian(32, 32)
  }

  function EncodeError(reason: string): seq<Byte> {
    var body := Encode(reason);
    ErrorHead() + ToBigEndian(|body|, 32) + body + Padding(|body|)
  }

  /** What extraction sees of data laid out as a head, a length word, a body and anything after it. */
  lemma LaidOut(head: seq<Byte>, size: nat, body: seq<Byte>, rest: seq<Byte>)
    requires |head| == LEN_START && size <= USIZE_MAX - MESSAGE_START
    ensures var data := head + ToBigEndian(size, 32) + body + rest;
            && |data| == MESSAGE_START + |body| + |rest|
            && SaturatingAdd(MESSAGE_START, Saturated(FromBigEndian(data[LEN_START..MESSAGE_START]), USIZE_MAX),
                             USIZE_MAX)
                 == MESSAGE_START + size
            && (size <= |body| ==> data[MESSAGE_START..MESSAGE_START + size] == body[..size])
  {
    var word := ToBigEndian(size, 32);
    var data := head + word + body + rest;
    Slices(head, word, body, rest);
    WordCapacity();
    BigEndianRoundTrip(size, 32);
    if size <= |body| {
      assert data[MESSAGE_START..MESSAGE_START + size] == data[MESSAGE_START..MESSAGE_START + |body|][..size];
    }
  }

  lemma Slices(a: seq<Byte>, b: seq<Byte>, c: seq<Byte>, d: seq<Byte>)
    ensures var data := a + b + c + d;
            data[|a|..|a| + |b|] == b && data[|a| + |b|..|a| + |b| + |c|] == c
  {
  }

  /** The reason of every revert with a non-empty reason is recovered, whatever follows the encoding. */
  lemma ExtractInvertsEncoding(reason: string, junk: seq<Byte>)
    requires reason != "" && |Encode(reason)| <= USIZE_MAX - MESSAGE_START
    ensures ExtractRevertMessage(EncodeError(reason) + junk) == BASE_MESSAGE + " " + reason
  {
    var body := Encode(reason);
    Assoc(ErrorHead() + ToBigEndian(|body|, 32) + body, Padding(|body|), junk);
    LaidOut(ErrorHead(), |body|, body, Padding(|body|) + junk);
    assert body[..|body|] == body;
    DecodeEncode(reason);
    assert |body| >= |EncodeChar(reason[0])| > 0;
  }

  /** An empty reason is not reported, because the length test asks for more than the two words. */
  lemma EmptyReasonIsDropped()
    ensures ExtractRevertMessage(EncodeError("")) == BASE_MESSAGE
  {
    assert |Encode("")| == 0 && |Padding(0)| == 0;
    assert |EncodeError("")| == MESSAGE_START;
  }

  /** Data cut anywhere before the end of the reason is never read past its end: the base message results. */
  lemma TruncatedDataIsDropped(reason: string, k: nat)
    requires |Encode(reason)| <= USIZE_MAX - MESSAGE_START && k < MESSAGE_START + |Encode(reason)|
    ensures k <= |EncodeError(reason)| && ExtractRevertMessage(EncodeError(reason)[..k]) == BASE_MESSAGE
  {
    var body := Encode(reason);
    var head := ErrorHead();
    assert |EncodeError(reason)| == MESSAGE_START + |body| + |Padding(|body|)|;
    if k > MESSAGE_START {
      var data := EncodeError(reason)[..k];
      var cut := body[..k - MESSAGE_START];
      assert data == head + ToBigEndian(|body|, 32) + cut + [];
      LaidOut(head, |body|, cut, []);
    }
  }

  lemma SameTail(x: string, y: string)
    ensures BASE_MESSAGE + " " + x == BASE_MESSAGE + " " + y <==> x == y
  {
    var head := BASE_MESSAGE + " ";
    assert (head + x)[|head|..] == x && (head + y)[|head|..] == y;
  }

  /** The length word stands for bytes that are all there. */
  predicate Whole(data: seq<Byte>) {
    |data| > MESSAGE_START && MESSAGE_START + FromBigEndian(data[LEN_START..MESSAGE_START]) <= |data|
  }

  lemma ExtractionReads(data: seq<Byte>)
    requires |data| < USIZE_MAX
    ensures !Whole(data) ==> ExtractRevertMessage(data) == BASE_MESSAGE
    ensures Whole(data) ==>
      var end := MESSAGE_START + FromBigEndian(data[LEN_START..MESSAGE_START]);
      ExtractRevertMessage(data) == match Decode(data[MESSAGE_START..end])
                                    case Some(reason) => BASE_MESSAGE + " " + reason
                                    case None => BASE_MESSAGE
  {
  }

  lemma NoReason(reason: string)
    ensures BASE_MESSAGE != BASE_MESSAGE + " " + reason
  {
  }

  /** A reason is reported exactly when the length word stands for bytes that are all there, and those
      bytes are the encoding of that reason. */
  lemma ReportedExactly(data: seq<Byte>, reason: string)
    requires |data| < USIZE_MAX
    ensures ExtractRevertMessage(data) == BASE_MESSAGE + " " + reason
       <==> Whole(data) &&
            data[MESSAGE_START..MESSAGE_START + FromBigEndian(data[LEN_START..MESSAGE_START])] == Encode(reason)
  {
    ExtractionReads(data);
    NoReason(reason);
    if Whole(data) {
      var bytes := data[MESSAGE_START..MESSAGE_START + FromBigEndian(data[LEN_START..MESSAGE_START])];
      DecodeEncode(reason);
      match Decode(bytes) {
        case Some(found) =>
          EncodeDecode(bytes);
          SameTail(found, reason);
        case None =>
      }
    }
  }
}
