/** The upload-pack server's ACK/NAK reply of the Git pack protocol
    ("Packfile Negotiation" in Git's pack-protocol documentation), as go-git's
    `packp.ServerResponse` reads and writes it. Only single-ACK mode is
    supported. The model works on pkt-line PAYLOADS: the framing (the 4-digit
    length prefix, the flush packet) belongs to the pkt-line scanner and
    encoder, which are not part of this model; a flush packet reaches the
    decoder as an empty payload. */
module PackProtocol {
  import opened Wrappers

  newtype byte = x: int | 0 <= x < 256

  /** Shortest ACK line accepted: "ACK " and 40 hexadecimal digits. */
  const AckLineLen: nat := 44
  /** Length of an object name written in hexadecimal. */
  const HashHexLen: nat := 40

  const Ack: seq<byte> := [0x41, 0x43, 0x4B]  // "ACK"
  const Nak: seq<byte> := [0x4E, 0x41, 0x4B]  // "NAK"
  const Space: byte := 0x20
  const Newline: byte := 0x0A

  /** An object name in its 40-character hexadecimal text form. */
  type Hash = h: seq<byte> | |h| == HashHexLen witness seq(40, _ => 0x30)

  datatype Error =
    | MultiACKUnsupported         // "multi_ack and multi_ack_detailed are not supported"
    | UnexpectedFlush             // an empty payload where a reply line was due
    | UnexpectedContent(line: seq<byte>)
    | MalformedACK(line: seq<byte>)
    | ScanFailure(reason: string) // an error reported by the pkt-line scanner

  /** `bytes.Index` for a single byte: the first position of `b` in `s`, or -1. */
  function IndexOf(s: seq<byte>, b: byte): (i: int)
    ensures -1 <= i < |s|
    ensures i == -1 <==> b !in s
    ensures 0 <= i ==> s[i] == b && b !in s[..i]
  {
    if s == [] then -1
    else if s[0] == b then 0
    else
      var j := IndexOf(s[1..], b);
      if j == -1 then -1
      else
        assert s[..j + 1] == [s[0]] + s[1..][..j];
        j + 1
  }

  /** The slice `line[sp+1 : sp+41]` of an ACK line stays inside the line.
      When it would not, the Go code panics; callers never pass such a line. */
  predicate AckSliceInBounds(line: seq<byte>) {
    |line| >= AckLineLen ==> IndexOf(line, Space) + 1 + HashHexLen <= |line|
  }

  /** `line[0:3]` exists on every non-empty line, and an ACK line can be sliced. */
  predicate Decodable(line: seq<byte>) {
    |line| == 0 || (|line| >= 3 && (line[..3] == Ack ==> AckSliceInBounds(line)))
  }

  /** The 40 bytes after the first space of an ACK line (after position -1,
      that is from the start, when the line has no space). */
  function AckedHash(line: seq<byte>): Hash
    requires |line| >= AckLineLen && AckSliceInBounds(line)
  {
    var start := IndexOf(line, Space) + 1;
    assert 0 <= start <= start + HashHexLen <= |line|;
    var h := line[start..start + HashHexLen];
    assert |h| == HashHexLen;
    h
  }

  /** What `decodeACKLine` appends to the ACK list, or the error it returns. */
  function ParseACKLine(line: seq<byte>): (r: Result<seq<Hash>, Error>)
    requires AckSliceInBounds(line)
    ensures r.Success? <==> |line| >= AckLineLen
    ensures r.Failure? ==> r.error == MalformedACK(line)
    ensures r.Success? ==> |r.value| == 1 && r.value == [AckedHash(line)]
  {
    if |line| < AckLineLen then Failure(MalformedACK(line))
    else Success([AckedHash(line)])
  }

  /** What `decodeLine` appends to the ACK list, or the error it returns. */
  function ParseLine(line: seq<byte>): (r: Result<seq<Hash>, Error>)
    requires Decodable(line)
    ensures |line| == 0 ==> r == Failure(UnexpectedFlush)
    ensures r.Success? <==> |line| > 0 && (line[..3] == Nak || (line[..3] == Ack && |line| >= AckLineLen))
    ensures r.Success? && line[..3] == Nak ==> r.value == []
    ensures r.Success? && line[..3] == Ack ==> r.value == [AckedHash(line)]
    ensures |line| > 0 && line[..3] == Ack && |line| < AckLineLen ==> r == Failure(MalformedACK(line))
    ensures |line| > 0 && line[..3] != Ack && line[..3] != Nak ==> r == Failure(UnexpectedContent(line))
  {
    if |line| == 0 then Failure(UnexpectedFlush)
    else if line[..3] == Ack then ParseACKLine(line)
    else if line[..3] == Nak then Success([])
    else Failure(UnexpectedContent(line))
  }

  /** The hashes acknowledged by the server so far. */
  class ServerResponse {
    var acks: seq<Hash>

    constructor ()
      ensures acks == []
    {
      acks := [];
    }

    /** Appends the hash of an ACK line, or rejects a line that is too short. */
    method DecodeACKLine(line: seq<byte>) returns (err: Option<Error>)
      requires AckSliceInBounds(line)
      modifies this
      ensures |line| < AckLineLen ==> err == Some(MalformedACK(line)) && acks == old(acks)
      ensures |line| >= AckLineLen ==> err == None && acks == old(acks) + [AckedHash(line)]
    {
      if |line| < AckLineLen {
        return Some(MalformedACK(line));
      }
      var start := IndexOf(line, Space) + 1;
      assert 0 <= start <= start + HashHexLen <= |line|;
      var h: Hash := line[start..start + HashHexLen];
      assert h == AckedHash(line);
      acks := acks + [h];
      return None;
    }

    /** Decodes one reply line: an ACK line adds its hash, a NAK line adds
        nothing, anything else is an error and leaves the list as it was. */
    method DecodeLine(line: seq<byte>) returns (err: Option<Error>)
      requires Decodable(line)
      modifies this
      ensures ParseLine(line).Success? ==> err == None && acks == old(acks) + ParseLine(line).value
      ensures ParseLine(line).Failure? ==> err == Some(ParseLine(line).error) && acks == old(acks)
    {
      if |line| == 0 {
        return Some(UnexpectedFlush);
      }
      if line[..3] == Ack {
        err := DecodeACKLine(line);
        return;
      }
      if line[..3] == Nak {
        return None;
      }
      return Some(UnexpectedContent(line));
    }

    /** Reads the reply from the payloads a pkt-line scanner yields, in order;
        `scanErr` is the error the scanner reports when it yields no line.
        In single-ACK mode the scan loop stops after its first line, so at
        most one line is decoded. */
    method Decode(lines: seq<seq<byte>>, scanErr: Option<Error>, isMultiACK: bool) returns (err: Option<Error>)
      requires lines != [] ==> Decodable(lines[0])
      modifies this
      ensures isMultiACK ==> err == Some(MultiACKUnsupported) && acks == old(acks)
      ensures !isMultiACK && lines == [] ==> err == scanErr && acks == old(acks)
      ensures !isMultiACK && lines != [] && ParseLine(lines[0]).Success? ==>
                err == None && acks == old(acks) + ParseLine(lines[0]).value
      ensures !isMultiACK && lines != [] && ParseLine(lines[0]).Failure? ==>
                err == Some(ParseLine(lines[0]).error) && acks == old(acks)
      ensures old(acks) <= acks && |acks| <= |old(acks)| + 1
    {
      if isMultiACK {
        return Some(MultiACKUnsupported);
      }
      // The scan loop breaks after its first line whenever !isMultiACK,
      // which always holds here: it runs at most once.
      var scanned := lines != [];
      if scanned {
        err := DecodeLine(lines[0]);
        if err.Some? {
          return;
        }
      }
      // After a successful scan the scanner reports no error.
      err := if scanned then None else scanErr;
    }

    /** The payload of the reply line: NAK when nothing was acknowledged,
        the single ACK otherwise; more than one ACK needs multi-ACK mode. */
    function Encode(): (r: Result<seq<byte>, Error>)
      reads this
      ensures r.Success? <==> |acks| <= 1
      ensures r.Failure? ==> r.error == MultiACKUnsupported
      ensures |acks| == 0 ==> r == Success(Nak + [Newline])
      ensures |acks| == 1 ==> r == Success(Ack + [Space] + acks[0] + [Newline])
      ensures r.Success? ==> Decodable(r.value) && ParseLine(r.value) == Success(acks)
    {
      if |acks| > 1 then Failure(MultiACKUnsupported)
      else if |acks| == 0 then Success(Nak + [Newline])
      else
        var line := Ack + [Space] + acks[0] + [Newline];
        assert line[..3] == Ack;
        assert IndexOf(line, Space) == 3 by {
          assert line[3] == Space && Space !in line[..3];
        }
        assert line[4..4 + HashHexLen] == acks[0];
        assert AckedHash(line) == acks[0];
        assert acks == [acks[0]];
        Success(line)
    }
  }
}
