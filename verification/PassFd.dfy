/** The two-byte protocol that ends a message with a null and a status: send_err
    and send_fd write it, recv_fd takes it apart again. */
module PassFd {
  import opened Values

  const MAXLINE := 4096 // the size of recv_fd's buffer

  datatype Outcome =
    | Got(code: int)   // -status
    | Descriptor       // status 0: the control data has a descriptor
    | Refused          // userfunc did not take the data
    | Closed           // no more data
    | Dumped           // message format error

  // ---- Sending --------------------------------------------------------------

  /** send_fd's status for a negative argument: the low byte, but never 0. */
  function Status(code: int): (st: byte)
    requires code < 0
    ensures st != 0 && (st == 1 || (-code - st) % 256 == 0)
  {
    var low := -code % 256;
    if low == 0 then 1 else low
  }

  /** What send_err writes. */
  method SendErr(errcode: int, msg: seq<byte>) returns (sent: seq<byte>)
    requires 0 !in msg
    ensures sent == Sent(errcode, msg)
  {
    sent := [];
    var n := |msg|;
    if n > 0 {
      sent := sent + msg;
    }
    var code := errcode;
    if code >= 0 {
      code := -1;
    }
    var tail := SendFd(code);
    sent := sent + tail;
  }

  method SendFd(code: int) returns (buf: seq<byte>)
    ensures buf == [0, if code < 0 then Status(code) else 0]
  {
    var st: byte := 0;
    if code < 0 {
      st := -code % 256;
      if st == 0 {
        st := 1;
      }
    }
    buf := [0, st];
  }

  function Sent(errcode: int, msg: seq<byte>): seq<byte> {
    msg + [0, Status(if errcode >= 0 then -1 else errcode)]
  }

  // ---- Receiving ------------------------------------------------------------

  /** The position of the first null. */
  function FirstNull(buf: seq<byte>): (i: nat)
    ensures i <= |buf| && 0 !in buf[..i] && (i < |buf| ==> buf[i] == 0)
  {
    if buf == [] || buf[0] == 0 then 0 else 1 + FirstNull(buf[1..])
  }

  datatype Scan = Data | Final(n: nat, status: byte) | BadFormat

  /** A null in a buffer must be its last byte but one. */
  function ScanOf(buf: seq<byte>): Scan {
    var i := FirstNull(buf);
    if i == |buf| then Data else if i + 2 == |buf| then Final(i, buf[i + 1]) else BadFormat
  }

  lemma NullAt(buf: seq<byte>, i: nat)
    requires i < |buf| && 0 !in buf[..i] && buf[i] == 0
    ensures FirstNull(buf) == i
  {
    var j := FirstNull(buf);
    assert forall x :: 0 <= x < i ==> buf[..i][x] == buf[x];
    assert forall x :: 0 <= x < j ==> buf[..j][x] == buf[x];
  }

  /** The inner loop, which ends with nr less by 2 when it has found the status. */
  method ScanBuffer(buf: seq<byte>) returns (r: Scan)
    ensures r == ScanOf(buf)
  {
    var p, nr := 0, |buf|;
    r := Data;
    while p < nr
      invariant 0 <= p <= |buf| && nr <= |buf|
      invariant r.Data? ==> nr == |buf| && 0 !in buf[..p]
      invariant !r.Data? ==> p >= nr && r == ScanOf(buf)
      decreases |buf| - p
    {
      p := p + 1;
      if buf[p - 1] == 0 {
        NullAt(buf, p - 1);
        if p != nr - 1 {
          return BadFormat;
        }
        r := Final(p - 1, buf[p]);
        nr := nr - 2;
      }
    }
  }

  /** What recv_fd does, chunk by chunk: user says whether userfunc takes the data,
      given all it has been handed. */
  ghost function Recv(chunks: seq<seq<byte>>, before: seq<byte>, user: seq<byte> -> bool): (Outcome, seq<byte>)
    decreases |chunks|
  {
    if chunks == [] || chunks[0] == [] then (Closed, before)
    else
      match ScanOf(chunks[0])
      case BadFormat => (Dumped, before)
      case Data =>
        var h := before + chunks[0];
        if !user(h) then (Refused, h) else Recv(chunks[1..], h, user)
      case Final(n, status) =>
        var h := before + chunks[0][..n];
        if n > 0 && !user(h) then (Refused, h) else (if status == 0 then Descriptor else Got(-(status as int)), h)
  }

  /** What recvmsg can return, call after call: never more than the buffer takes. */
  predicate Reads(chunks: seq<seq<byte>>) {
    forall i :: 0 <= i < |chunks| ==> |chunks[i]| <= MAXLINE
  }

  /** recv_fd: chunks are what recvmsg returns; no bytes are the end of the stream. */
  method RecvFd(chunks: seq<seq<byte>>, user: seq<byte> -> bool) returns (out: Outcome, handed: seq<byte>)
    requires Reads(chunks)
    ensures (out, handed) == Recv(chunks, [], user)
  {
    handed := [];
    var i := 0;
    assert chunks[0..] == chunks;
    while i < |chunks|
      invariant 0 <= i <= |chunks| && Recv(chunks[i..], handed, user) == Recv(chunks, [], user)
    {
      if chunks[i] == [] {
        break;
      }
      var r := ScanBuffer(chunks[i]);
      assert chunks[i..][0] == chunks[i] && chunks[i..][1..] == chunks[i + 1..];
      if r.BadFormat? {
        out := Dumped;
        return;
      }
      var nr := if r.Final? then r.n else |chunks[i]|;
      assert r.Data? ==> chunks[i][..nr] == chunks[i];
      handed := handed + chunks[i][..nr];
      if nr > 0 && !user(handed) {
        out := Refused;
        return;
      }
      if r.Final? {
        out := if r.status == 0 then Descriptor else Got(-(r.status as int));
        return;
      }
      i := i + 1;
    }
    out := Closed;
  }

  // ---- There and back -------------------------------------------------------

  function Flat(chunks: seq<seq<byte>>): seq<byte> {
    if chunks == [] then [] else chunks[0] + Flat(chunks[1..])
  }

  predicate NonEmpty(chunks: seq<seq<byte>>) {
    forall i :: 0 <= i < |chunks| ==> chunks[i] != []
  }

  /** Message and tail, however they are cut up: recv_fd hands on the message and
      returns the code's status if the two bytes of the tail come together, and it
      gives up if they do not. */
  lemma {:induction false} AnyChunks(chunks: seq<seq<byte>>, before: seq<byte>, msg: seq<byte>, st: byte)
    requires NonEmpty(chunks) && Flat(chunks) == msg + [0, st] && 0 !in msg && st != 0
    ensures chunks != []
    ensures var (out, handed) := Recv(chunks, before, _ => true);
      if |chunks[|chunks| - 1]| >= 2 then out == Got(-(st as int)) && handed == before + msg else out == Dumped
    decreases |chunks|
  {
    var c, all := chunks[0], msg + [0, st];
    assert all[..|c|] == c && all[|c|..] == Flat(chunks[1..]);
    if |c| <= |msg| {
      assert c == msg[..|c|] && Flat(chunks[1..]) == msg[|c|..] + [0, st];
      assert FirstNull(c) == |c|;
      assert chunks[1..] != [] && chunks[1..][|chunks| - 2] == chunks[|chunks| - 1];
      AnyChunks(chunks[1..], before + c, msg[|c|..], st);
      assert before + c + msg[|c|..] == before + msg;
    } else {
      assert c[|msg|] == 0 && c[..|msg|] == msg;
      NullAt(c, |msg|);
      Rest(chunks, |all|);
      if |c| == |all| {
        assert chunks[|chunks| - 1] == c;
      }
    }
  }

  /** What is left for the other chunks. */
  lemma Rest(chunks: seq<seq<byte>>, n: nat)
    requires NonEmpty(chunks) && chunks != [] && |Flat(chunks)| == n && n - 1 <= |chunks[0]| <= n
    ensures if |chunks[0]| == n then |chunks| == 1 else |chunks| == 2 && |chunks[1]| == 1
  {
    if |chunks| > 1 {
      assert Flat(chunks[1..]) == chunks[1] + Flat(chunks[2..]);
      if |chunks| > 2 {
        assert Flat(chunks[2..]) == chunks[2] + Flat(chunks[3..]);
      }
    }
  }

  /** What recv_fd returns for what send_err was given. */
  function Expected(errcode: int): int {
    if errcode >= 0 || -errcode % 256 == 0 then -1 else -(-errcode % 256)
  }

  /** Every message and every code survive every stream that keeps the tail together,
      and no other. */
  lemma RoundTrip(errcode: int, msg: seq<byte>, chunks: seq<seq<byte>>)
    requires NonEmpty(chunks) && 0 !in msg && Flat(chunks) == Sent(errcode, msg)
    ensures chunks != []
    ensures Recv(chunks, [], _ => true) == (Got(Expected(errcode)), msg) <==> |chunks[|chunks| - 1]| >= 2
  {
    var st := Status(if errcode >= 0 then -1 else errcode);
    AnyChunks(chunks, [], msg, st);
    assert [] + msg == msg;
    assert -(st as int) == Expected(errcode);
  }

  // ---- Full buffers ---------------------------------------------------------

  /** A stream that is there before recv_fd reads it: every read but the last fills
      the buffer. */
  function FullReads(s: seq<byte>): (chunks: seq<seq<byte>>)
    ensures Reads(chunks) && NonEmpty(chunks) && Flat(chunks) == s
    ensures s != [] ==> chunks != [] && |chunks[|chunks| - 1]| == (|s| - 1) % MAXLINE + 1
  {
    if s == [] then [] else if |s| <= MAXLINE then [s] else
      assert s == s[..MAXLINE] + s[MAXLINE..];
      [s[..MAXLINE]] + FullReads(s[MAXLINE..])
  }

  lemma LastByte(n: nat)
    ensures (n + 1) % MAXLINE == 0 <==> n % MAXLINE == MAXLINE - 1
  {
    assert n == MAXLINE * (n / MAXLINE) + n % MAXLINE;
  }

  /** What a sender can check: read in full buffers, a message comes through unless its
      null is the last byte of one. */
  lemma FullBuffers(errcode: int, msg: seq<byte>)
    requires 0 !in msg
    ensures Recv(FullReads(Sent(errcode, msg)), [], _ => true) == (Got(Expected(errcode)), msg) <==>
      |msg| % MAXLINE != MAXLINE - 1
  {
    hide Recv, FullReads, Flat;
    RoundTrip(errcode, msg, FullReads(Sent(errcode, msg)));
    LastByte(|msg|);
  }

  /** A message of one byte less than the buffer: its null ends the first read, the
      status comes alone, and recv_fd gives up with nothing handed on. */
  lemma SplitTail(errcode: int, msg: seq<byte>)
    requires |msg| == MAXLINE - 1 && 0 !in msg
    ensures FullReads(Sent(errcode, msg)) == [msg + [0], [Status(if errcode >= 0 then -1 else errcode)]]
    ensures Recv(FullReads(Sent(errcode, msg)), [], _ => true) == (Dumped, [])
  {
    var sent := Sent(errcode, msg);
    assert sent[..MAXLINE] == msg + [0];
    assert sent[MAXLINE..] == [Status(if errcode >= 0 then -1 else errcode)];
    assert (msg + [0])[..MAXLINE - 1] == msg;
    NullAt(msg + [0], MAXLINE - 1);
  }
}
