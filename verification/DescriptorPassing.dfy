/** SocketUtils.cpp (sendSocket) and ReceivedTcpSocketFactory.cpp (createSocket): the two-byte
    message that carries a descriptor or an error status over the UNIX socket. */
module DescriptorPassing {

  type byte = b: int | 0 <= b < 256

  datatype Option<T> = None | Some(value: T)

  const INT_MIN: int := -0x8000_0000
  const INT_MAX: int := 0x7fff_ffff
  const MAXLINE: nat := 128

  /** The bytes of one message and the descriptor attached as control data, if any. */
  datatype Packet = Packet(data: seq<byte>, attached: Option<int>)

  /** The status byte of an error value: its negation kept to eight bits, 0 replaced by 1. */
  function ErrorStatus(fd: int): (status: byte)
    requires fd < 0
    ensures 1 <= status
    ensures fd % 256 != 0 ==> (status + fd) % 256 == 0
    ensures fd % 256 == 0 ==> status == 1
  {
    if (-fd) % 256 == 0 then 1 else (-fd) % 256
  }

  /** The message for a descriptor value: a descriptor is attached as it is, an error as its status. */
  function Encode(fd: int): (m: Packet)
    ensures m.attached == if fd >= 0 then Some(fd) else None
    ensures |m.data| == 2 && m.data[0] == 0
    ensures m.data[1] == if fd >= 0 then 0 else if fd % 256 == 0 then 1 else 256 - fd % 256
  {
    if fd < 0 then Packet([0, ErrorStatus(fd)], None) else Packet([0, 0], Some(fd))
  }

  /** `controlReady` says whether the control header is or can be allocated, `sent` is sendmsg's result. */
  method SendSocket(fdToSend: int, controlReady: bool, sent: int) returns (ok: bool, message: Option<Packet>)
    requires INT_MIN < fdToSend <= INT_MAX
    ensures message == if fdToSend >= 0 && !controlReady then None else Some(Encode(fdToSend))
    ensures fdToSend >= 0 && controlReady ==> message == Some(Packet([0, 0], Some(fdToSend)))
    ensures fdToSend < 0 ==>
      message == Some(Packet([0, if fdToSend % 256 == 0 then 1 else 256 - fdToSend % 256], None))
    ensures ok <==> message.Some? && sent == 2
  {
    var buf := new byte[2];
    var attached: Option<int>;
    if fdToSend < 0 {
      attached := None;
      buf[1] := (-fdToSend) % 256;
      if buf[1] == 0 {
        buf[1] := 1;
      }
    } else {
      if !controlReady {
        return false, None;
      }
      attached := Some(fdToSend);
      buf[1] := 0;
    }
    buf[0] := 0;
    assert buf[..] == Encode(fdToSend).data;
    message := Some(Packet(buf[..], attached));
    ok := sent == 2;
  }

  /** What one recvmsg brings: a failure, or up to MAXLINE bytes (none at end of stream) and possibly control data. */
  datatype Chunk = Failed | Received(message: Packet)

  predicate ChunkFits(c: Chunk) {
    c.Received? ==> |c.message.data| <= MAXLINE
  }

  predicate AllFit(chunks: seq<Chunk>) {
    forall i :: 0 <= i < |chunks| ==> ChunkFits(chunks[i])
  }

  /** The scan's variables: `status` is -1 and `newfd` unset until a null byte is met; `errors`
      counts the format errors logged. */
  datatype ScanState = ScanState(status: int, newfd: int, errors: nat)

  /** Handle the null byte before `ptr`, under the bound `nr`; `control` is the content of the control buffer. */
  function AtNull(buf: seq<byte>, ptr: nat, nr: int, st: ScanState, control: int): (r: ScanState)
    requires ptr < |buf|
  {
    ScanState(
      buf[ptr],
      if buf[ptr] == 0 then control else -(buf[ptr] as int),
      if ptr != nr - 1 then st.errors + 1 else st.errors)
  }

  /** The inner scan. Each null byte met shrinks the bound by two. */
  function Scan(buf: seq<byte>, ptr: nat, nr: int, st: ScanState, control: int): (r: ScanState)
    requires nr < |buf|
    decreases nr - ptr
  {
    if ptr >= nr then st
    else if buf[ptr] == 0 then Scan(buf, ptr + 1, nr - 2, AtNull(buf, ptr + 1, nr, st, control), control)
    else Scan(buf, ptr + 1, nr, st, control)
  }

  predicate NullFree(s: seq<byte>) {
    0 !in s
  }

  function Overlay(buf: seq<byte>, data: seq<byte>): (r: seq<byte>)
    requires |data| <= |buf|
    ensures |r| == |buf|
  {
    data + buf[|data|..]
  }

  datatype Outcome =
    | Waiting           // every recvmsg so far failed or brought no status: the loop goes on
    | Closed            // end of stream
    | Descriptor(fd: int)
    | NoSocket(status: byte)

  /** The result of the outer loop, the number of recvmsg calls it made, and the format errors it logged. */
  datatype Receipt = Receipt(outcome: Outcome, calls: nat, errors: nat)

  function Verdict(st: ScanState): (o: Outcome)
    requires 0 <= st.status < 256
  {
    if st.newfd > 0 then Descriptor(st.newfd) else NoSocket(st.status)
  }

  const UNSCANNED: ScanState := ScanState(-1, 0, 0)

  function NewControl(control: int, m: Packet): int {
    if m.attached.Some? then m.attached.value else control
  }

  ghost predicate Scanned(st: ScanState) {
    -1 <= st.status < 256
  }

  lemma {:induction false} ScanStatus(buf: seq<byte>, ptr: nat, nr: int, st: ScanState, control: int)
    requires nr < |buf| && Scanned(st)
    ensures Scanned(Scan(buf, ptr, nr, st, control))
    decreases nr - ptr
  {
    if ptr >= nr {
    } else {
      if buf[ptr] == 0 {
        ScanStatus(buf, ptr + 1, nr - 2, AtNull(buf, ptr + 1, nr, st, control), control);
      } else {
        ScanStatus(buf, ptr + 1, nr, st, control);
      }
    }
  }

  /** The outer loop over the chunks the kernel brings, given the buffer's and the control
      buffer's earlier contents and the scan variables so far. */
  ghost function Receive(buf: seq<byte>, control: int, errors: nat, chunks: seq<Chunk>): (r: Receipt)
    requires |buf| == MAXLINE + 1
    requires AllFit(chunks)
    ensures r.calls <= |chunks|
    decreases |chunks|
  {
    if chunks == [] then Receipt(Waiting, 0, errors)
    else
      if chunks[0].Failed? then Again(Receive(buf, control, errors, chunks[1..]))
      else if chunks[0].message.data == [] then Receipt(Closed, 1, errors)
      else
        var m := chunks[0].message;
        var buf1, control1 := Overlay(buf, m.data), NewControl(control, m);
        var st := Scan(buf1, 0, |m.data|, UNSCANNED.(errors := errors), control1);
        ScanStatus(buf1, 0, |m.data|, UNSCANNED.(errors := errors), control1);
        if st.status >= 0 then Receipt(Verdict(st), 1, st.errors)
        else Again(Receive(buf1, control1, st.errors, chunks[1..]))
  }

  ghost function Again(r: Receipt): Receipt {
    r.(calls := r.calls + 1)
  }

  /** The control cell after a run of chunks: what the last one that carried a descriptor left in it. */
  ghost function ControlAfter(control: int, chunks: seq<Chunk>): int
    decreases |chunks|
  {
    if chunks == [] then control
    else ControlAfter(if chunks[0].Failed? then control else NewControl(control, chunks[0].message), chunks[1..])
  }

  lemma {:induction false} ControlStep(control: int, chunks: seq<Chunk>, n: nat)
    requires n < |chunks|
    ensures
      var before := ControlAfter(control, chunks[..n]);
      ControlAfter(control, chunks[..n + 1]) ==
        if chunks[n].Failed? then before else NewControl(before, chunks[n].message)
    decreases n
  {
    if n == 0 {
      assert chunks[..1][1..] == [];
    } else {
      ControlStep(if chunks[0].Failed? then control else NewControl(control, chunks[0].message), chunks[1..], n - 1);
      assert chunks[1..][..n - 1] == chunks[..n][1..] && chunks[1..][..n] == chunks[..n + 1][1..];
    }
  }

  /** createSocket. `buf` is the line buffer with the one byte of memory after it, which the scan
      reads when a full buffer ends in a null byte; it and the control cell hold whatever earlier calls left. */
  method CreateSocket(buf: array<byte>, cell: int, chunks: seq<Chunk>) returns (receipt: Receipt, control: int)
    requires buf.Length == MAXLINE + 1
    requires AllFit(chunks)
    modifies buf
    ensures receipt == Receive(old(buf[..]), cell, 0, chunks)
    ensures control == ControlAfter(cell, chunks[..receipt.calls])
  {
    control := cell;
    var calls, errors := 0, 0;
    while calls < |chunks|
      invariant 0 <= calls <= |chunks|
      invariant AllFit(chunks[calls..]) && control == ControlAfter(cell, chunks[..calls])
      invariant
        var rest := Receive(buf[..], control, errors, chunks[calls..]);
        Receive(old(buf[..]), cell, 0, chunks) == rest.(calls := calls + rest.calls)
    {
      var chunk := chunks[calls];
      assert chunks[calls..][1..] == chunks[calls + 1..];
      ControlStep(cell, chunks, calls);
      calls := calls + 1;
      if chunk.Received? {
        control := NewControl(control, chunk.message);
        var nr := |chunk.message.data|;
        if nr == 0 {
          receipt := Receipt(Closed, calls, errors);
          return;
        }
        ghost var before := buf[..];
        forall i | 0 <= i < nr {
          buf[i] := chunk.message.data[i];
        }
        assert buf[..] == Overlay(before, chunk.message.data);
        var st := ScanBuffer(buf, nr, control, errors);
        errors := st.errors;
        if st.status >= 0 {
          receipt := Receipt(Verdict(st), calls, errors);
          return;
        }
      }
    }
    receipt := Receipt(Waiting, calls, errors);
  }

  /** The inner loop; it terminates because the gap between the shrinking bound and the pointer falls. */
  method ScanBuffer(buf: array<byte>, nr: nat, control: int, errors: nat) returns (st: ScanState)
    requires nr < buf.Length
    ensures st == Scan(buf[..], 0, nr, UNSCANNED.(errors := errors), control)
    ensures Scanned(st)
  {
    st := UNSCANNED.(errors := errors);
    var ptr, bound := 0, nr;
    while ptr < bound
      invariant 0 <= ptr < buf.Length && bound <= nr
      invariant Scanned(st)
      invariant Scan(buf[..], ptr, bound, st, control) == Scan(buf[..], 0, nr, UNSCANNED.(errors := errors), control)
      decreases bound - ptr
    {
      ptr := ptr + 1;
      if buf[ptr - 1] == 0 {
        st := AtNull(buf[..], ptr, bound, st, control);
        bound := bound - 2;
      }
    }
  }

  lemma {:induction false} ScanSkipsNullFree(buf: seq<byte>, ptr: nat, upto: nat, nr: int, st: ScanState, control: int)
    requires ptr <= upto <= nr < |buf| && NullFree(buf[ptr..upto])
    ensures Scan(buf, ptr, nr, st, control) == Scan(buf, upto, nr, st, control)
    decreases upto - ptr
  {
    if ptr == upto {
    } else {
      assert buf[ptr] == buf[ptr..upto][0] && buf[ptr + 1..upto] == buf[ptr..upto][1..];
      ScanSkipsNullFree(buf, ptr + 1, upto, nr, st, control);
    }
  }

  /** Well-formed data: no null byte, or the first null byte stands next to last. */
  ghost predicate WellFormed(data: seq<byte>) {
    NullFree(data) || (|data| >= 2 && NullFree(data[..|data| - 2]) && data[|data| - 2] == 0)
  }

  lemma {:induction false} ErrorsOnlyGrow(buf: seq<byte>, ptr: nat, nr: int, st: ScanState, control: int)
    requires nr < |buf|
    ensures Scan(buf, ptr, nr, st, control).errors >= st.errors
    decreases nr - ptr
  {
    if ptr >= nr {
    } else {
      if buf[ptr] == 0 {
        ErrorsOnlyGrow(buf, ptr + 1, nr - 2, AtNull(buf, ptr + 1, nr, st, control), control);
      } else {
        ErrorsOnlyGrow(buf, ptr + 1, nr, st, control);
      }
    }
  }

  lemma {:induction false} FirstNull(s: seq<byte>) returns (i: nat)
    requires !NullFree(s)
    ensures i < |s| && s[i] == 0 && NullFree(s[..i])
    decreases |s|
  {
    if s[0] == 0 {
      i := 0;
    } else {
      assert s == [s[0]] + s[1..];
      i := FirstNull(s[1..]);
      i := i + 1;
      assert s[..i] == [s[0]] + s[1..][..i - 1];
    }
  }

  /** A format error is logged exactly when the data is not well formed, whatever stale bytes follow
      it in the buffer. */
  lemma FormatErrorIffMalformed(buf: seq<byte>, data: seq<byte>, errors: nat, control: int)
    requires |data| < |buf|
    ensures Scan(Overlay(buf, data), 0, |data|, UNSCANNED.(errors := errors), control).errors == errors
       <==> WellFormed(data)
  {
    var b, st, n := Overlay(buf, data), UNSCANNED.(errors := errors), |data|;
    if NullFree(data) {
      assert b[0..n] == data;
      ScanSkipsNullFree(b, 0, n, n, st, control);
    } else {
      var i := FirstNull(data);
      assert b[0..i] == data[..i] && b[i] == 0;
      ScanSkipsNullFree(b, 0, i, n, st, control);
      var st1 := AtNull(b, i + 1, n, st, control);
      ErrorsOnlyGrow(b, i + 1, n - 2, st1, control);
      assert WellFormed(data) <==> i == n - 2 by {
        assert forall j :: 0 <= j < i ==> data[..i][j] != 0;
        assert i < n - 2 ==> data[..n - 2][i] == 0;
      }
    }
  }

  /** A bound below the end of the data keeps the scan inside the data. */
  lemma {:induction false} ScanStaysInside(a: seq<byte>, b: seq<byte>, ptr: nat, nr: int, st: ScanState, control: int)
    requires nr < |a| && nr < |b| && forall i :: 0 <= i <= nr ==> a[i] == b[i]
    ensures Scan(a, ptr, nr, st, control) == Scan(b, ptr, nr, st, control)
    decreases nr - ptr
  {
    if ptr >= nr {
    } else if a[ptr] == 0 {
      ScanStaysInside(a, b, ptr + 1, nr - 2, AtNull(a, ptr + 1, nr, st, control), control);
    } else {
      ScanStaysInside(a, b, ptr + 1, nr, st, control);
    }
  }

  /** The only null byte is the last byte: the status is read behind the data. */
  ghost predicate NullOnlyLast(data: seq<byte>) {
    data != [] && NullFree(data[..|data| - 1]) && data[|data| - 1] == 0
  }

  lemma ScanFindsNull(buf: seq<byte>, data: seq<byte>, i: nat, st: ScanState, control: int)
    requires |data| < |buf| && i < |data| && data[i] == 0 && NullFree(data[..i])
    ensures
      var b, n := Overlay(buf, data), |data|;
      Scan(b, 0, n, st, control) == Scan(b, i + 1, n - 2, AtNull(b, i + 1, n, st, control), control)
  {
    var b := Overlay(buf, data);
    assert b[0..i] == data[..i] && b[i] == 0;
    ScanSkipsNullFree(b, 0, i, |data|, st, control);
  }

  lemma ScanIgnoresStale(a: seq<byte>, b: seq<byte>, data: seq<byte>, st: ScanState, control: int)
    requires |data| < |a| && |data| < |b| && !NullOnlyLast(data)
    ensures Scan(Overlay(a, data), 0, |data|, st, control) == Scan(Overlay(b, data), 0, |data|, st, control)
  {
    var x, y, n := Overlay(a, data), Overlay(b, data), |data|;
    if NullFree(data) {
      assert x[0..n] == data && y[0..n] == data;
      ScanSkipsNullFree(x, 0, n, n, st, control);
      ScanSkipsNullFree(y, 0, n, n, st, control);
    } else {
      var i := FirstNull(data);
      assert i != n - 1;
      ScanFindsNull(a, data, i, st, control);
      ScanFindsNull(b, data, i, st, control);
      ScanStaysInside(x, y, i + 1, n - 2, AtNull(x, i + 1, n, st, control), control);
    }
  }

  /** The byte behind the data decides the status when the only null byte is the last one. */
  lemma ScanReadsBehind(buf: seq<byte>, data: seq<byte>, st: ScanState, control: int)
    requires |data| < |buf| && NullOnlyLast(data)
    ensures Scan(Overlay(buf, data), 0, |data|, st, control).status == buf[|data|]
  {
    ScanFindsNull(buf, data, |data| - 1, st, control);
    assert Overlay(buf, data)[|data|] == buf[|data|];
  }

  /** The scan's result depends on the received data alone, whatever stale bytes lie behind it, if
      and only if the data does not have its only null byte at its end. */
  lemma StaleBytesIgnoredIff(data: seq<byte>, st: ScanState, control: int)
    ensures
      (forall a: seq<byte>, b: seq<byte> :: |data| < |a| && |data| < |b| ==>
         Scan(Overlay(a, data), 0, |data|, st, control) == Scan(Overlay(b, data), 0, |data|, st, control))
      <==> !NullOnlyLast(data)
  {
    if NullOnlyLast(data) {
      var a, b: seq<byte> := data + [0], data + [1];
      ScanReadsBehind(a, data, st, control);
      ScanReadsBehind(b, data, st, control);
      assert Scan(Overlay(a, data), 0, |data|, st, control) != Scan(Overlay(b, data), 0, |data|, st, control);
    } else {
      forall a: seq<byte>, b: seq<byte> | |data| < |a| && |data| < |b|
        ensures Scan(Overlay(a, data), 0, |data|, st, control) == Scan(Overlay(b, data), 0, |data|, st, control)
      {
        ScanIgnoresStale(a, b, data, st, control);
      }
    }
  }

  /** Such an input: a message of one null byte yields whatever status the byte behind it holds. */
  lemma LoneNullReadsBehind(status: byte, tail: seq<byte>, control: int)
    ensures Scan(Overlay([7, status] + tail, [0]), 0, 1, UNSCANNED, control).status == status
  {
    assert [0][..0] == [];
    ScanReadsBehind([7, status] + tail, [0], UNSCANNED, control);
  }

  // ----- which null byte decides

  function Nulls(s: seq<byte>): (n: nat)
    ensures NullFree(s) <==> n == 0
  {
    if s == [] then 0 else Nulls(s[..|s| - 1]) + if s[|s| - 1] == 0 then 1 else 0
  }

  /** The scan sees a null byte at `p` if every null byte before it has shortened the data by two and
      it is still inside. */
  ghost predicate Seen(buf: seq<byte>, n: nat, p: nat)
    requires p < n <= |buf|
  {
    buf[p] == 0 && p < n - 2 * Nulls(buf[..p])
  }

  lemma {:induction false} NullsGrow(buf: seq<byte>, a: nat, b: nat)
    requires a <= b <= |buf|
    ensures Nulls(buf[..a]) <= Nulls(buf[..b])
    ensures NullFree(buf[a..b]) ==> Nulls(buf[..a]) == Nulls(buf[..b])
    decreases b - a
  {
    if a == b {
    } else {
      NullsGrow(buf, a, b - 1);
      assert buf[..b][..b - 1] == buf[..b - 1];
      assert buf[a..b] == buf[a..b - 1] + [buf[b - 1]];
    }
  }

  lemma NextNulls(buf: seq<byte>, p: nat)
    requires p < |buf|
    ensures Nulls(buf[..p + 1]) == Nulls(buf[..p]) + if buf[p] == 0 then 1 else 0
  {
    assert buf[..p + 1][..p] == buf[..p];
  }

  /** Behind the last null byte seen there is none below the bound left. */
  lemma {:induction false} NoneBelowBound(buf: seq<byte>, n: nat, p: nat, q: nat)
    requires n < |buf| && p < n && Seen(buf, n, p) && p < q <= n && q <= n - 2 * Nulls(buf[..p + 1])
    requires forall r :: p < r < n ==> !Seen(buf, n, r)
    ensures NullFree(buf[p + 1..q])
    decreases q
  {
    if q == p + 1 {
    } else {
      NoneBelowBound(buf, n, p, q - 1);
      NullsGrow(buf, p + 1, q - 1);
      assert !Seen(buf, n, q - 1);
      assert buf[p + 1..q] == buf[p + 1..q - 1] + [buf[q - 1]];
    }
  }

  lemma ScanAtLast(buf: seq<byte>, n: nat, p: nat, st: ScanState, control: int)
    requires p < n < |buf| && Seen(buf, n, p) && forall q :: p < q < n ==> !Seen(buf, n, q)
    ensures
      var r := Scan(buf, p, n - 2 * Nulls(buf[..p]), st, control);
      r.status == buf[p + 1] && r.newfd == if buf[p + 1] == 0 then control else -(buf[p + 1] as int)
  {
    hide Nulls;
    var nr := n - 2 * Nulls(buf[..p]);
    NextNulls(buf, p);
    var st1 := AtNull(buf, p + 1, nr, st, control);
    if p + 1 < nr - 2 {
      NoneBelowBound(buf, n, p, nr - 2);
      ScanSkipsNullFree(buf, p + 1, nr - 2, nr - 2, st1, control);
    }
  }

  lemma {:induction false} ScanFromDecides(buf: seq<byte>, ptr: nat, n: nat, p: nat, st: ScanState, control: int)
    requires ptr <= p < n < |buf| && Seen(buf, n, p) && forall q :: p < q < n ==> !Seen(buf, n, q)
    ensures
      var r := Scan(buf, ptr, n - 2 * Nulls(buf[..ptr]), st, control);
      r.status == buf[p + 1] && r.newfd == if buf[p + 1] == 0 then control else -(buf[p + 1] as int)
    decreases p - ptr
  {
    hide Nulls, AtNull;
    if ptr == p {
      ScanAtLast(buf, n, p, st, control);
    } else {
      var nr := n - 2 * Nulls(buf[..ptr]);
      NullsGrow(buf, ptr, p);
      NextNulls(buf, ptr);
      ScanFromDecides(buf, ptr + 1, n, p, if buf[ptr] == 0 then AtNull(buf, ptr + 1, nr, st, control) else st, control);
    }
  }

  /** Each null byte shortens what is scanned by two, and the byte behind the last one still inside is the status. */
  lemma LastNullDecides(buf: seq<byte>, n: nat, p: nat, st: ScanState, control: int)
    requires p < n < |buf| && Seen(buf, n, p) && forall q :: p < q < n ==> !Seen(buf, n, q)
    ensures
      var r := Scan(buf, 0, n, st, control);
      r.status == buf[p + 1] && r.newfd == if buf[p + 1] == 0 then control else -(buf[p + 1] as int)
  {
    assert buf[..0] == [];
    ScanFromDecides(buf, 0, n, p, st, control);
  }

  /** A second null byte two before the end is not looked at any more. */
  lemma SecondNullIsCutOff(a: byte, b: byte, tail: seq<byte>, control: int)
    requires a != 0
    ensures Scan([a, 0, 9, 0, b] + tail, 0, 4, UNSCANNED, control).status == 9
  {
    var buf := [a, 0, 9, 0, b] + tail;
    assert buf[..1] == [a] && buf[..2] == [a, 0] && buf[..3] == [a, 0, 9];
    assert [a][..0] == [] && [a, 0][..1] == [a] && [a, 0, 9][..2] == [a, 0];
    assert Nulls([a]) == 0 && Nulls([a, 0]) == 1 && Nulls([a, 0, 9]) == 1;
    LastNullDecides(buf, 4, 1, UNSCANNED, control);
  }

  /** Null-free text, a null byte and a status byte: the scan returns that status and logs nothing. */
  lemma ScanFindsStatus(buf: seq<byte>, text: seq<byte>, status: byte, errors: nat, control: int)
    requires NullFree(text) && |text| + 2 < |buf|
    ensures Scan(Overlay(buf, text + [0, status]), 0, |text| + 2, UNSCANNED.(errors := errors), control)
         == ScanState(status, if status == 0 then control else -(status as int), errors)
  {
    var b, st, n := Overlay(buf, text + [0, status]), UNSCANNED.(errors := errors), |text|;
    assert b[0..n] == text && b[n] == 0 && b[n + 1] == status;
    ScanSkipsNullFree(b, 0, n, n + 2, st, control);
  }

  /** Chunks the loop passes over: failures, and non-empty data without a null byte. */
  ghost predicate Skippable(c: Chunk) {
    ChunkFits(c) && (c.Received? ==> c.message.data != [] && NullFree(c.message.data))
  }

  /** The receive loop consumes exactly the skipped chunks and the closing one, and returns that
      chunk's status with no further format error; what comes after is left unread. */
  lemma {:induction false} ReceiveConsumesOneMessage(
      buf: seq<byte>, control: int, errors: nat, skipped: seq<Chunk>, last: Packet, text: seq<byte>,
        status: byte, rest: seq<Chunk>)
    requires |buf| == MAXLINE + 1
    requires forall i :: 0 <= i < |skipped| ==> Skippable(skipped[i])
    requires AllFit(skipped + [Received(last)] + rest)
    requires last.data == text + [0, status] && NullFree(text) && |last.data| <= MAXLINE
    ensures
      var newfd := if status == 0 then NewControl(ControlAfter(control, skipped), last) else -(status as int);
      Receive(buf, control, errors, skipped + [Received(last)] + rest)
        == Receipt(if newfd > 0 then Descriptor(newfd) else NoSocket(status), |skipped| + 1, errors)
    decreases |skipped|
  {
    var all := skipped + [Received(last)] + rest;
    if skipped == [] {
      assert all[0] == Received(last);
      ScanFindsStatus(buf, text, status, errors, NewControl(control, last));
    } else {
      var c := skipped[0];
      assert all[0] == c && all[1..] == skipped[1..] + [Received(last)] + rest;
      assert Skippable(c);
      if c.Failed? {
        ReceiveConsumesOneMessage(buf, control, errors, skipped[1..], last, text, status, rest);
      } else {
        var buf1, control1, n := Overlay(buf, c.message.data), NewControl(control, c.message), |c.message.data|;
        assert buf1[0..n] == c.message.data;
        ScanSkipsNullFree(buf1, 0, n, n, UNSCANNED.(errors := errors), control1);
        ReceiveConsumesOneMessage(buf1, control1, errors, skipped[1..], last, text, status, rest);
      }
    }
  }

  /** End of stream ends the reception without a socket, after any skipped chunks. */
  lemma {:induction false} EndOfStreamEndsReception(
      buf: seq<byte>, control: int, errors: nat, skipped: seq<Chunk>, attached: Option<int>, rest: seq<Chunk>)
    requires |buf| == MAXLINE + 1
    requires forall i :: 0 <= i < |skipped| ==> Skippable(skipped[i])
    requires AllFit(skipped + [Received(Packet([], attached))] + rest)
    ensures Receive(buf, control, errors, skipped + [Received(Packet([], attached))] + rest)
         == Receipt(Closed, |skipped| + 1, errors)
    decreases |skipped|
  {
    var last := Received(Packet([], attached));
    var all := skipped + [last] + rest;
    if skipped == [] {
      assert all[0] == last;
    } else {
      var c := skipped[0];
      assert all[0] == c && all[1..] == skipped[1..] + [last] + rest;
      assert Skippable(c);
      if c.Failed? {
        EndOfStreamEndsReception(buf, control, errors, skipped[1..], attached, rest);
      } else {
        SkippedChunk(buf, control, errors, c, all[1..]);
        EndOfStreamEndsReception(
          Overlay(buf, c.message.data), NewControl(control, c.message), errors, skipped[1..], attached, rest);
      }
    }
  }

  /** A chunk without a null byte only leaves its bytes and its control data behind. */
  lemma SkippedChunk(buf: seq<byte>, control: int, errors: nat, c: Chunk, rest: seq<Chunk>)
    requires |buf| == MAXLINE + 1 && Skippable(c) && c.Received? && AllFit([c] + rest) && AllFit(rest)
    ensures Receive(buf, control, errors, [c] + rest)
         == Again(Receive(Overlay(buf, c.message.data), NewControl(control, c.message), errors, rest))
  {
    var buf1, n := Overlay(buf, c.message.data), |c.message.data|;
    assert buf1[0..n] == c.message.data && ([c] + rest)[1..] == rest;
    ScanSkipsNullFree(buf1, 0, n, n, UNSCANNED.(errors := errors), NewControl(control, c.message));
  }

  /** As long as only such chunks come the reception goes on. */
  lemma {:induction false} SkippedChunksKeepWaiting(buf: seq<byte>, control: int, errors: nat, skipped: seq<Chunk>)
    requires |buf| == MAXLINE + 1 && forall i :: 0 <= i < |skipped| ==> Skippable(skipped[i])
    ensures AllFit(skipped) && Receive(buf, control, errors, skipped) == Receipt(Waiting, |skipped|, errors)
    decreases |skipped|
  {
    assert forall i :: 0 <= i < |skipped| ==> Skippable(skipped[i]) && ChunkFits(skipped[i]);
    if skipped == [] {
    } else {
      var c := skipped[0];
      assert skipped == [c] + skipped[1..];
      if c.Failed? {
        SkippedChunksKeepWaiting(buf, control, errors, skipped[1..]);
      } else {
        SkippedChunk(buf, control, errors, c, skipped[1..]);
        SkippedChunksKeepWaiting(Overlay(buf, c.message.data), NewControl(control, c.message), errors, skipped[1..]);
      }
    }
  }

  /** The message sent for `fd` as it arrives: the kernel installs an attached descriptor under a
      number of its own, or loses the control data. */
  function Delivered(fd: int, installed: Option<int>): (m: Packet) {
    Arriving(Encode(fd), installed)
  }

  /** The kernel replaces an attached descriptor by the number it installs the same descriptor
      under, if it installs it; without one it installs nothing. */
  function Arriving(m: Packet, installed: Option<int>): Packet {
    m.(attached := if m.attached.Some? then installed else None)
  }

  /** The number the receiver reads for a message that carries a descriptor: the one installed, or
      whatever an earlier message left in the control buffer. */
  function NumberRead(control: int, installed: Option<int>): int {
    if installed.Some? then installed.value else control
  }

  /** The codec round trip, for every descriptor value but the smallest int. The status byte is
      zero exactly when a descriptor is attached. An attached descriptor that arrives is recovered
      exactly when its number here is positive: descriptor 0 is taken for a failure. One whose
      control data is lost yields the stale number in the control buffer if that is positive. A
      negative value yields no socket and its own negation modulo 256, with 0 replaced by 1. */
  lemma CodecRoundTrip(buf: seq<byte>, control: int, fd: int, installed: Option<int>, rest: seq<Chunk>)
    requires |buf| == MAXLINE + 1 && INT_MIN < fd <= INT_MAX
    requires AllFit(rest)
    ensures Encode(fd).attached.Some? <==> Encode(fd).data[1] == 0
    ensures
      var r := Receive(buf, control, 0, [Received(Delivered(fd, installed))] + rest);
      var number := NumberRead(control, installed);
      && r.calls == 1 && r.errors == 0
      && (fd >= 0 && number > 0 ==> r.outcome == Descriptor(number))
      && (fd >= 0 && number <= 0 ==> r.outcome == NoSocket(0))
      && (fd < 0 ==> r.outcome.NoSocket? && 1 <= r.outcome.status <= 255
                     && r.outcome.status == if (-fd) % 256 == 0 then 1 else (-fd) % 256)
  {
    var m := Delivered(fd, installed);
    var status := m.data[1];
    assert m.data == [] + [0, status];
    ReceiveConsumesOneMessage(buf, control, 0, [], m, [], status, rest);
    assert [Received(m)] + rest == [] + [Received(m)] + rest;
  }

  /** The descriptor installed for a message is recovered if and only if its number is positive. */
  lemma RecoveredIffPositive(buf: seq<byte>, control: int, fd: int, installed: int, rest: seq<Chunk>)
    requires |buf| == MAXLINE + 1 && 0 <= fd <= INT_MAX && AllFit(rest)
    ensures Receive(buf, control, 0, [Received(Delivered(fd, Some(installed)))] + rest).outcome == Descriptor(installed)
       <==> installed > 0
  {
    CodecRoundTrip(buf, control, fd, Some(installed), rest);
  }
}
