/** processClient (mydisp.cpp): one visit of the dispatcher to a client socket. */
module ClientSession {
  import opened Sockets
  import opened DescriptorPassing
  import opened Configuration

  const READ_BUFFER: nat := 100

  datatype Reply = Hello | Echo | Bye

  /** What the kernel does for one visit: the count and memory of the read (the memory behind the
      count is arbitrary), the result of the zero-read probe and the result of the reply write. */
  datatype Visit = Visit(count: int, buffer: seq<byte>, probe: int, written: int)

  predicate VisitOk(v: Visit) {
    |v.buffer| == READ_BUFFER && v.count <= READ_BUFFER
  }

  /** The socket's fields after a visit, whether the client is kept, the reply attempted, and
      whether a non-empty read was made. */
  datatype Visited = Visited(revents: Events, status: ClientStatus, keep: bool, reply: Option<Reply>, read: bool)

  /** The writing half of the visit. */
  function Answer(revents: Events, status: ClientStatus, written: int, read: bool): (r: Visited) {
    if !IsWriteAvailable(revents) then Visited(revents, status, true, None, read)
    else match status
      case HELLO => Visited(revents, ECHO, written != -1, Some(Hello), read)
      case ECHO => Visited(revents, ECHO, written != -1, Some(Echo), read)
      case BYE => Visited(revents, BYE, false, Some(Bye), read)
      case NONE => Visited(revents, NONE, true, None, read)
  }

  function VisitClient(revents: Events, status: ClientStatus, v: Visit): (r: Visited)
    requires VisitOk(v)
  {
    if IsDropped(revents) then Visited(revents, status, false, None, false)
    else if !IsReadAvailable(revents) then Answer(revents, status, v.written, false)
    else if v.count == 0 then
      if v.probe < 0 then Visited(revents, status, false, None, false)
      else Answer(revents, status, v.written, false)
    else if v.count > 0 then
      Answer({POLLOUT}, if v.buffer[..|EXIT|] == EXIT then BYE else status, v.written, true)
    else
      Visited(revents, status, false, None, false)
  }

  method ProcessClient(client: Socket, v: Visit) returns (keep: bool, reply: Option<Reply>, read: bool)
    requires VisitOk(v)
    modifies client`revents, client`clientStatus
    ensures Visited(client.revents, client.clientStatus, keep, reply, read)
         == VisitClient(old(client.revents), old(client.clientStatus), v)
    // A drop flag, a failed read or a failed probe ends the visit; a non-empty read makes the socket writable.
    ensures
      var flags := old(client.revents);
      var dropped := POLLERR in flags || POLLHUP in flags || POLLNVAL in flags || POLLRDHUP in flags;
      var failed := POLLIN in flags && (v.count < 0 || (v.count == 0 && v.probe < 0));
      var writable := POLLOUT in flags || (POLLIN in flags && v.count > 0);
      && (read <==> !dropped && POLLIN in flags && v.count > 0)
      && client.revents == (if read then {POLLOUT} else flags)
      && (reply.Some? <==> !dropped && !failed && writable && client.clientStatus != ClientStatus.NONE)
      && (keep <==> !dropped && !failed && reply != Some(Bye) && (reply.Some? ==> v.written != -1))
    // EXIT, and nothing else that is read, turns the session to BYE; the reply follows the status.
    ensures
      var exits := read && v.buffer[..4] == [69, 88, 73, 84];
      && (client.clientStatus == BYE <==> old(client.clientStatus) == BYE || exits)
      && (client.clientStatus == HELLO <==> old(client.clientStatus) == HELLO && !exits && reply.None?)
      && (reply == Some(Bye) <==> reply.Some? && (old(client.clientStatus) == BYE || exits))
      && (reply == Some(Hello) <==> reply.Some? && old(client.clientStatus) == HELLO && !exits)
      && (reply == Some(Echo) <==> reply.Some? && old(client.clientStatus) == ECHO && !exits)
  {
    reply, read := None, false;
    if IsDropped(client.revents) {
      return false, reply, read;
    }
    if IsReadAvailable(client.revents) {
      var bytes := v.count;
      if bytes == 0 {
        bytes := v.probe;
        if bytes < 0 {
          return false, reply, read;
        }
      } else if bytes > 0 {
        read := true;
        if v.buffer[..4] == EXIT {
          client.clientStatus := BYE;
        }
        client.revents := {POLLOUT};
      } else {
        return false, reply, read;
      }
    }
    if IsWriteAvailable(client.revents) {
      var bytes := 0;
      if client.clientStatus == HELLO {
        reply, bytes := Some(Hello), v.written;
        client.clientStatus := ECHO;
      } else if client.clientStatus == ECHO {
        reply, bytes := Some(Echo), v.written;
      } else if client.clientStatus == BYE {
        reply := Some(Bye);
        return false, reply, read;
      }
      if bytes == -1 {
        return false, reply, read;
      }
    }
    return true, reply, read;
  }

  /** The law of a visit, in the flags of the poll and the counts of the kernel alone: the visit ends
      at a drop flag, a failed read or a failed probe; a non-empty read makes the socket writable; EXIT
      and nothing else that is read turns the session to BYE; the reply is the status's, the first
      one turns HELLO to ECHO; and the client is kept unless the visit ended, the reply was Bye or its write failed. */
  lemma VisitLaw(flags: Events, status: ClientStatus, v: Visit)
    requires VisitOk(v)
    ensures
      var r := VisitClient(flags, status, v);
      var dropped := POLLERR in flags || POLLHUP in flags || POLLNVAL in flags || POLLRDHUP in flags;
      var failed := POLLIN in flags && (v.count < 0 || (v.count == 0 && v.probe < 0));
      var writable := POLLOUT in flags || (POLLIN in flags && v.count > 0);
      var exits := r.read && v.buffer[..4] == [69, 88, 73, 84];
      && (r.read <==> !dropped && POLLIN in flags && v.count > 0)
      && r.revents == (if r.read then {POLLOUT} else flags)
      && (r.reply.Some? <==> !dropped && !failed && writable && r.status != ClientStatus.NONE)
      && (r.keep <==> !dropped && !failed && r.reply != Some(Bye) && (r.reply.Some? ==> v.written != -1))
      && (r.status == BYE <==> status == BYE || exits)
      && (r.status == HELLO <==> status == HELLO && !exits && r.reply.None?)
      && (r.status == ClientStatus.NONE <==> status == ClientStatus.NONE && !exits)
      && (r.reply == Some(Bye) <==> r.reply.Some? && (status == BYE || exits))
      && (r.reply == Some(Hello) <==> r.reply.Some? && status == HELLO && !exits)
      && (r.reply == Some(Echo) <==> r.reply.Some? && status == ECHO && !exits)
  {
  }

  /** A client in its session that sends "hello" is answered with an echo and kept. */
  lemma HelloIsEchoed(v: Visit)
    requires VisitOk(v) && v.count == 5 && v.buffer[..5] == [104, 101, 108, 108, 111] && v.written != -1
    ensures VisitClient({POLLIN}, ECHO, v) == Visited({POLLOUT}, ECHO, true, Some(Echo), true)
  {
    assert v.buffer[..5][0] == 104;
    VisitLaw({POLLIN}, ECHO, v);
  }

  /** The history of one client: replies attempted, non-empty reads, and removals the list refused. */
  datatype Trace = Trace(replies: seq<Reply>, readCount: nat, refusals: nat)

  const FRESH_TRACE: Trace := Trace([], 0, 0)

  function Record(t: Trace, r: Visited): (t': Trace) {
    Trace(
      if r.reply.Some? then t.replies + [r.reply.value] else t.replies,
      if r.read then t.readCount + 1 else t.readCount,
      t.refusals)
  }

  /** `s` is `a` repetitions of Hello (at most one), then Echos, then Byes from position `b` on. */
  predicate Shape(s: seq<Reply>, a: nat, b: nat) {
    && a <= b <= |s|
    && a <= 1
    && (forall i :: 0 <= i < a ==> s[i] == Hello)
    && (forall i :: a <= i < b ==> s[i] == Echo)
    && (forall i :: b <= i < |s| ==> s[i] == Bye)
    && (a == 0 ==> b == 0)
  }

  /** The replies are none, only Byes, or one Hello, then any Echos, then any Byes. */
  ghost predicate Polite(s: seq<Reply>) {
    exists a: nat, b: nat :: Shape(s, a, b)
  }

  /** What the client's status says about its replies so far. */
  ghost predicate StatusFits(status: ClientStatus, replies: seq<Reply>) {
    match status
    case HELLO => replies == []
    case ECHO => Shape(replies, 1, |replies|)
    case BYE => Polite(replies)
    case NONE => false
  }

  /** A visit keeps the agreement of status and replies, whatever the kernel does. */
  lemma VisitKeepsStatus(revents: Events, status: ClientStatus, v: Visit, t: Trace)
    requires VisitOk(v) && StatusFits(status, t.replies)
    ensures var r := VisitClient(revents, status, v); StatusFits(r.status, Record(t, r).replies)
  {
    var r := VisitClient(revents, status, v);
    if r.status == BYE {
      StatusFitsIsPolite(status, t.replies);
      var a: nat, b: nat :| Shape(t.replies, a, b);
      assert Shape(Record(t, r).replies, a, b);
    }
  }

  lemma StatusFitsIsPolite(status: ClientStatus, replies: seq<Reply>)
    requires StatusFits(status, replies)
    ensures Polite(replies)
  {
    if status == HELLO {
      assert Shape(replies, 0, 0);
    } else if status == ECHO {
      assert Shape(replies, 1, |replies|);
    }
  }

  /** The credit rule of a visit: a reply without a non-empty read needs a write result from the poll. */
  lemma VisitCredit(revents: Events, status: ClientStatus, v: Visit, t: Trace)
    requires VisitOk(v)
    ensures
      var t' := Record(t, VisitClient(revents, status, v));
      |t'.replies| - t'.readCount <= |t.replies| - t.readCount + if IsWriteAvailable(revents) then 1 else 0
  {
  }

  /** Bye, if it was said, was said last. */
  ghost predicate ByeLast(replies: seq<Reply>) {
    forall i :: 0 <= i < |replies| - 1 ==> replies[i] != Bye
  }

  /** What holds of a client's history for good, whatever the list does with the client. */
  ghost predicate Courteous(t: Trace) {
    Polite(t.replies) && |t.replies| <= t.readCount + 1
  }

  /** The history after a visit; a removal refused is counted. */
  function History(t: Trace, r: Visited, refused: bool): (t': Trace) {
    var t' := Record(t, r);
    if !r.keep && refused then t'.(refusals := t'.refusals + 1) else t'
  }

  /** One visit, `pending` being the write interest the client keeps: status and replies stay in
      agreement and the reply credit is kept. */
  lemma VisitTrace(revents: Events, status: ClientStatus, v: Visit, t: Trace, refused: bool, pending: nat)
    requires VisitOk(v) && StatusFits(status, t.replies)
    requires |t.replies| + pending + (if IsWriteAvailable(revents) then 1 else 0) <= t.readCount + 1
    ensures
      var r := VisitClient(revents, status, v);
      var t' := History(t, r, refused);
      && StatusFits(r.status, t'.replies)
      && |t'.replies| + pending <= t'.readCount + 1
      && Courteous(t')
  {
    var r := VisitClient(revents, status, v);
    VisitKeepsStatus(revents, status, v, t);
    VisitCredit(revents, status, v, t);
    StatusFitsIsPolite(r.status, Record(t, r).replies);
  }

  /** A Bye ends the session unless the removal it asks for is refused. */
  lemma VisitEndsWithBye(revents: Events, status: ClientStatus, v: Visit, t: Trace, refused: bool)
    requires VisitOk(v) && (t.refusals == 0 ==> Bye !in t.replies)
    ensures
      var r := VisitClient(revents, status, v);
      var t' := History(t, r, refused);
      t'.refusals == 0 ==> ByeLast(t'.replies) && (r.keep ==> Bye !in t'.replies)
  {
  }
}
