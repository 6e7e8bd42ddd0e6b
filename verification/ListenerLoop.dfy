/** The listener's main loop (mylsnr.cpp) as a machine: poll rounds, accepted clients fanned out to
    the dispatchers, accepted dispatchers, drops, child supervision and the farewell. */
module ListenerLoop {
  import opened Sockets
  import opened SocketLists
  import opened Polling
  import opened DescriptorPassing
  import opened Configuration
  import opened Ownership
  import opened Rounds

  const CAPACITY: nat := 100

  /** The two listening sockets main() makes and holds to the end. */
  const TCP_REF: Ref := 0
  const UNIX_REF: Ref := 1

  /** What the listener writes to a dispatcher connection. */
  datatype Message = Label | Body(text: Text) | Pass(fd: int, client: nat) | Farewell

  /** The history of a dispatcher connection: the messages written, of which the first `config`
      are configuration; the clients offered to it; the number of clients accepted when it came
      and, once it is no longer listed, when it left. */
  datatype Conn = Conn(written: seq<Message>, config: nat, offered: seq<nat>, since: nat, left: Option<nat>)

  datatype Children = Children(forked: nat, reaped: nat)

  /** Between rounds, processing the polled sockets, loop left, farewell said, or ended. */
  datatype Phase = Between | Processing | Left | Parted | Ended

  /** Besides the program's own state: the clients accepted and the number each was accepted under,
      the connections' histories and this round's poll answers. */
  datatype Listener = Listener(
    proc: Process, list: seq<Ref>, out: seq<Ref>, cursor: nat, phase: Phase,
    accepted: nat, numbers: seq<int>, conns: map<Ref, Conn>, answers: map<Ref, Events>, children: Children,
    pid: nat, names: Settings)

  /** The state before the first round; `forked` is whether the first fork succeeded. */
  function Started(tcpFd: int, unixFd: int, forked: bool, pid: nat, names: Settings): Listener {
    var tcp := Sock(tcpFd, 0, TCP, true, false, NO_EVENTS, NO_EVENTS, ClientStatus.NONE);
    var unix := Sock(unixFd, 1, UNIX, true, false, NO_EVENTS, NO_EVENTS, ClientStatus.NONE);
    var proc := Process(map[TCP_REF := tcp, UNIX_REF := unix], 2, map[tcpFd := 0, unixFd := 1], 2, [], [], {});
    Listener(proc, Put(Put([], CAPACITY, TCP_REF), CAPACITY, UNIX_REF), [], 0, Between, 0, [], map[], map[],
             Children(if forked then 1 else 0, 0), pid, names)
  }

  ghost predicate Init(l: Listener) {
    exists tcpFd, unixFd, forked, pid, names ::
      tcpFd != unixFd && tcpFd != FREE_SOCKET && unixFd != FREE_SOCKET &&
        l == Started(tcpFd, unixFd, forked, pid, names)
  }

  // ----- a round's beginning

  function Interested(objs: map<Ref, Sock>, list: seq<Ref>): (r: map<Ref, Sock>)
    ensures r.Keys == objs.Keys
  {
    map r | r in objs :: if r in list then objs[r].(events := objs[r].events + {POLLIN}) else objs[r]
  }

  const PINNED: set<Ref> := {TCP_REF, UNIX_REF}

  function Cleared(l: Listener): Process
    requires forall r :: r in l.out ==> r in l.proc.objs
  {
    Release(l.proc, l.out, Elements(l.list) + PINNED)
  }

  /** waitpid without hanging: no child at all, none ended yet, or one reaped. */
  datatype Wait = NoChild | NotYet | Reaped

  function AfterWait(c: Children, w: Wait): Children {
    if w.Reaped? then c.(reaped := c.reaped + 1) else c
  }

  /** On a timeout a reaped dispatcher is replaced, if the fork succeeds. */
  function Supervise(c: Children, w: Wait, forkOk: bool): (c': Children)
    ensures c'.reaped == c.reaped + if w.Reaped? then 1 else 0
    ensures c'.forked == c.forked + if w.Reaped? && forkOk then 1 else 0
  {
    var c' := AfterWait(c, w);
    if w.Reaped? && forkOk then c'.(forked := c'.forked + 1) else c'
  }

  /** The kernel reaps only a child that was forked and not yet reaped. */
  predicate WaitOk(c: Children, w: Wait) {
    w.Reaped? ==> c.forked > c.reaped
  }

  function BeginRound(l: Listener, poll: Poll, w: Wait, forkOk: bool): Listener
    requires forall r :: r in l.out ==> r in l.proc.objs
    requires |poll.answers| == |l.list|
  {
    PollRound(l, Cleared(l), poll, w, forkOk)
  }

  function PollRound(l: Listener, p: Process, poll: Poll, w: Wait, forkOk: bool): Listener
    requires |poll.answers| == |l.list|
  {
    var e := Polling.Outcome(poll.ret, poll.interrupted);
    var bits := Bits(l.list, poll.answers, e);
    l.(proc := p.(objs := Polled(Interested(p.objs, l.list), bits)),
       answers := bits,
       phase := match e case NONE => Processing case ERROR => Left case _ => Between,
       cursor := 0,
       out := if e.NONE? then PutAll([], CAPACITY, Selected(l.list, poll.answers)) else [],
       children := if e.TIMEOUT? then Supervise(l.children, w, forkOk) else l.children)
  }

  // ----- one polled socket (processSockets)

  predicate IsDispatcher(s: Sock) {
    s.kind == UNIX && !s.listening
  }

  /** sendSocket to one connection; `ok` is whether it succeeds. */
  function Offer(conns: map<Ref, Conn>, r: Ref, fd: int, client: nat, ok: bool): map<Ref, Conn> {
    if r !in conns then conns
    else conns[r := conns[r].(
      offered := conns[r].offered + [client],
      written := conns[r].written + if ok then [Pass(fd, client)] else [])]
  }

  /** The loop over the first `n` listed sockets that offers the client to every dispatcher connection. */
  function FanOut(conns: map<Ref, Conn>, objs: map<Ref, Sock>, list: seq<Ref>, n: nat, fd: int, client: nat,
      delivered: set<Ref>): map<Ref, Conn>
    requires n <= |list| && forall r :: r in list ==> r in objs
  {
    if n == 0 then conns
    else
      var before := FanOut(conns, objs, list, n - 1, fd, client, delivered);
      if IsDispatcher(objs[list[n - 1]]) then Offer(before, list[n - 1], fd, client,
        list[n - 1] in delivered) else before
  }

  /** accept() and the SSL handshake: nothing, a descriptor no object is made for, or a connection. */
  datatype Accept = Nothing | HandshakeFailed(fd: int) | Accepted(fd: int)

  predicate AcceptOk(p: Process, a: Accept) {
    a.Nothing? || (0 <= a.fd <= INT_MAX && a.fd !in p.open)
  }

  function AcceptClient(l: Listener, a: Accept, delivered: set<Ref>): Listener
    requires forall r :: r in l.list ==> r in l.proc.objs && r < l.proc.next
  {
    match a
    case Nothing => l
    case HandshakeFailed(fd) => l.(proc := Lose(Obtain(l.proc, fd), fd))
    case Accepted(fd) =>
      var p := Construct(Obtain(l.proc, fd), fd, SSL, false);
      l.(conns := FanOut(l.conns, p.objs, l.list, |l.list|, fd, l.accepted, delivered),
         proc := Destroy(p, l.proc.next),
         accepted := l.accepted + 1,
         numbers := l.numbers + [fd])
  }

  /** The configuration written to a new dispatcher connection; each failed write ends it. */
  function ConfigMessages(pid: nat, names: Settings, labelOk: bool, bodyOk: bool): seq<Message> {
    if !labelOk then []
    else if !bodyOk then [Label]
    else [Label, Body(PrintConfig(pid, names))]
  }

  /** The connection is put before the configuration is written; a connection the list refuses dies
      at the end of the handler. */
  function AcceptDispatcher(l: Listener, a: Accept, labelOk: bool, bodyOk: bool): Listener {
    match a
    case Nothing => l
    case HandshakeFailed(_) => l
    case Accepted(fd) =>
      var p := Construct(Obtain(l.proc, fd), fd, UNIX, false);
      var r := l.proc.next;
      var config := ConfigMessages(l.pid, l.names, labelOk, bodyOk);
      var full := |l.list| == CAPACITY;
      l.(proc := if full then Destroy(p, r) else p,
         list := Put(l.list, CAPACITY, r),
         conns := l.conns[r := Conn(config, |config|, [], l.accepted, if full then Some(l.accepted) else None)])
  }

  function DropSocket(l: Listener, r: Ref): Listener
    requires r in l.proc.objs && forall q :: q in l.list ==> q in l.proc.objs
  {
    var fds, fd := Fds(l.proc.objs, l.list), l.proc.objs[r].fd;
    if !Deletes(fds, CAPACITY, fd) then l
    else
      var q := l.list[IndexOf(fds, fd)];
      l.(list := Delete(l.list, fds, CAPACITY, fd),
         conns := if q in l.conns then l.conns[q := l.conns[q].(left := Some(l.accepted))] else l.conns)
  }

  /** What the kernel brings to one polled socket. */
  datatype Event = Event(accept: Accept, delivered: set<Ref>, labelOk: bool, bodyOk: bool)

  predicate ProcessOk(l: Listener, ev: Event) {
    && l.cursor < |l.out| && l.out[l.cursor] in l.proc.objs
    && (forall r :: r in l.list ==> r in l.proc.objs && r < l.proc.next)
    && AcceptOk(l.proc, ev.accept)
  }

  function ProcessSocket(l: Listener, ev: Event): Listener
    requires ProcessOk(l, ev)
  {
    var r := l.out[l.cursor];
    var s, next := l.proc.objs[r], l.(cursor := l.cursor + 1);
    if IsDropped(s.revents) then DropSocket(next, r)
    else if s.kind == TCP && s.listening then AcceptClient(next, ev.accept, ev.delivered)
    else if s.kind == UNIX && s.listening then AcceptDispatcher(next, ev.accept, ev.labelOk, ev.bodyOk)
    else next
  }

  // ----- the end

  /** EXIT to every dispatcher connection among the first `n` listed sockets. */
  function SayGoodbye(conns: map<Ref, Conn>, objs: map<Ref, Sock>, list: seq<Ref>, n: nat,
      delivered: set<Ref>): map<Ref, Conn>
    requires n <= |list| && forall r :: r in list ==> r in objs
  {
    if n == 0 then conns
    else
      var before, r := SayGoodbye(conns, objs, list, n - 1, delivered), list[n - 1];
      if IsDispatcher(objs[r]) && r in delivered && r in before
      then before[r := before[r].(written := before[r].written + [Farewell])]
      else before
  }

  /** Leaving the block: the lists and then the two listening sockets are released. */
  function Closing(l: Listener): Process
    requires forall r :: r in l.out ==> r in l.proc.objs
    requires forall r :: r in l.list ==> r in Cleared(l).objs
    requires TCP_REF in Release(Cleared(l), l.list, PINNED).objs && UNIX_REF in Release(Cleared(l), l.list, PINNED).objs
  {
    Destroy(Destroy(Release(Cleared(l), l.list, PINNED), UNIX_REF), TCP_REF)
  }

  // ----- the machine

  datatype Input =
    | Round(poll: Poll, wait: Wait, forkOk: bool)
    | Handle(event: Event)
    | Finish
    | Interrupt                     // SIGINT seen at the loop head
    | Goodbye(delivered: set<Ref>)
    | End(wait: Wait)

  ghost predicate StepOk(l: Listener, i: Input) {
    match i
    case Round(poll, w, _) =>
      && l.phase == Between && (forall r :: r in l.out ==> r in l.proc.objs)
      && PollOk(l.list, Interested(Cleared(l).objs, l.list), poll.answers) && WaitOk(l.children, w)
    case Handle(ev) => l.phase == Processing && ProcessOk(l, ev)
    case Finish => l.phase == Processing && l.cursor == |l.out|
    case Interrupt => l.phase == Between
    case Goodbye(_) => l.phase == Left && forall r :: r in l.list ==> r in l.proc.objs
    case End(w) => l.phase == Parted && WaitOk(l.children, w) && Closing.requires(l)
  }

  ghost function Step(l: Listener, i: Input): Listener
    requires StepOk(l, i)
  {
    match i
    case Round(poll, w, forkOk) => BeginRound(l, poll, w, forkOk)
    case Handle(ev) => ProcessSocket(l, ev)
    case Finish => l.(phase := Between)
    case Interrupt => l.(phase := Left)
    case Goodbye(delivered) =>
      l.(phase := Parted, conns := SayGoodbye(l.conns, l.proc.objs, l.list, |l.list|, delivered))
    case End(w) =>
      l.(proc := Closing(l), list := [], out := [], cursor := 0, phase := Ended, children := AfterWait(l.children, w))
  }
}
