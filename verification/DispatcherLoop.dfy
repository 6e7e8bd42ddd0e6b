/** The dispatcher's main loop (mydisp.cpp) as a machine: poll rounds, descriptor reception,
    client visits and the final exit, under every answer the kernel may give. */
module DispatcherLoop {
  import opened Sockets
  import opened SocketLists
  import opened Polling
  import opened DescriptorPassing
  import opened Configuration
  import opened ClientSession
  import opened Ownership
  import opened Channel
  import opened Rounds

  const CAPACITY: nat := 10
  const PEEK_BUFFER: nat := 200

  /** The object of the UNIX socket, the first one main() makes. */
  const UNIX_REF: Ref := 0

  /** Between rounds, serving the polled sockets, loop left, or process ended. */
  datatype Phase = Between | Serving | Broken | Gone

  /** `list` and `out` are socketsList and reSocketsList, `cursor` the place in `out`, `control` the
      number in createSocket's control buffer. The rest are histories: this round's poll answers,
      the session of every client ever listed, the clients received in order, the instances
      refused as busy or removed, and how often a socket was made over a stale number. */
  datatype Dispatcher = Dispatcher(
    proc: Process, list: seq<Ref>, out: seq<Ref>, cursor: nat, phase: Phase, settings: Settings, control: int,
    answers: map<Ref, Events>, traces: map<Ref, Trace>,
    received: seq<nat>, refused: set<Instance>, removed: set<Instance>, stale: nat)

  ghost predicate Init(d: Dispatcher) {
    exists fd: int, control: int :: fd != FREE_SOCKET && d == Started(fd, control)
  }

  /** The state before the first round: the UNIX socket is connected and listed, and the control
      buffer holds whatever its memory held. */
  function Started(fd: int, control: int): Dispatcher {
    var sock := Sock(fd, 0, UNIX, false, false, NO_EVENTS, NO_EVENTS, ClientStatus.NONE);
    var proc := Process(map[UNIX_REF := sock], 1, map[fd := 0], 1, [], [], {});
    Dispatcher(
      proc, Put([], CAPACITY, UNIX_REF), [], 0, Between, Settings([], [], []), control,
      map[], map[], [], {}, {}, 0)
  }

  // ----- a round's beginning

  /** pollForRead on the UNIX socket and on every listed socket of another kind. */
  function Interested(objs: map<Ref, Sock>, list: seq<Ref>): (r: map<Ref, Sock>)
    ensures r.Keys == objs.Keys
  {
    map r | r in objs ::
      if r == UNIX_REF || (r in list &&
        objs[r].kind != UNIX) then objs[r].(events := objs[r].events + {POLLIN}) else objs[r]
  }

  /** The previous round's output list is cleared, which ends the objects only it still held. */
  function Cleared(d: Dispatcher): Process
    requires forall r :: r in d.out ==> r in d.proc.objs
  {
    Release(d.proc, d.out, Elements(d.list) + {UNIX_REF})
  }

  function BeginRound(d: Dispatcher, poll: Poll): Dispatcher
    requires forall r :: r in d.out ==> r in d.proc.objs
    requires |poll.answers| == |d.list|
  {
    PollRound(d, Cleared(d), poll)
  }

  /** The round after the clearing, which left the process `p`. */
  function PollRound(d: Dispatcher, p: Process, poll: Poll): Dispatcher
    requires |poll.answers| == |d.list|
  {
    var e := Polling.Outcome(poll.ret, poll.interrupted);
    var bits := Bits(d.list, poll.answers, e);
    d.(proc := p.(objs := Polled(Interested(p.objs, d.list), bits)),
       phase := match e case NONE => Serving case ERROR => Broken case _ => Between,
       cursor := 0,
       out := if e.NONE? then PutAll([], CAPACITY, Selected(d.list, poll.answers)) else [],
       answers := bits)
  }

  // ----- UNIX socket activity (dispatcherProcess)

  /** The kernel's part: `size` is what a peek at an empty channel returns (0 at hang-up, negative on
      failure), `memory` the stack bytes behind the peeked ones, `attached` the number a passed
      descriptor gets here, if its control data arrives, `configSize` the config read's result and
      `contextError` whether the
      SSL context creation fails. */
  datatype UnixInput = UnixInput(size: int, memory: Text, attached: Option<int>, configSize: int, contextError: bool)

  /** A descriptor is installed under a number that is not open. */
  predicate Installable(p: Process, attached: Option<int>) {
    attached.Some? ==> 0 <= attached.value && attached.value !in p.open
  }

  predicate UnixInputOk(d: Dispatcher, chan: seq<Unit>, u: UnixInput) {
    && |u.memory| == PEEK_BUFFER
    && (chan == [] ==> u.size <= 0)
    && (chan != [] ==> UnitOk(chan[0]))
    && Installable(d.proc, u.attached)
  }

  function PeekSize(chan: seq<Unit>, u: UnixInput): int {
    if chan == [] then u.size
    else if |Wire(chan[0])| <= PEEK_BUFFER then |Wire(chan[0])|
    else PEEK_BUFFER
  }

  function PeekMemory(chan: seq<Unit>, u: UnixInput): (m: Text)
    requires |u.memory| == PEEK_BUFFER
    ensures |m| == PEEK_BUFFER
  {
    if chan == [] then u.memory else Overlay(u.memory, Wire(chan[0])[..PeekSize(chan, u)])
  }

  datatype Heard = Hangup | Passing | Configuring | Leaving | Other

  function Classify(size: int, message: Text): Heard
    requires |message| == PEEK_BUFFER
  {
    if size == 0 then Hangup
    else if size == 2 then Passing
    else if message[..|LABEL|] == LABEL then Configuring
    else if message[..|EXIT|] == EXIT then Leaving
    else Other
  }

  /** The peek recognises each unit for what it is, whatever stale memory lies behind it. */
  lemma ClassifiesUnits(chan: seq<Unit>, u: UnixInput)
    requires |u.memory| == PEEK_BUFFER && chan != []
    ensures Classify(PeekSize(chan, u), PeekMemory(chan, u)) ==
      match chan[0]
      case ConfigUnit(_) => Configuring
      case DescriptorUnit(_, _) => Passing
      case ExitUnit => Leaving
  {
    var n, w, m := PeekSize(chan, u), Wire(chan[0]), PeekMemory(chan, u);
    assert m[..n] == w[..n];
    if chan[0].ConfigUnit? {
      assert w[..|LABEL|] == LABEL;
      assert m[..|LABEL|] == m[..n][..|LABEL|] == w[..n][..|LABEL|] == w[..|LABEL|];
    } else if chan[0].ExitUnit? {
      assert m[..|EXIT|] == EXIT;
      assert m[0] == 69;
    }
  }

  /** A printed configuration without its label is nothing the dispatcher knows: it would stay
      unread at the head of the channel, which is why label and body must arrive together. */
  lemma BodyAloneIsUnknown(memory: Text, pid: nat, names: Settings, size: nat)
    requires |memory| == PEEK_BUFFER && 2 < size <= PEEK_BUFFER && size <= |PrintConfig(pid, names)|
    ensures Classify(size, Overlay(memory, PrintConfig(pid, names)[..size])) == Other
  {
    var body := PrintConfig(pid, names);
    assert body[0] == PPID[0] == 80;
    assert Overlay(memory, body[..size])[0] == 80;
    assert LABEL[0] == 67 && EXIT[0] == 69;
  }

  datatype Served = Served(d: Dispatcher, chan: seq<Unit>)

  function Break(d: Dispatcher): Dispatcher {
    d.(phase := Broken)
  }

  function ServeUnix(d: Dispatcher, chan: seq<Unit>, u: UnixInput): Served
    requires UNIX_REF in d.proc.objs && UnixInputOk(d, chan, u)
  {
    if IsDropped(d.proc.objs[UNIX_REF].revents) then Served(Break(d), chan)
    else
      match Classify(PeekSize(chan, u), PeekMemory(chan, u))
      case Hangup => Served(Break(d), chan)
      case Passing => Served(ReceiveClient(d, chan[0], u.attached), chan[1..])
      case Configuring =>
        if u.configSize < 0 then Served(Break(d), chan)
        else
          var text := if chan == [] then [] else Wire(chan[0]);
          var d' := d.(settings := Parse(d.settings, Lines(text)));
          Served(if u.contextError then Break(d') else d', if chan == [] then [] else chan[1..])
      case Leaving => Served(Break(d), chan)
      case Other => Served(d, chan)
  }

  /** createSocket on the message of a unit: it yields a socket over the number read from the
      control buffer if that is positive, whether it was installed for this message or is stale. */
  lemma ReceptionIsDecoding(buf: seq<byte>, control: int, u: Unit, attached: Option<int>)
    requires |buf| == MAXLINE + 1 && u.DescriptorUnit? && UnitOk(u)
    ensures
      var r := Receive(buf, control, 0, [Received(Delivered(u.fd, attached))]);
      var number := NumberRead(control, attached);
      && Delivered(u.fd, attached).data == Wire(u)
      && r.calls == 1 && r.errors == 0
      && (u.fd >= 0 && number > 0 ==> r.outcome == Descriptor(number))
      && (u.fd < 0 || number <= 0 ==> r.outcome.NoSocket?)
  {
    CodecRoundTrip(buf, control, u.fd, attached, []);
    assert [Received(Delivered(u.fd, attached))] + [] == [Received(Delivered(u.fd, attached))];
  }

  /** createSocket makes a TCP object over the number, the SSL object takes it over, and is set to greet. */
  function Greeted(p: Process, number: int): Process {
    var tcp := p.next;
    var ssl := tcp + 1;
    var q := HandOver(Construct(p, number, TCP, false), tcp);
    q.(objs := q.objs[ssl := q.objs[ssl].(events := q.objs[ssl].events + {POLLOUT}, status := HELLO)])
  }

  /** The object the hand-over leaves. */
  function SslRef(p: Process): Ref {
    p.next + 1
  }

  function Installed(p: Process, attached: Option<int>): Process {
    if attached.Some? then Obtain(p, attached.value) else p
  }

  /** A number that is not positive is taken for a failure; a descriptor installed under it is
      lost. A client refused as busy dies at the end of the handler. */
  function ReceiveClient(d: Dispatcher, u: Unit, attached: Option<int>): Dispatcher
    requires u.DescriptorUnit?
  {
    if u.fd < 0 then Break(d)
    else
      var number, p := NumberRead(d.control, attached), Installed(d.proc, attached);
      var d' := d.(received := d.received + [u.client], control := number);
      if number <= 0 then Break(d'.(proc := if attached.Some? then Lose(p, number) else p))
      else Welcome(d'.(proc := p, stale := if attached.None? then d.stale + 1 else d.stale), number, attached.Some?)
  }

  /** The socket over the number is listed, or refused as busy. */
  function Welcome(d: Dispatcher, number: int, installed: bool): Dispatcher {
    var ssl := SslRef(d.proc);
    if |d.list| == CAPACITY then
      d.(proc := Destroy(Greeted(d.proc, number), ssl),
         refused := if installed then d.refused + {InstanceAt(d.proc, number)} else d.refused)
    else
      d.(proc := Greeted(d.proc, number), list := Put(d.list, CAPACITY, ssl), traces := d.traces[ssl := FRESH_TRACE])
  }

  // ----- client activity

  function ServeClient(d: Dispatcher, r: Ref, v: Visit): Dispatcher
    requires r in d.proc.objs && r in d.traces && VisitOk(v)
    requires forall q :: q in d.list ==> q in d.proc.objs
  {
    var s := d.proc.objs[r];
    var res := VisitClient(s.revents, s.status, v);
    var fds := Fds(d.proc.objs, d.list);
    var deletes := Deletes(fds, CAPACITY, s.fd);
    var d' := Noted(d, r, res, !deletes);
    if !res.keep && deletes then Unlist(d', IndexOf(fds, s.fd)) else d'
  }

  /** The visit's effect on the client itself. */
  function Noted(d: Dispatcher, r: Ref, res: Visited, refused: bool): Dispatcher
    requires r in d.proc.objs && r in d.traces
  {
    d.(proc := d.proc.(objs := d.proc.objs[r := d.proc.objs[r].(revents := res.revents, status := res.status)]),
       traces := d.traces[r := History(d.traces[r], res, refused)])
  }

  /** The socket at a place of the list is erased; it dies unless something else refers to it. */
  function Unlist(d: Dispatcher, k: nat): Dispatcher
    requires k < |d.list| && d.list[k] in d.proc.objs
  {
    var list := Without(d.list, k);
    d.(list := list,
       proc := Release(d.proc, [d.list[k]], Elements(list) + Elements(d.out) + {UNIX_REF}),
       removed := d.removed + {d.proc.objs[d.list[k]].inst})
  }

  // ----- the machine

  datatype Input = Round(poll: Poll) | Handle(unix: UnixInput, visit: Visit) | Finish | Leave

  /** The next socket in the output list is served. */
  function Serve(d: Dispatcher, chan: seq<Unit>, u: UnixInput, v: Visit): Served
    requires d.cursor < |d.out| && ServeOk(d, chan, u, v)
  {
    var r := d.out[d.cursor];
    var next := d.(cursor := d.cursor + 1);
    match d.proc.objs[r].kind
    case UNIX => ServeUnix(next, chan, u)
    case UNKNOWN => Served(next, chan)
    case _ => Served(ServeClient(next, r, v), chan)
  }

  predicate ServeOk(d: Dispatcher, chan: seq<Unit>, u: UnixInput, v: Visit)
    requires d.cursor < |d.out|
  {
    && d.out[d.cursor] in d.proc.objs && UNIX_REF in d.proc.objs
    && (d.proc.objs[d.out[d.cursor]].kind != UNIX ==> d.out[d.cursor] in d.traces)
    && (forall q :: q in d.list ==> q in d.proc.objs)
    && UnixInputOk(d, chan, u) && VisitOk(v)
  }

  /** The end of main(): both lists and then the UNIX socket are released. */
  function Exit(d: Dispatcher): Dispatcher
    requires UNIX_REF in d.proc.objs && forall q :: q in d.list || q in d.out ==> q in d.proc.objs
    requires UNIX_REF in Release(d.proc, d.out, Elements(d.list) + {UNIX_REF}).objs
    requires forall q :: q in d.list ==> q in Release(d.proc, d.out, Elements(d.list) + {UNIX_REF}).objs
    requires UNIX_REF in Release(Release(d.proc, d.out, Elements(d.list) + {UNIX_REF}), d.list, {UNIX_REF}).objs
  {
    d.(proc := Destroy(Release(Cleared(d), d.list, {UNIX_REF}), UNIX_REF),
       list := [], out := [], cursor := 0, phase := Gone)
  }

  /** Which inputs a state and channel admit. */
  ghost predicate StepOk(d: Dispatcher, chan: seq<Unit>, i: Input) {
    match i
    case Round(poll) =>
      && d.phase == Between && (forall r :: r in d.out ==> r in d.proc.objs)
      && PollOk(d.list, Interested(Cleared(d).objs, d.list), poll.answers)
    case Handle(u, v) => d.phase == Serving && d.cursor < |d.out| && ServeOk(d, chan, u, v)
    case Finish => d.phase == Serving && d.cursor == |d.out|
    case Leave => d.phase == Broken && Exit.requires(d)
  }

  ghost function Step(d: Dispatcher, chan: seq<Unit>, i: Input): Served
    requires StepOk(d, chan, i)
  {
    match i
    case Round(poll) => Served(BeginRound(d, poll), chan)
    case Handle(u, v) => Serve(d, chan, u, v)
    case Finish => Served(d.(phase := Between), chan)
    case Leave => Served(Exit(d), chan)
  }
}
