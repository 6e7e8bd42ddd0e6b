/** The listener and its dispatchers together: every interleaving of their steps, with one FIFO
    channel per dispatcher connection. */
module Deployment {
  import opened Sockets
  import opened DescriptorPassing
  import opened Configuration
  import opened ClientSession
  import opened Ownership
  import opened Channel
  import L = ListenerLoop
  import LI = ListenerInvariants
  import LT = ListenerTheorems
  import D = DispatcherLoop
  import DI = DispatcherInvariants
  import DT = DispatcherTheorems

  /** What a reader sees of the messages written in one step: label and body arrive together. */
  function Units(ms: seq<L.Message>): (us: seq<Unit>)
    decreases |ms|
  {
    if ms == [] then []
    else match ms[0]
      case Label =>
        if |ms| > 1 && ms[1].Body? then [ConfigUnit(ms[1].text)] + Units(ms[2..])
        else [ConfigUnit([])] + Units(ms[1..])
      case Body(_) => Units(ms[1..])
      case Pass(fd, client) => [DescriptorUnit(fd, client)] + Units(ms[1..])
      case Farewell => [ExitUnit] + Units(ms[1..])
  }

  /** The dispatcher processes at the other end of the connections, and what is in flight to each. */
  datatype System = System(listener: L.Listener, dispatchers: map<Ref, D.Dispatcher>, chans: map<Ref, seq<Unit>>)

  const UNSET: Settings := Settings([], [], [])

  /** A dispatcher whose connection is being accepted: it may have polled, but nothing was written to it yet. */
  ghost predicate Newcomer(d: D.Dispatcher) {
    d.received == [] && d.settings == UNSET && DispatcherReachable(d)
  }

  ghost predicate DispatcherReachable(d: D.Dispatcher) {
    exists ds: seq<D.Dispatcher> :: DT.IsRun(ds) && ds[|ds| - 1] == d
  }

  ghost predicate ListenerReachable(l: L.Listener) {
    exists ls: seq<L.Listener> :: LT.IsRun(ls) && ls[|ls| - 1] == l
  }

  /** Names the configuration can carry: no newline or NUL, and option lines that fit the line buffer. */
  ghost predicate Printable(l: L.Listener) {
    && AllClean(l.names) && l.pid <= INT_MAX
    && |CAFILE + l.names.ca| < LINE_BUFFER && |CERTFILE + l.names.cert| < LINE_BUFFER &&
         |KEYFILE + l.names.key| < LINE_BUFFER
  }

  ghost predicate Init(s: System) {
    L.Init(s.listener) && Printable(s.listener) && s.dispatchers == map[] && s.chans == map[]
  }

  /** The messages a listener step wrote to a connection. */
  function News(l: L.Listener, l': L.Listener, r: Ref): seq<L.Message>
    requires r in l'.conns
  {
    var before := if r in l.conns then |l.conns[r].written| else 0;
    if before <= |l'.conns[r].written| then l'.conns[r].written[before..] else []
  }

  /** A listener step delivers what it wrote into the channels; `newcomer` is the process behind a
      connection accepted in it. */
  ghost predicate ListenerMoves(s: System, s': System) {
    exists i: L.Input, newcomer: Option<D.Dispatcher> ::
      && L.StepOk(s.listener, i) && (newcomer.Some? ==> Newcomer(newcomer.value))
      && s' == AfterListener(s, L.Step(s.listener, i), newcomer)
  }

  function AfterListener(s: System, l': L.Listener, newcomer: Option<D.Dispatcher>): System {
    var l := s.listener;
    System(
      l',
      s.dispatchers + map r | r in l'.conns && r !in l.conns && newcomer.Some? :: newcomer.value,
      map r | r in l'.conns :: (if r in s.chans then s.chans[r] else []) + Units(News(l, l', r)))
  }

  ghost predicate DispatcherMoves(s: System, s': System) {
    exists r: Ref, i: D.Input ::
      && r in s.dispatchers && r in s.chans && D.StepOk(s.dispatchers[r], s.chans[r], i)
      && s' == AfterDispatcher(s, r, D.Step(s.dispatchers[r], s.chans[r], i))
  }

  function AfterDispatcher(s: System, r: Ref, served: D.Served): System {
    s.(dispatchers := s.dispatchers[r := served.d], chans := s.chans[r := served.chan])
  }

  ghost predicate Next(s: System, s': System) {
    ListenerMoves(s, s') || DispatcherMoves(s, s')
  }

  ghost predicate Linked(ss: seq<System>, n: nat)
    requires 0 < n < |ss|
  {
    Next(ss[n - 1], ss[n])
  }

  ghost predicate IsRun(ss: seq<System>) {
    |ss| > 0 && Init(ss[0]) && forall n :: 0 < n < |ss| ==> Linked(ss, n)
  }

  // ----- clients on the way

  /** The clients whose descriptors were written, in order. */
  function Passed(ms: seq<L.Message>): (cs: seq<nat>)
    decreases |ms|
  {
    if ms == [] then []
    else (if ms[0].Pass? then [ms[0].client] else []) + Passed(ms[1..])
  }

  /** The clients whose descriptors are in flight, in order. */
  function InFlight(us: seq<Unit>): (cs: seq<nat>)
    decreases |us|
  {
    if us == [] then []
    else (if us[0].DescriptorUnit? then [us[0].client] else []) + InFlight(us[1..])
  }

  lemma {:induction false} PassedSplits(a: seq<L.Message>, b: seq<L.Message>)
    ensures Passed(a + b) == Passed(a) + Passed(b)
    decreases |a|
  {
    if a == [] {
      assert a + b == b;
    } else {
      assert (a + b)[0] == a[0] && (a + b)[1..] == a[1..] + b;
      PassedSplits(a[1..], b);
      var head := if a[0].Pass? then [a[0].client] else [];
      assert head + (Passed(a[1..]) + Passed(b)) == head + Passed(a[1..]) + Passed(b);
    }
  }

  lemma {:induction false} InFlightSplits(a: seq<Unit>, b: seq<Unit>)
    ensures InFlight(a + b) == InFlight(a) + InFlight(b)
    decreases |a|
  {
    if a == [] {
      assert a + b == b;
    } else {
      assert (a + b)[0] == a[0] && (a + b)[1..] == a[1..] + b;
      InFlightSplits(a[1..], b);
      var head := if a[0].DescriptorUnit? then [a[0].client] else [];
      assert head + (InFlight(a[1..]) + InFlight(b)) == head + InFlight(a[1..]) + InFlight(b);
    }
  }

  lemma InFlightCons(u: Unit, us: seq<Unit>)
    ensures InFlight([u] + us) == (if u.DescriptorUnit? then [u.client] else []) + InFlight(us)
  {
    assert ([u] + us)[1..] == us;
  }

  /** Grouping label and body loses no descriptor. */
  lemma {:induction false} UnitsKeepClients(ms: seq<L.Message>)
    ensures InFlight(Units(ms)) == Passed(ms)
    decreases |ms|
  {
    if ms == [] {
    } else {
      hide InFlight;
      if ms[0].Label? && |ms| > 1 && ms[1].Body? {
        UnitsKeepClients(ms[2..]);
        assert ms[1..][1..] == ms[2..];
        InFlightCons(ConfigUnit(ms[1].text), Units(ms[2..]));
      } else {
        UnitsKeepClients(ms[1..]);
        match ms[0]
        case Label => InFlightCons(ConfigUnit([]), Units(ms[1..]));
        case Body(_) =>
        case Pass(fd, client) => InFlightCons(DescriptorUnit(fd, client), Units(ms[1..]));
        case Farewell => InFlightCons(ExitUnit, Units(ms[1..]));
      }
    }
  }

  // ----- what a listener step writes

  /** Nothing, one descriptor, or the farewell. */
  ghost predicate SmallNews(ms: seq<L.Message>) {
    || ms == []
    || (|ms| == 1 && ms[0].Pass? && 0 <= ms[0].fd <= INT_MAX)
    || ms == [L.Farewell]
  }

  ghost predicate Grows(c: L.Conn, c': L.Conn) {
    c'.config == c.config && |c.written| <= |c'.written| && c'.written[..|c.written|] == c.written &&
      SmallNews(c'.written[|c.written|..])
  }

  /** A new connection is given nothing, the label, or the label and the printed configuration. */
  ghost predicate NewConn(l: L.Listener, c: L.Conn) {
    c.config == |c.written| &&
      (c.written == [] || c.written == [L.Label] || c.written == [L.Label, L.Body(PrintConfig(l.pid, l.names))])
  }

  ghost predicate Writes(l: L.Listener, l': L.Listener) {
    && l'.pid == l.pid && l'.names == l.names
    && (forall r :: r in l.conns ==> r in l'.conns && Grows(l.conns[r], l'.conns[r]))
    && (forall r :: r in l'.conns && r !in l.conns ==> NewConn(l, l'.conns[r]))
  }

  lemma GrowsBy(c: L.Conn, c': L.Conn, ms: seq<L.Message>)
    requires c'.config == c.config && c'.written == c.written + ms && SmallNews(ms)
    ensures Grows(c, c')
  {
    assert c'.written[|c.written|..] == ms;
  }

  lemma NothingWritten(l: L.Listener, l': L.Listener)
    requires l'.pid == l.pid && l'.names == l.names && l'.conns.Keys == l.conns.Keys
    requires forall r :: r in l.conns ==>
        l'.conns[r].written == l.conns[r].written && l'.conns[r].config == l.conns[r].config
    ensures Writes(l, l')
  {
    forall r | r in l.conns ensures Grows(l.conns[r], l'.conns[r]) {
      GrowsBy(l.conns[r], l'.conns[r], []);
    }
  }

  lemma AcceptWrites(l: L.Listener, fd: int, delivered: set<Ref>, l': L.Listener)
    requires LI.AcceptEffect(l, fd, delivered, l') && 0 <= fd <= INT_MAX
    ensures Writes(l, l')
  {
    forall r | r in l.conns ensures Grows(l.conns[r], l'.conns[r]) {
      GrowsBy(l.conns[r], l'.conns[r], if r in l.list && r in delivered then [L.Pass(fd, l.accepted)] else []);
    }
  }

  lemma JoinWrites(l: L.Listener, fd: int, labelOk: bool, bodyOk: bool, l': L.Listener)
    requires LI.JoinEffect(l, fd, L.ConfigMessages(l.pid, l.names, labelOk, bodyOk), l') && l.proc.next !in l.conns
    ensures Writes(l, l')
  {
    forall r | r in l.conns ensures Grows(l.conns[r], l'.conns[r]) {
      GrowsBy(l.conns[r], l'.conns[r], []);
    }
  }

  lemma AcceptClientWrites(l: L.Listener, a: L.Accept, delivered: set<Ref>)
    requires LT.Inv(l) && l.phase == L.Processing && L.AcceptOk(l.proc, a)
    requires forall r :: r in l.list ==> r in l.proc.objs && r < l.proc.next
    ensures Writes(l, L.AcceptClient(l, a, delivered))
  {
    LT.FreshNames(l);
    if a.Accepted? {
      LI.AcceptClientEffect(l, a.fd, delivered);
      AcceptWrites(l, a.fd, delivered, L.AcceptClient(l, a, delivered));
    } else {
      NothingWritten(l, L.AcceptClient(l, a, delivered));
    }
  }

  lemma AcceptDispatcherWrites(l: L.Listener, a: L.Accept, labelOk: bool, bodyOk: bool)
    requires LT.Inv(l) && l.phase == L.Processing && L.AcceptOk(l.proc, a)
    ensures Writes(l, L.AcceptDispatcher(l, a, labelOk, bodyOk))
  {
    LT.FreshNames(l);
    if a.Accepted? {
      LI.AcceptDispatcherEffect(l, a.fd, labelOk, bodyOk);
      JoinWrites(l, a.fd, labelOk, bodyOk, L.AcceptDispatcher(l, a, labelOk, bodyOk));
    } else {
      NothingWritten(l, L.AcceptDispatcher(l, a, labelOk, bodyOk));
    }
  }

  lemma WritesFrame(n: L.Listener, l: L.Listener, l': L.Listener)
    requires Writes(n, l') && l.pid == n.pid && l.names == n.names && l.conns == n.conns
    ensures Writes(l, l')
  {
  }

  lemma DropWrites(l: L.Listener, r: Ref)
    requires r in l.proc.objs && forall q :: q in l.list ==> q in l.proc.objs
    ensures Writes(l, L.DropSocket(l, r))
  {
    NothingWritten(l, L.DropSocket(l, r));
  }

  lemma ProcessClientWrites(l: L.Listener, ev: L.Event)
    requires LT.Inv(l) && l.phase == L.Processing && L.ProcessOk(l, ev)
    ensures Writes(l, L.AcceptClient(LT.Advance(l), ev.accept, ev.delivered))
  {
    LT.AdvanceInv(l);
    AcceptClientWrites(LT.Advance(l), ev.accept, ev.delivered);
    WritesFrame(LT.Advance(l), l, L.AcceptClient(LT.Advance(l), ev.accept, ev.delivered));
  }

  lemma ProcessDispatcherWrites(l: L.Listener, ev: L.Event)
    requires LT.Inv(l) && l.phase == L.Processing && L.ProcessOk(l, ev)
    ensures Writes(l, L.AcceptDispatcher(LT.Advance(l), ev.accept, ev.labelOk, ev.bodyOk))
  {
    LT.AdvanceInv(l);
    AcceptDispatcherWrites(LT.Advance(l), ev.accept, ev.labelOk, ev.bodyOk);
    WritesFrame(LT.Advance(l), l, L.AcceptDispatcher(LT.Advance(l), ev.accept, ev.labelOk, ev.bodyOk));
  }

  ghost predicate IsAcceptingClient(s: Sock) {
    !IsDropped(s.revents) && s.kind == TCP && s.listening
  }

  ghost predicate IsAcceptingDispatcher(s: Sock) {
    !IsDropped(s.revents) && s.kind == UNIX && s.listening
  }

  lemma ProcessOtherWrites(l: L.Listener, ev: L.Event)
    requires L.ProcessOk(l, ev) && !IsAcceptingClient(l.proc.objs[l.out[l.cursor]])
    requires !IsAcceptingDispatcher(l.proc.objs[l.out[l.cursor]])
    ensures Writes(l, L.ProcessSocket(l, ev))
  {
    var n, r := LT.Advance(l), l.out[l.cursor];
    if IsDropped(l.proc.objs[r].revents) {
      DropWrites(n, r);
      WritesFrame(n, l, L.DropSocket(n, r));
    } else {
      NothingWritten(l, n);
    }
  }

  lemma ProcessWrites(l: L.Listener, ev: L.Event)
    requires LT.Inv(l) && l.phase == L.Processing && L.ProcessOk(l, ev)
    ensures Writes(l, L.ProcessSocket(l, ev))
  {
    var s := l.proc.objs[l.out[l.cursor]];
    if IsAcceptingClient(s) {
      ProcessClientWrites(l, ev);
    } else if IsAcceptingDispatcher(s) {
      ProcessDispatcherWrites(l, ev);
    } else {
      ProcessOtherWrites(l, ev);
    }
  }

  lemma GoodbyeWrites(l: L.Listener, delivered: set<Ref>)
    requires LT.Inv(l) && L.StepOk(l, L.Goodbye(delivered))
    ensures Writes(l, L.Step(l, L.Goodbye(delivered)))
  {
    var l' := L.Step(l, L.Goodbye(delivered));
    LI.SayGoodbyeEffect(l.conns, l.proc.objs, l.list, |l.list|, delivered);
    forall q | q in l.conns ensures q in l'.conns && Grows(l.conns[q], l'.conns[q]) {
      GrowsBy(l.conns[q], l'.conns[q],
        if LI.Addressed(l.proc.objs, l.list, |l.list|, q) && q in delivered then [L.Farewell] else []);
    }
  }

  lemma ListenerWrites(l: L.Listener, i: L.Input)
    requires LT.Inv(l) && L.StepOk(l, i)
    ensures Writes(l, L.Step(l, i))
  {
    if i.Handle? {
      ProcessWrites(l, i.event);
    } else if i.Goodbye? {
      GoodbyeWrites(l, i.delivered);
    } else {
      forall q | q in l.conns ensures Grows(l.conns[q], l.conns[q]) {
        GrowsBy(l.conns[q], l.conns[q], []);
      }
    }
  }

  // ----- what a dispatcher step reads

  /** A step leaves the channel alone, or takes its first unit: a descriptor joins the received
      ones, a configuration is parsed into the settings. */
  ghost predicate Reads(d: D.Dispatcher, chan: seq<Unit>, d': D.Dispatcher, chan': seq<Unit>) {
    || (chan' == chan && d'.received == d.received && d'.settings == d.settings)
    || (&& chan != [] && chan' == chan[1..]
        && match chan[0]
           case DescriptorUnit(fd, client) =>
             d'.settings == d.settings && d'.received == if fd >= 0 then d.received + [client] else d.received
           case ConfigUnit(body) => d'.received == d.received && d'.settings == Parse(d.settings, Lines(LABEL + body))
           case ExitUnit => false)
  }

  lemma UnixReads(d: D.Dispatcher, chan: seq<Unit>, u: D.UnixInput)
    requires D.UNIX_REF in d.proc.objs && D.UnixInputOk(d, chan, u)
    ensures Reads(d, chan, D.ServeUnix(d, chan, u).d, D.ServeUnix(d, chan, u).chan)
  {
    if chan != [] {
      D.ClassifiesUnits(chan, u);
    }
  }

  lemma DispatcherReads(d: D.Dispatcher, chan: seq<Unit>, i: D.Input)
    requires D.StepOk(d, chan, i)
    ensures Reads(d, chan, D.Step(d, chan, i).d, D.Step(d, chan, i).chan)
  {
    if i.Handle? && d.proc.objs[d.out[d.cursor]].kind == UNIX {
      UnixReads(DI.Advance(d), chan, i.unix);
    }
  }

  // ----- the invariant of one connection

  predicate NoConfig(us: seq<Unit>) {
    forall i :: 0 <= i < |us| ==> !us[i].ConfigUnit?
  }

  predicate ChanOk(us: seq<Unit>) {
    forall i :: 0 <= i < |us| ==> UnitOk(us[i]) && (us[i].DescriptorUnit? ==> us[i].fd >= 0)
  }

  /** Configuration is read first: either it still heads the channel and nothing is set, or it was
      read and the settings are the listener's names. A label without a body sets nothing. */
  ghost predicate ConfigOk(l: L.Listener, config: nat, settings: Settings, us: seq<Unit>) {
    if config == 2 then
      || (|us| > 0 && us[0] == ConfigUnit(PrintConfig(l.pid, l.names)) && NoConfig(us[1..]) && settings == UNSET)
      || (NoConfig(us) && settings == l.names)
    else
      settings == UNSET && forall i :: 0 <= i < |us| && us[i].ConfigUnit? ==> us[i].body == []
  }

  ghost predicate Pipe(l: L.Listener, c: L.Conn, d: D.Dispatcher, us: seq<Unit>) {
    && Passed(c.written) == d.received + InFlight(us)
    && ChanOk(us)
    && ConfigOk(l, c.config, d.settings, us)
    && (c.config == 2 && d.received != [] ==> d.settings == l.names)
  }

  lemma SmallUnits(ms: seq<L.Message>)
    requires SmallNews(ms)
    ensures ChanOk(Units(ms)) && NoConfig(Units(ms))
  {
    if ms != [] {
      assert ms[1..] == [];
    }
  }

  lemma ChanGrows(us: seq<Unit>, more: seq<Unit>)
    requires ChanOk(us) && ChanOk(more)
    ensures ChanOk(us + more)
  {
    hide UnitOk;
  }

  lemma ConfigGrows(l: L.Listener, config: nat, settings: Settings, us: seq<Unit>, more: seq<Unit>)
    requires ConfigOk(l, config, settings, us) && NoConfig(more)
    ensures ConfigOk(l, config, settings, us + more)
  {
    hide PrintConfig;
    if us != [] {
      assert (us + more)[1..] == us[1..] + more;
    }
  }

  lemma PassedGrows(written: seq<L.Message>, ms: seq<L.Message>, received: seq<nat>, us: seq<Unit>)
    requires Passed(written) == received + InFlight(us)
    ensures Passed(written + ms) == received + InFlight(us + Units(ms))
  {
    hide Passed, InFlight, Units;
    PassedSplits(written, ms);
    UnitsKeepClients(ms);
    InFlightSplits(us, Units(ms));
    assert received + (InFlight(us) + InFlight(Units(ms))) == received + InFlight(us) + InFlight(Units(ms));
  }

  lemma PipeGrows(l: L.Listener, c: L.Conn, c': L.Conn, d: D.Dispatcher, us: seq<Unit>)
    requires Pipe(l, c, d, us) && Grows(c, c')
    ensures Pipe(l, c', d, us + Units(c'.written[|c.written|..]))
  {
    hide Passed, InFlight, Units, ChanOk, NoConfig, ConfigOk;
    var ms := c'.written[|c.written|..];
    assert c'.written == c.written + ms;
    SmallUnits(ms);
    PassedGrows(c.written, ms, d.received, us);
    ChanGrows(us, Units(ms));
    ConfigGrows(l, c.config, d.settings, us, Units(ms));
  }

  lemma PipeStarts(l: L.Listener, c: L.Conn, d: D.Dispatcher)
    requires NewConn(l, c) && Printable(l) && d.received == [] && d.settings == UNSET
    ensures Pipe(l, c, d, Units(c.written))
  {
    hide Lines, LinesFit, PrintConfig, Passed;
    UnitsKeepClients(c.written);
    PrintFits(l.pid, l.names);
    LabelFits();
    if c.written == [L.Label] {
      assert c.written[1..] == [];
      assert Units(c.written) == [ConfigUnit([])];
    } else if c.written != [] {
      assert c.written[2..] == [] && c.written[1..][1..] == [];
      assert Units(c.written) == [ConfigUnit(PrintConfig(l.pid, l.names))];
    }
  }

  lemma LabelFits()
    ensures UnitOk(ConfigUnit([]))
  {
    assert LABEL + [] == LABEL;
    assert NEWLINE !in LABEL;
  }

  lemma PipeDrains(l: L.Listener, c: L.Conn, d: D.Dispatcher, us: seq<Unit>, d': D.Dispatcher, us': seq<Unit>)
    requires Pipe(l, c, d, us) && Printable(l) && Reads(d, us, d', us')
    ensures Pipe(l, c, d', us')
  {
    hide Lines, LinesFit, PrintConfig, Parse, AllClean, UnitOk;
    if us' != us {
      assert us' == us[1..];
      assert ChanOk(us');
      match us[0]
      case DescriptorUnit(fd, client) =>
        assert d.received + ([client] + InFlight(us')) == d.received + [client] + InFlight(us');
        assert !us[0].ConfigUnit?;
      case ConfigUnit(body) =>
        if c.config == 2 {
          CleanRoundTrip(d.settings, l.pid, l.names);
        } else {
          LabelSetsNothing(d.settings, body);
        }
    }
  }

  // ----- what is in flight was written, and EXIT is the last of it

  ghost predicate FarewellLast(ms: seq<L.Message>) {
    forall i :: 0 <= i < |ms| && ms[i] == L.Farewell ==> i == |ms| - 1
  }

  /** Every descriptor in flight was written under its number, and EXIT is in flight, last, exactly
      if it was written. */
  ghost predicate Tail(c: L.Conn, us: seq<Unit>) {
    && (forall u :: u in us && u.DescriptorUnit? ==> L.Pass(u.fd, u.client) in c.written)
    && (ExitUnit in us <==> L.Farewell in c.written)
    && (forall i :: 0 <= i < |us| && us[i] == ExitUnit ==> i == |us| - 1)
  }

  lemma SmallTail(ms: seq<L.Message>)
    requires SmallNews(ms)
    ensures
      var us := Units(ms);
      && (forall u :: u in us && u.DescriptorUnit? ==> L.Pass(u.fd, u.client) in ms)
      && (ExitUnit in us <==> L.Farewell in ms) && |us| <= 1
  {
    if ms != [] {
      assert ms[1..] == [];
    }
  }

  lemma TailGrows(c: L.Conn, c': L.Conn, us: seq<Unit>)
    requires Tail(c, us) && Grows(c, c') && FarewellLast(c'.written)
    ensures Tail(c', us + Units(c'.written[|c.written|..]))
  {
    hide SmallNews;
    var ms := c'.written[|c.written|..];
    assert c'.written == c.written + ms;
    SmallTail(ms);
    if ms == [] {
      assert c'.written == c.written && us + Units(ms) == us;
      return;
    }
    NoFarewellBefore(c.written, ms);
    var more := us + Units(ms);
    assert forall u :: u in more <==> u in us || u in Units(ms);
    assert forall m :: m in c'.written <==> m in c.written || m in ms;
  }

  lemma NoFarewellBefore(a: seq<L.Message>, b: seq<L.Message>)
    requires FarewellLast(a + b) && b != []
    ensures L.Farewell !in a
  {
    forall i | 0 <= i < |a|
      ensures a[i] != L.Farewell
    {
      assert (a + b)[i] == a[i];
    }
  }

  lemma TailStarts(l: L.Listener, c: L.Conn)
    requires NewConn(l, c)
    ensures Tail(c, [] + Units(c.written))
  {
    hide PrintConfig;
    if c.written == [L.Label] {
      assert c.written[1..] == [];
      assert Units(c.written) == [ConfigUnit([])];
    } else if c.written != [] {
      assert c.written[2..] == [] && c.written[1..][1..] == [];
      assert Units(c.written) == [ConfigUnit(PrintConfig(l.pid, l.names))];
    }
    assert [] + Units(c.written) == Units(c.written);
  }

  lemma TailDrains(c: L.Conn, d: D.Dispatcher, us: seq<Unit>, d': D.Dispatcher, us': seq<Unit>)
    requires Tail(c, us) && Reads(d, us, d', us')
    ensures Tail(c, us')
  {
    if us' != us {
      assert us' == us[1..] && us == [us[0]] + us' && us[0] != ExitUnit;
      assert forall i :: 0 <= i < |us'| ==> us'[i] == us[i + 1];
      assert forall u :: u in us' ==> u in us;
    }
  }

  lemma ReachableFarewell(l: L.Listener, r: Ref)
    requires ListenerReachable(l) && r in l.conns
    ensures FarewellLast(l.conns[r].written)
  {
    hide LT.Linked, L.Init;
    var ls: seq<L.Listener> :| LT.IsRun(ls) && ls[|ls| - 1] == l;
    LT.MessagesInOrder(ls, |ls| - 1, r);
  }

  /** A label that arrives without its body leaves the settings as they were. */
  lemma LabelSetsNothing(st: Settings, body: Text)
    requires body == []
    ensures Parse(st, Lines(LABEL + body)) == st
  {
    assert LABEL + body == LABEL;
    assert NEWLINE !in LABEL;
  }

  // ----- every run of the whole projects to runs of its processes

  lemma ListenerExtends(l: L.Listener, i: L.Input)
    requires ListenerReachable(l) && L.StepOk(l, i)
    ensures ListenerReachable(L.Step(l, i))
  {
    hide L.Step, L.StepOk, L.Init, LT.Linked;
    var ls: seq<L.Listener> :| LT.IsRun(ls) && ls[|ls| - 1] == l;
    LT.Extend(ls, i);
    var ls' := ls + [L.Step(l, i)];
    assert LT.IsRun(ls') && ls'[|ls'| - 1] == L.Step(l, i);
  }

  lemma DispatcherExtends(d: D.Dispatcher, chan: seq<Unit>, i: D.Input)
    requires DispatcherReachable(d) && D.StepOk(d, chan, i)
    ensures DispatcherReachable(D.Step(d, chan, i).d)
  {
    hide D.Step, D.StepOk, D.Init, DT.Linked;
    var ds: seq<D.Dispatcher> :| DT.IsRun(ds) && ds[|ds| - 1] == d;
    DT.Extend(ds, chan, i);
    var ds' := ds + [D.Step(d, chan, i).d];
    assert DT.IsRun(ds') && ds'[|ds'| - 1] == D.Step(d, chan, i).d;
  }

  lemma ReachableWrites(l: L.Listener, i: L.Input)
    requires ListenerReachable(l) && L.StepOk(l, i)
    ensures Writes(l, L.Step(l, i))
  {
    var ls: seq<L.Listener> :| LT.IsRun(ls) && ls[|ls| - 1] == l;
    RunWrites(ls, i);
  }

  lemma RunWrites(ls: seq<L.Listener>, i: L.Input)
    requires LT.IsRun(ls) && L.StepOk(ls[|ls| - 1], i)
    ensures Writes(ls[|ls| - 1], L.Step(ls[|ls| - 1], i))
  {
    hide LT.Inv, Writes, LT.Next, L.Init;
    LT.RunInv(ls, |ls| - 1);
    ListenerWrites(ls[|ls| - 1], i);
  }

  /** The body, once written, is the listener's own configuration. */
  ghost predicate BodyPrinted(l: L.Listener, c: L.Conn) {
    c.config <= |c.written| && (c.config == 2 ==> c.written[1] == L.Body(PrintConfig(l.pid, l.names)))
  }

  lemma BodyStaysPrinted(l: L.Listener, c: L.Conn, c': L.Conn)
    requires BodyPrinted(l, c) && Grows(c, c')
    ensures BodyPrinted(l, c')
  {
    assert c.config == 2 ==> c'.written[..|c.written|][1] == c.written[1];
  }

  lemma NextWrites(ls: seq<L.Listener>, n: nat)
    requires LT.IsRun(ls) && 0 < n < |ls|
    ensures Writes(ls[n - 1], ls[n])
  {
    hide LT.Inv, Writes, L.Init;
    LT.RunInv(ls, n - 1);
    assert LT.Linked(ls, n);
    var i: L.Input :| L.StepOk(ls[n - 1], i) && L.Step(ls[n - 1], i) == ls[n];
    ListenerWrites(ls[n - 1], i);
  }

  /** In every listener run the names and process id never change, and a connection to which both
      config writes succeeded was written the configuration printed from them. */
  lemma {:induction false} BodyIsPrinted(ls: seq<L.Listener>, n: nat)
    requires LT.IsRun(ls) && n < |ls|
    ensures ls[n].pid == ls[0].pid && ls[n].names == ls[0].names
    ensures forall r :: r in ls[n].conns ==> BodyPrinted(ls[0], ls[n].conns[r])
  {
    hide L.StepOk, L.Step, LT.Inv;
    if n == 0 {
      assert ls[0].conns == map[];
    } else {
      BodyIsPrinted(ls, n - 1);
      NextWrites(ls, n);
      forall r | r in ls[n].conns ensures BodyPrinted(ls[0], ls[n].conns[r]) {
        if r in ls[n - 1].conns {
          BodyStaysPrinted(ls[0], ls[n - 1].conns[r], ls[n].conns[r]);
        } else {
          assert NewConn(ls[n - 1], ls[n].conns[r]);
        }
      }
    }
  }

  // ----- the invariant of the whole

  ghost predicate Piped(s: System, r: Ref)
    requires r in s.dispatchers && r in s.chans && r in s.listener.conns
  {
    && DispatcherReachable(s.dispatchers[r])
    && Pipe(s.listener, s.listener.conns[r], s.dispatchers[r], s.chans[r])
    && Tail(s.listener.conns[r], s.chans[r])
  }

  ghost predicate Inv(s: System) {
    && ListenerReachable(s.listener) && Printable(s.listener)
    && s.chans.Keys == s.listener.conns.Keys
    && (forall r :: r in s.dispatchers ==> r in s.listener.conns && Piped(s, r))
  }

  lemma PipeFrame(l: L.Listener, l': L.Listener, c: L.Conn, d: D.Dispatcher, us: seq<Unit>)
    requires Pipe(l, c, d, us) && l'.pid == l.pid && l'.names == l.names
    ensures Pipe(l', c, d, us)
  {
  }

  /** One known connection through a listener step. */
  lemma KnownPipe(s: System, l': L.Listener, r: Ref)
    requires r in s.listener.conns && r in l'.conns && r in s.chans && r in s.dispatchers
    requires l'.pid == s.listener.pid && l'.names == s.listener.names && Grows(s.listener.conns[r], l'.conns[r])
    requires Pipe(s.listener, s.listener.conns[r], s.dispatchers[r], s.chans[r])
    requires Tail(s.listener.conns[r], s.chans[r])
    requires FarewellLast(l'.conns[r].written)
    ensures Pipe(l', l'.conns[r], s.dispatchers[r], s.chans[r] + Units(News(s.listener, l', r)))
    ensures Tail(l'.conns[r], s.chans[r] + Units(News(s.listener, l', r)))
  {
    hide Pipe, Tail, SmallNews, Units;
    var l := s.listener;
    TailGrows(l.conns[r], l'.conns[r], s.chans[r]);
    assert News(l, l', r) == l'.conns[r].written[|l.conns[r].written|..];
    PipeGrows(l, l.conns[r], l'.conns[r], s.dispatchers[r], s.chans[r]);
    PipeFrame(l, l', l'.conns[r], s.dispatchers[r], s.chans[r] + Units(News(l, l', r)));
  }

  /** A connection accepted in a listener step. */
  lemma NewPipe(s: System, l': L.Listener, d: D.Dispatcher, r: Ref)
    requires r !in s.listener.conns && r in l'.conns && Printable(s.listener) && Newcomer(d)
    requires l'.pid == s.listener.pid && l'.names == s.listener.names && NewConn(s.listener, l'.conns[r])
    ensures Pipe(l', l'.conns[r], d, [] + Units(News(s.listener, l', r)))
    ensures Tail(l'.conns[r], [] + Units(News(s.listener, l', r)))
  {
    hide Pipe, Tail, Units, PrintConfig;
    var l := s.listener;
    TailStarts(l, l'.conns[r]);
    PipeStarts(l, l'.conns[r], d);
    assert News(l, l', r) == l'.conns[r].written;
    assert [] + Units(News(l, l', r)) == Units(l'.conns[r].written);
    PipeFrame(l, l', l'.conns[r], d, Units(l'.conns[r].written));
  }

  /** One connection through a listener step. */
  lemma ListenerPipe(s: System, l': L.Listener, newcomer: Option<D.Dispatcher>, r: Ref)
    requires Inv(s) && Writes(s.listener, l') && (newcomer.Some? ==> Newcomer(newcomer.value))
    requires r in AfterListener(s, l', newcomer).dispatchers && ListenerReachable(l')
    ensures r in l'.conns && Piped(AfterListener(s, l', newcomer), r)
  {
    hide Pipe, Tail, FarewellLast, ListenerReachable, NewConn, Grows, Printable, Units, News;
    assert r in l'.conns;
    ReachableFarewell(l', r);
    if r in s.listener.conns {
      assert Piped(s, r);
      KnownPipe(s, l', r);
    } else {
      NewPipe(s, l', newcomer.value, r);
    }
  }

  lemma ListenerMovesInv(s: System, s': System)
    requires Inv(s) && ListenerMoves(s, s')
    ensures Inv(s')
  {
    var i: L.Input, newcomer: Option<D.Dispatcher> :|
      && L.StepOk(s.listener, i) && (newcomer.Some? ==> Newcomer(newcomer.value))
      && s' == AfterListener(s, L.Step(s.listener, i), newcomer);
    ListenerExtends(s.listener, i);
    ReachableWrites(s.listener, i);
    AfterListenerInv(s, L.Step(s.listener, i), newcomer);
  }

  lemma AfterListenerInv(s: System, l': L.Listener, newcomer: Option<D.Dispatcher>)
    requires Inv(s) && Writes(s.listener, l') && ListenerReachable(l') && (newcomer.Some? ==> Newcomer(newcomer.value))
    ensures Inv(AfterListener(s, l', newcomer))
  {
    hide Pipe, Tail, Grows, NewConn, ListenerReachable, Newcomer;
    var s' := AfterListener(s, l', newcomer);
    forall r | r in s'.dispatchers ensures r in s'.listener.conns && Piped(s', r) {
      ListenerPipe(s, l', newcomer, r);
    }
  }

  lemma DispatcherMovesInv(s: System, s': System)
    requires Inv(s) && DispatcherMoves(s, s')
    ensures Inv(s')
  {
    var r: Ref, i: D.Input :|
      && r in s.dispatchers && r in s.chans && D.StepOk(s.dispatchers[r], s.chans[r], i)
      && s' == AfterDispatcher(s, r, D.Step(s.dispatchers[r], s.chans[r], i));
    DispatcherExtends(s.dispatchers[r], s.chans[r], i);
    DispatcherReads(s.dispatchers[r], s.chans[r], i);
    AfterDispatcherInv(s, r, D.Step(s.dispatchers[r], s.chans[r], i));
  }

  lemma AfterDispatcherInv(s: System, r: Ref, served: D.Served)
    requires Inv(s) && r in s.dispatchers && r in s.chans
    requires DispatcherReachable(served.d) && Reads(s.dispatchers[r], s.chans[r], served.d, served.chan)
    ensures Inv(AfterDispatcher(s, r, served))
  {
    hide Pipe, Reads, DispatcherReachable, Printable, ListenerReachable;
    var s' := AfterDispatcher(s, r, served);
    forall q | q in s'.dispatchers ensures q in s'.listener.conns && Piped(s', q) {
      DispatcherPipe(s, r, served, q);
    }
  }

  /** One connection through a dispatcher step. */
  lemma DispatcherPipe(s: System, r: Ref, served: D.Served, q: Ref)
    requires Inv(s) && r in s.dispatchers && r in s.chans && q in s.dispatchers
    requires DispatcherReachable(served.d) && Reads(s.dispatchers[r], s.chans[r], served.d, served.chan)
    ensures q in s.listener.conns && q in s.chans && Piped(AfterDispatcher(s, r, served), q)
  {
    hide Pipe, Tail, Reads, DispatcherReachable, ListenerReachable, Printable;
    assert Piped(s, q);
    if q == r {
      PipeDrains(s.listener, s.listener.conns[r], s.dispatchers[r], s.chans[r], served.d, served.chan);
      TailDrains(s.listener.conns[r], s.dispatchers[r], s.chans[r], served.d, served.chan);
    }
  }

  lemma {:induction false} RunInv(ss: seq<System>, n: nat)
    requires IsRun(ss) && n < |ss|
    ensures Inv(ss[n])
  {
    hide Inv, ListenerMoves, DispatcherMoves, Init;
    if n == 0 {
      InitInv(ss[0]);
    } else {
      RunInv(ss, n - 1);
      assert Linked(ss, n);
      if ListenerMoves(ss[n - 1], ss[n]) {
        ListenerMovesInv(ss[n - 1], ss[n]);
      } else {
        DispatcherMovesInv(ss[n - 1], ss[n]);
      }
    }
  }

  lemma InitInv(s: System)
    requires Init(s)
    ensures Inv(s)
  {
    assert LT.IsRun([s.listener]) && [s.listener][|[s.listener]| - 1] == s.listener;
    assert s.listener.conns == map[];
  }

  /** Every state of the whole is made of reachable states of its processes, so the theorems about
      their runs hold in every interleaving. */
  lemma ProcessesStayReachable(ss: seq<System>, n: nat)
    requires IsRun(ss) && n < |ss|
    ensures ListenerReachable(ss[n].listener)
    ensures forall r :: r in ss[n].dispatchers ==> DispatcherReachable(ss[n].dispatchers[r])
  {
    RunInv(ss, n);
    forall r | r in ss[n].dispatchers ensures DispatcherReachable(ss[n].dispatchers[r]) {
      assert Piped(ss[n], r);
    }
  }

  // ----- end to end

  ghost predicate Increasing(cs: seq<nat>) {
    forall i, j :: 0 <= i < j < |cs| ==> cs[i] < cs[j]
  }

  lemma {:induction false} PassedIncreases(ms: seq<L.Message>)
    requires forall i, j :: 0 <= i < j < |ms| && ms[i].Pass? && ms[j].Pass? ==> ms[i].client < ms[j].client
    ensures Increasing(Passed(ms))
    ensures forall c :: c in Passed(ms) ==> exists i :: 0 <= i < |ms| && ms[i].Pass? && ms[i].client == c
    decreases |ms|
  {
    if ms == [] {
    } else {
      var rest, all := ms[1..], Passed(ms);
      PassedIncreases(rest);
      forall c | c in Passed(rest)
        ensures exists i :: 0 <= i < |ms| && ms[i].Pass? && ms[i].client == c
        ensures ms[0].Pass? ==> ms[0].client < c
      {
        var i :| 0 <= i < |rest| && rest[i].Pass? && rest[i].client == c;
        assert ms[i + 1] == rest[i];
      }
      if ms[0].Pass? {
        assert all == [ms[0].client] + Passed(rest);
        forall i, j | 0 <= i < j < |all| ensures all[i] < all[j] {
          assert all[j] == Passed(rest)[j - 1] && all[j] in Passed(rest);
          assert i > 0 ==> all[i] == Passed(rest)[i - 1];
        }
      }
    }
  }

  /** In every interleaving of listener and dispatcher steps, on every connection: the descriptors
      sent are the descriptors received followed by those in flight, in order; a client is
      received at most once, in the order of acceptance; and unless a stale number was taken each
      received one is listed, was refused and closed, was listed and later removed, was lost to
      descriptor number 0, or is the last one, whose message brought no descriptor. */
  lemma DescriptorsArriveInOrder(ss: seq<System>, n: nat, r: Ref)
    requires IsRun(ss) && n < |ss| && r in ss[n].dispatchers
    ensures r in ss[n].listener.conns && r in ss[n].chans
    ensures
      var d := ss[n].dispatchers[r];
      && Passed(ss[n].listener.conns[r].written) == d.received + InFlight(ss[n].chans[r])
      && Increasing(d.received)
      && (d.phase != D.Gone && d.stale == 0 ==> forall k :: 1 <= k <= |d.received| ==> HasFate(d, k))
  {
    RunInv(ss, n);
    assert Piped(ss[n], r);
    var d, c := ss[n].dispatchers[r], ss[n].listener.conns[r];
    WrittenInOrder(ss[n].listener, r);
    assert d.received == Passed(c.written)[..|d.received|];
    if d.phase != D.Gone && d.stale == 0 {
      ReceivedFates(d);
    }
  }

  lemma WrittenInOrder(l: L.Listener, r: Ref)
    requires ListenerReachable(l) && r in l.conns
    ensures Increasing(Passed(l.conns[r].written))
  {
    var ls: seq<L.Listener> :| LT.IsRun(ls) && ls[|ls| - 1] == l;
    LT.MessagesInOrder(ls, |ls| - 1, r);
    PassedIncreases(l.conns[r].written);
  }

  /** What is in flight carries its client's own descriptor: the number the client was accepted under. */
  lemma InFlightUnderItsNumber(ss: seq<System>, n: nat, r: Ref, i: nat)
    requires IsRun(ss) && n < |ss| && r in ss[n].dispatchers && r in ss[n].chans && i < |ss[n].chans[r]|
    ensures
      var u, l := ss[n].chans[r][i], ss[n].listener;
      u.DescriptorUnit? ==> u.client < l.accepted == |l.numbers| && u.fd == l.numbers[u.client]
  {
    hide Pipe, DispatcherReachable, ListenerReachable, Printable;
    RunInv(ss, n);
    assert Piped(ss[n], r);
    var u, c := ss[n].chans[r][i], ss[n].listener.conns[r];
    if u.DescriptorUnit? {
      assert u in ss[n].chans[r];
      var m :| 0 <= m < |c.written| && c.written[m] == L.Pass(u.fd, u.client);
      ReachableNumber(ss[n].listener, r, m);
    }
  }

  lemma ReachableNumber(l: L.Listener, r: Ref, i: nat)
    requires ListenerReachable(l) && r in l.conns && i < |l.conns[r].written|
    ensures |l.numbers| == l.accepted
    ensures
      var m := l.conns[r].written[i];
      m.Pass? ==> m.client < l.accepted && m.fd == l.numbers[m.client]
  {
    hide LT.Linked, L.Init;
    var ls: seq<L.Listener> :| LT.IsRun(ls) && ls[|ls| - 1] == l;
    LT.PassedUnderItsNumber(ls, |ls| - 1, r, i);
  }

  // ----- EXIT

  /** In every interleaving EXIT is in flight to a dispatcher exactly if it was written, and it is the last unit. */
  lemma ExitIsInFlight(ss: seq<System>, n: nat, r: Ref)
    requires IsRun(ss) && n < |ss| && r in ss[n].dispatchers
    ensures r in ss[n].listener.conns && r in ss[n].chans
    ensures
      var us := ss[n].chans[r];
      && (ExitUnit in us <==> L.Farewell in ss[n].listener.conns[r].written)
      && (ExitUnit in us ==> us[|us| - 1] == ExitUnit)
  {
    hide Pipe, DispatcherReachable, ListenerReachable, Printable;
    RunInv(ss, n);
    assert Piped(ss[n], r);
  }

  /** The listener's farewell puts EXIT behind whatever is in flight to each listed dispatcher it reaches. */
  lemma FarewellArrives(ss: seq<System>, n: nat, delivered: set<Ref>, r: Ref)
    requires IsRun(ss) && n < |ss| && ss[n].listener.phase == L.Left
    requires r in ss[n].listener.list && r !in L.PINNED && r in ss[n].chans
    ensures L.StepOk(ss[n].listener, L.Goodbye(delivered))
    ensures
      var s' := AfterListener(ss[n], L.Step(ss[n].listener, L.Goodbye(delivered)), None);
      r in s'.chans && s'.chans[r] == ss[n].chans[r] + if r in delivered then [ExitUnit] else []
  {
    hide Pipe, Tail, Piped, ListenerReachable, Printable, L.SayGoodbye;
    RunInv(ss, n);
    var l := ss[n].listener;
    ReachableInv(l);
    GoodbyeWritten(l, delivered, r);
    var l' := L.Step(l, L.Goodbye(delivered));
    FarewellUnits();
    assert News(l, l', r) == if r in delivered then [L.Farewell] else [];
  }

  lemma FarewellUnits()
    ensures Units([L.Farewell]) == [ExitUnit] && Units([]) == []
  {
    assert [L.Farewell][1..] == [];
  }

  lemma ReachableInv(l: L.Listener)
    requires ListenerReachable(l)
    ensures LT.Inv(l)
  {
    hide LT.Linked, L.Init, LT.Inv;
    var ls: seq<L.Listener> :| LT.IsRun(ls) && ls[|ls| - 1] == l;
    LT.RunInv(ls, |ls| - 1);
  }

  lemma GoodbyeWritten(l: L.Listener, delivered: set<Ref>, r: Ref)
    requires LT.Inv(l) && l.phase == L.Left && r in l.list && r !in L.PINNED
    ensures L.StepOk(l, L.Goodbye(delivered)) && r in l.conns
    ensures
      var l' := L.Step(l, L.Goodbye(delivered));
      && r in l'.conns && l'.conns.Keys == l.conns.Keys
      && l'.conns[r].written == l.conns[r].written + if r in delivered then [L.Farewell] else []
  {
    hide Owned, LI.ConnOk, L.SayGoodbye;
    assert forall q :: q in l.list ==> LI.Referenced(l, q);
    LI.SayGoodbyeEffect(l.conns, l.proc.objs, l.list, |l.list|, delivered);
    LI.AddressedAreListed(l, l.proc.objs);
  }

  /** A dispatcher whose UNIX socket has its turn on a channel headed by EXIT leaves its loop. */
  lemma ExitEndsDispatcher(ss: seq<System>, n: nat, r: Ref, u: D.UnixInput, v: Visit)
    requires IsRun(ss) && n < |ss| && r in ss[n].dispatchers && r in ss[n].chans && VisitOk(v)
    requires
      var d, us := ss[n].dispatchers[r], ss[n].chans[r];
      && d.phase == D.Serving && d.cursor < |d.out| && d.out[d.cursor] == D.UNIX_REF
      && us != [] && us[0] == ExitUnit && D.UnixInputOk(d, us, u)
    ensures D.StepOk(ss[n].dispatchers[r], ss[n].chans[r], D.Handle(u, v))
    ensures
      var s' := AfterDispatcher(ss[n], r, D.Step(ss[n].dispatchers[r], ss[n].chans[r], D.Handle(u, v)));
      s'.dispatchers[r].phase == D.Broken
  {
    hide D.UnixInputOk, D.StepOk, D.Step, DT.Linked, D.Init;
    ProcessesStayReachable(ss, n);
    var ds: seq<D.Dispatcher> :| DT.IsRun(ds) && ds[|ds| - 1] == ss[n].dispatchers[r];
    DT.UnixTurnLaw(ds, |ds| - 1, ss[n].chans[r], u, v);
  }

  /** What became of the k-th client received. */
  ghost predicate HasFate(d: D.Dispatcher, k: nat) {
    || DI.Listed(d, k)
    || (k in d.refused && k in d.proc.closed)
    || k in d.removed
    || k in d.proc.leaked
    || (DT.NeverCame(d, k) && k == |d.received| && d.phase == D.Broken)
  }

  lemma ReceivedFates(d: D.Dispatcher)
    requires DispatcherReachable(d) && d.phase != D.Gone && d.stale == 0
    ensures forall k :: 1 <= k <= |d.received| ==> HasFate(d, k)
  {
    hide DI.Listed;
    var ds: seq<D.Dispatcher> :| DT.IsRun(ds) && ds[|ds| - 1] == d;
    forall k | 1 <= k <= |d.received|
      ensures HasFate(d, k)
    {
      DT.EveryReceivedClientIsAccountedFor(ds, |ds| - 1, k);
    }
  }

  /** In every interleaving a dispatcher's settings are empty until it reads its configuration and
      the listener's names from then on; it has read it before it receives its first client. */
  lemma ConfigurationArrivesFirst(ss: seq<System>, n: nat, r: Ref)
    requires IsRun(ss) && n < |ss| && r in ss[n].dispatchers
    ensures r in ss[n].listener.conns
    ensures
      var d, l := ss[n].dispatchers[r], ss[n].listener;
      && (d.settings == UNSET || d.settings == l.names)
      && (l.conns[r].config < 2 ==> d.settings == UNSET)
      && (l.conns[r].config == 2 && d.received != [] ==> d.settings == l.names)
  {
    RunInv(ss, n);
    assert Piped(ss[n], r);
  }
}
