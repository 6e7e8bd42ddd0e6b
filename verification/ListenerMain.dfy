/** The listener's main loop (mylsnr.cpp) over the socket objects themselves. The object of the loop
    carries the run of the listener machine it has gone through: every method extends it by exactly
    the machine's steps, so that what is proved of all runs holds of the program. */
module ListenerMain {
  import opened Sockets
  import opened SocketLists
  import opened Polling
  import opened DescriptorPassing
  import opened Configuration
  import opened Ownership
  import opened Rounds
  import opened ObjectMirror
  import L = ListenerLoop
  import LI = ListenerInvariants
  import LT = ListenerTheorems

  const TCP_REF: Ref := L.TCP_REF
  const UNIX_REF: Ref := L.UNIX_REF
  const CAPACITY: nat := L.CAPACITY

  /** What was written to each connection is what the machine says. */
  ghost predicate Recorded(refs: map<Ref, Socket>, conns: map<Ref, L.Conn>, written: map<Socket, seq<L.Message>>) {
    forall r :: r in conns ==> r in refs && refs[r] in written && written[refs[r]] == conns[r].written
  }

  predicate IsConnection(s: Socket) {
    s.kind == UNIX && !s.listening
  }

  /** What the kernel brings to one polled socket; `delivered` are the places in the list of the
      connections a client's descriptor reaches. */
  datatype Arrival = Arrival(accept: L.Accept, delivered: set<nat>, labelOk: bool, bodyOk: bool)

  /** The places of a list, as references. */
  ghost function At(list: seq<Ref>, places: set<nat>): (r: set<Ref>)
  {
    set i | 0 <= i < |list| && i in places :: list[i]
  }

  lemma AtPlace(list: seq<Ref>, places: set<nat>, n: nat)
    requires Distinct(list) && n < |list|
    ensures list[n] in At(list, places) <==> n in places
  {
  }

  /** The machine's event for what the kernel brings. */
  ghost function EventOf(l: L.Listener, a: Arrival): L.Event {
    L.Event(a.accept, At(l.list, a.delivered), a.labelOk, a.bodyOk)
  }

  // ----- the machine's rounds, object by object

  lemma RoundLooks(l: L.Listener, poll: Poll, w: L.Wait, forkOk: bool, i: nat)
    requires LI.Structure(l) && |poll.answers| == |l.list| && i < |l.list|
    ensures forall r :: r in l.out ==> r in l.proc.objs
    ensures
      var l', r := L.BeginRound(l, poll, w, forkOk), l.list[i];
      && r in l.proc.objs && r in l'.proc.objs
      && l'.proc.objs[r] ==
           AnsweredBy(l.proc.objs[r],
             if Polling.Outcome(poll.ret, poll.interrupted).NONE? then poll.answers[i] else NO_EVENTS)
  {
    hide Selected, PutAll, Release, Owned, LastAnswer, Released;
    LI.ClearedEffect(l);
    BitsAreAnswers(l.list, poll.answers, Polling.Outcome(poll.ret, poll.interrupted), i);
  }

  lemma RoundRest(l: L.Listener, poll: Poll, w: L.Wait, forkOk: bool)
    requires LI.Structure(l) && |poll.answers| == |l.list|
    ensures forall r :: r in l.out ==> r in l.proc.objs
    ensures
      var l', e := L.BeginRound(l, poll, w, forkOk), Polling.Outcome(poll.ret, poll.interrupted);
      && (forall r :: r in l'.proc.objs <==> r in l.list || r in L.PINNED)
      && (forall r :: r in L.PINNED && r !in l.list ==> r in l.proc.objs && l'.proc.objs[r] == l.proc.objs[r])
      && l'.out == (if e.NONE? then Selected(l.list, poll.answers) else [])
      && l' == l.(proc := l'.proc, out := l'.out, cursor := 0, phase := l'.phase, answers := l'.answers,
           children := l'.children)
      && l'.proc.next == l.proc.next
      && l'.children == if e.TIMEOUT? then L.Supervise(l.children, w, forkOk) else l.children
  {
    hide Selected, PutAll, Release, Owned, LastAnswer, L.Supervise, Distinct;
    LI.ClearedEffect(l);
    LI.RoundLists(l, L.Cleared(l), poll, w, forkOk);
  }

  lemma AllLooks(l: L.Listener, poll: Poll, w: L.Wait, forkOk: bool)
    requires LI.Structure(l) && |poll.answers| == |l.list|
    ensures forall r :: r in l.out ==> r in l.proc.objs
    ensures forall i :: 0 <= i < |l.list| ==>
      && l.list[i] in l.proc.objs && l.list[i] in L.BeginRound(l, poll, w, forkOk).proc.objs
      && L.BeginRound(l, poll, w, forkOk).proc.objs[l.list[i]] ==
           AnsweredBy(l.proc.objs[l.list[i]],
             if Polling.Outcome(poll.ret, poll.interrupted).NONE? then poll.answers[i] else NO_EVENTS)
  {
    hide L.BeginRound, LI.Structure, AnsweredBy;
    RoundRest(l, poll, w, forkOk);
    forall i | 0 <= i < |l.list|
      ensures l.list[i] in l.proc.objs && l.list[i] in L.BeginRound(l, poll, w, forkOk).proc.objs
      ensures L.BeginRound(l, poll, w, forkOk).proc.objs[l.list[i]] ==
        AnsweredBy(l.proc.objs[l.list[i]],
          if Polling.Outcome(poll.ret, poll.interrupted).NONE? then poll.answers[i] else NO_EVENTS)
    {
      RoundLooks(l, poll, w, forkOk, i);
    }
  }

  /** What the machine's kernel is asked for each listed socket. */
  lemma AllAsked(l: L.Listener)
    requires LI.Structure(l)
    ensures forall r :: r in l.out ==> r in l.proc.objs
    ensures
      var asked := L.Interested(L.Cleared(l).objs, l.list);
      forall i :: 0 <= i < |l.list| ==>
        && l.list[i] in l.proc.objs && l.list[i] in asked
        && asked[l.list[i]].fd == l.proc.objs[l.list[i]].fd &&
             asked[l.list[i]].events == l.proc.objs[l.list[i]].events + {POLLIN}
  {
    hide Release, Owned, Released;
    LI.ClearedEffect(l);
  }

  /** The machine's round, and what is known of the state it starts from. */
  lemma RoundGoesOn(run: seq<L.Listener>, poll: Poll, w: L.Wait, forkOk: bool)
    requires LT.IsRun(run) && L.StepOk(LT.Last(run), L.Round(poll, w, forkOk))
    ensures
      var l := LT.Last(run);
      && LI.Structure(l) && |poll.answers| == |l.list| && (forall r :: r in l.out ==> r in l.proc.objs)
      && L.Step(l, L.Round(poll, w, forkOk)) == L.BeginRound(l, poll, w, forkOk)
      && LT.IsRun(run + [L.BeginRound(l, poll, w, forkOk)])
  {
    hide LT.Linked, L.Init, L.BeginRound, LI.Structure, LI.Conns;
    LT.RunInv(run, |run| - 1);
    LT.Extend(run, L.Round(poll, w, forkOk));
  }

  /** The machine's handling of a polled socket, and what is known of the state it starts from. */
  lemma HandleGoesOn(run: seq<L.Listener>, ev: L.Event)
    requires LT.IsRun(run)
    requires
      var l := LT.Last(run);
      l.phase == L.Processing && l.cursor < |l.out| && L.AcceptOk(l.proc, ev.accept)
    ensures
      var l := LT.Last(run);
      && L.ProcessOk(l, ev) && L.StepOk(l, L.Handle(ev)) && L.Step(l, L.Handle(ev)) == L.ProcessSocket(l, ev)
      && LT.IsRun(run + [L.ProcessSocket(l, ev)]) && LT.Inv(LT.Advance(l))
  {
    hide LT.Linked, L.Init, L.ProcessSocket, LT.Inv, L.ProcessOk;
    LT.NeverStuck(run, |run| - 1, ev);
    LT.RunInv(run, |run| - 1);
    LT.AdvanceInv(LT.Last(run));
    LT.Extend(run, L.Handle(ev));
  }

  /** What the flags of a polled socket and the kernel's accept decide about its turn. */
  lemma TurnLaws(run: seq<L.Listener>, ev: L.Event)
    requires LT.IsRun(run)
    requires
      var l := LT.Last(run);
      l.phase == L.Processing && l.cursor < |l.out| && L.AcceptOk(l.proc, ev.accept)
    ensures L.ProcessOk(LT.Last(run), ev)
    ensures
      var l, l', r := LT.Last(run), L.ProcessSocket(LT.Last(run), ev), LT.Last(run).out[LT.Last(run).cursor];
      var flags := l.proc.objs[r].revents;
      var dropped := POLLERR in flags || POLLHUP in flags || POLLNVAL in flags || POLLRDHUP in flags;
      && (dropped && |l.list| == 100 ==> l'.list == l.list)
      && (dropped && |l.list| != 100 ==>
            exists k :: 0 <= k < |l.list| && l.list[k] == r && l'.list == l.list[..k] + l.list[k + 1..])
      && (!dropped ==> l.list <= l'.list)
      && l'.accepted == l.accepted + if !dropped && r == TCP_REF && ev.accept.Accepted? then 1 else 0
  {
    hide LT.Linked, L.Init, L.ProcessSocket, PrintConfig;
    HandleGoesOn(run, ev);
    var l, r := LT.Last(run), LT.Last(run).out[LT.Last(run).cursor];
    if IsDropped(l.proc.objs[r].revents) {
      LT.DroppedTurn(run, |run| - 1, ev);
    } else {
      LT.KeptTurn(run, |run| - 1, ev);
      if r == TCP_REF {
        LT.ClientTurn(run, |run| - 1, ev);
      } else if r == UNIX_REF {
        LT.DispatcherTurn(run, |run| - 1, ev);
      }
    }
  }

  /** What happens to the machine's list happens to the list of socket objects. */
  lemma ListsAgree(refs: map<Ref, Socket>, refs': map<Ref, Socket>, list: seq<Ref>, list': seq<Ref>,
      sockets: seq<Socket>, sockets': seq<Socket>)
    requires Names(refs, list, sockets) && Names(refs', list', sockets')
    requires forall r :: r in refs ==> r in refs' && refs'[r] == refs[r]
    ensures list' == list ==> sockets' == sockets
    ensures list <= list' ==> sockets <= sockets'
    ensures forall k :: 0 <= k < |list| && list' == list[..k] + list[k + 1..] ==>
      sockets' == sockets[..k] + sockets[k + 1..] && sockets[k] == refs[list[k]]
  {
  }

  // ----- the machine's handlers, object by object

  /** A fan-out step on the record of what was written. */
  lemma OfferRecorded(refs: map<Ref, Socket>, conns: map<Ref, L.Conn>, written: map<Socket, seq<L.Message>>,
      r: Ref, fd: int, client: nat, ok: bool)
    requires Recorded(refs, conns, written) && Injective(refs) && r in conns
    ensures Recorded(refs, L.Offer(conns, r, fd, client, ok),
                     if ok then written[refs[r] := written[refs[r]] + [L.Pass(fd, client)]] else written)
  {
    assert r in refs && forall q :: q in conns && q != r ==> refs[q] != refs[r];
  }

  lemma GoodbyeRecorded(refs: map<Ref, Socket>, conns: map<Ref, L.Conn>, written: map<Socket, seq<L.Message>>, r: Ref)
    requires Recorded(refs, conns, written) && Injective(refs) && r in conns
    ensures Recorded(refs, conns[r := conns[r].(written := conns[r].written + [L.Farewell])],
                     written[refs[r] := written[refs[r]] + [L.Farewell]])
  {
    assert r in refs && forall q :: q in conns && q != r ==> refs[q] != refs[r];
  }

  lemma {:induction false} FanOutKeys(conns: map<Ref, L.Conn>, objs: map<Ref, Sock>, list: seq<Ref>, n: nat,
      fd: int, client: nat, delivered: set<Ref>)
    requires n <= |list| && forall r :: r in list ==> r in objs
    ensures L.FanOut(conns, objs, list, n, fd, client, delivered).Keys == conns.Keys
  {
    if n == 0 {
    } else {
      FanOutKeys(conns, objs, list, n - 1, fd, client, delivered);
    }
  }

  lemma {:induction false} SayGoodbyeKeys(conns: map<Ref, L.Conn>, objs: map<Ref, Sock>, list: seq<Ref>, n: nat,
      delivered: set<Ref>)
    requires n <= |list| && forall r :: r in list ==> r in objs
    ensures L.SayGoodbye(conns, objs, list, n, delivered).Keys == conns.Keys
  {
    if n == 0 {
    } else {
      SayGoodbyeKeys(conns, objs, list, n - 1, delivered);
    }
  }

  /** Exactly the dispatcher connections among the listed sockets have a history. */
  lemma ListedConns(l: L.Listener)
    requires LI.Objects(l) && LI.Conns(l)
    ensures forall r :: r in l.list ==> r in l.proc.objs && r < l.proc.next
    ensures forall r :: r in l.list ==> (L.IsDispatcher(l.proc.objs[r]) <==> r in l.conns)
    ensures forall r :: r in l.conns ==> r < l.proc.next
  {
    assert forall r :: r in l.list ==> LI.Referenced(l, r);
  }

  lemma AcceptLeaves(l: L.Listener, fd: int, delivered: set<Ref>)
    requires LT.Inv(l) && l.phase == L.Processing && L.AcceptOk(l.proc, L.Accepted(fd))
    ensures forall r :: r in l.list ==> r in l.proc.objs && r < l.proc.next
    ensures
      var l' := L.AcceptClient(l, L.Accepted(fd), delivered);
      && l' == l.(proc := l'.proc, conns := l'.conns, accepted := l.accepted + 1, numbers := l.numbers + [fd])
      && l'.proc.objs == l.proc.objs && l'.proc.next == l.proc.next + 1
      && l'.conns == L.FanOut(l.conns, WithBrief(l, fd), l.list, |l.list|, fd, l.accepted, delivered)
  {
    hide Accounted, OpenIsOwned, ObjectsLive, DescriptorsApart, L.FanOut;
    LT.FreshNames(l);
    ListedConns(l);
    LI.BriefObject(l.proc, fd, SSL);
  }

  /** The machine's objects while the accepted client is among them. */
  ghost function WithBrief(l: L.Listener, fd: int): map<Ref, Sock> {
    Construct(Obtain(l.proc, fd), fd, SSL, false).objs
  }

  lemma JoinLeaves(l: L.Listener, fd: int, labelOk: bool, bodyOk: bool)
    requires LT.Inv(l) && l.phase == L.Processing && L.AcceptOk(l.proc, L.Accepted(fd))
    ensures
      var l' := L.AcceptDispatcher(l, L.Accepted(fd), labelOk, bodyOk);
      LI.JoinEffect(l, fd, L.ConfigMessages(l.pid, l.names, labelOk, bodyOk), l')
    ensures l.proc.next !in l.conns && l.proc.next !in l.list
  {
    hide Accounted, OpenIsOwned, ObjectsLive, DescriptorsApart, LI.JoinEffect;
    LT.FreshNames(l);
    LI.AcceptDispatcherEffect(l, fd, labelOk, bodyOk);
  }

  /** The drop of the machine, on lists and records. */
  lemma DropLeaves(l: L.Listener, r: Ref)
    requires r in l.proc.objs && forall q :: q in l.list ==> q in l.proc.objs
    ensures
      var l', fds := L.DropSocket(l, r), Fds(l.proc.objs, l.list);
      && l' == l.(list := l'.list, conns := l'.conns)
      && l'.list == Delete(l.list, fds, CAPACITY, l.proc.objs[r].fd)
      && l'.conns.Keys == l.conns.Keys && forall q :: q in l.conns ==> l'.conns[q].written == l.conns[q].written
  {
    hide Delete;
    var fds, fd := Fds(l.proc.objs, l.list), l.proc.objs[r].fd;
    if !Deletes(fds, CAPACITY, fd) {
      NothingDeleted(l.list, fds, CAPACITY, fd);
    }
  }

  lemma RecordedOne(refs: map<Ref, Socket>, conns: map<Ref, L.Conn>, written: map<Socket, seq<L.Message>>, r: Ref)
    requires Recorded(refs, conns, written) && r in conns
    ensures r in refs && refs[r] in written
  {
  }

  lemma RecordedMore(refs: map<Ref, Socket>, conns: map<Ref, L.Conn>, written: map<Socket, seq<L.Message>>,
      r: Ref, s: Socket, c: L.Conn)
    requires Recorded(refs, conns, written) && s !in refs.Values && r !in conns
    ensures Recorded(refs[r := s], conns[r := c], written[s := c.written])
  {
    assert forall q :: q in conns ==> refs[q] in refs.Values;
  }

  /** The machine's choice of handler. */
  ghost function AfterTurn(l: L.Listener, r: Ref, ev: L.Event): L.Listener
    requires r in l.proc.objs && forall q :: q in l.list ==> q in l.proc.objs && q < l.proc.next
  {
    var s := l.proc.objs[r];
    if IsDropped(s.revents) then L.DropSocket(l, r)
    else if s.kind == TCP && s.listening then L.AcceptClient(l, ev.accept, ev.delivered)
    else if s.kind == UNIX && s.listening then L.AcceptDispatcher(l, ev.accept, ev.labelOk, ev.bodyOk)
    else l
  }

  lemma TurnIsProcess(l: L.Listener, ev: L.Event)
    requires L.ProcessOk(l, ev)
    ensures L.ProcessSocket(l, ev) == AfterTurn(LT.Advance(l), l.out[l.cursor], ev)
  {
    hide L.DropSocket, L.AcceptClient, L.AcceptDispatcher;
  }

  /** The machine's state after the first `n` polled sockets. */
  ghost function AfterAll(l: L.Listener, arrivals: seq<Arrival>, n: nat): L.Listener
    requires AllOk(l, arrivals, n)
    decreases n, 1
  {
    if n == 0 then l
    else
      var before := AfterAll(l, arrivals, n - 1);
      L.Step(before, L.Handle(EventOf(before, arrivals[n - 1])))
  }

  /** Each of the first `n` arrivals is one the kernel may bring in the state it finds. */
  ghost predicate AllOk(l: L.Listener, arrivals: seq<Arrival>, n: nat)
    decreases n, 0
  {
    n == 0 ||
    (&& n <= |arrivals| && AllOk(l, arrivals, n - 1)
     && var before := AfterAll(l, arrivals, n - 1);
        L.StepOk(before, L.Handle(EventOf(before, arrivals[n - 1]))))
  }

  lemma {:induction false} AllOkPrefix(l: L.Listener, arrivals: seq<Arrival>, m: nat, n: nat)
    requires m <= n && AllOk(l, arrivals, n)
    ensures AllOk(l, arrivals, m)
  {
    if m == n {
    } else {
      AllOkPrefix(l, arrivals, m, n - 1);
    }
  }

  lemma NextOk(l: L.Listener, arrivals: seq<Arrival>, n: nat)
    requires n < |arrivals| && AllOk(l, arrivals, |arrivals|)
    ensures AllOk(l, arrivals, n) && AllOk(l, arrivals, n + 1)
    ensures
      var before := AfterAll(l, arrivals, n);
      L.StepOk(before, L.Handle(EventOf(before, arrivals[n]))) && L.AcceptOk(before.proc, arrivals[n].accept)
  {
    hide EventOf;
    AllOkPrefix(l, arrivals, n + 1, |arrivals|);
    EventAccept(AfterAll(l, arrivals, n), arrivals[n]);
  }

  lemma EventAccept(l: L.Listener, a: Arrival)
    ensures EventOf(l, a).accept == a.accept
  {
  }

  /** What a polled socket's turn leaves of the round. */
  lemma TurnPlace(l: L.Listener, ev: L.Event)
    requires L.StepOk(l, L.Handle(ev))
    ensures
      var l' := L.Step(l, L.Handle(ev));
      l'.out == l.out && l'.cursor == l.cursor + 1 && l'.phase == l.phase
  {
    hide L.FanOut, Delete, L.ConfigMessages;
  }

  lemma RoundPhase(l: L.Listener, poll: Poll, w: L.Wait, forkOk: bool)
    requires L.StepOk(l, L.Round(poll, w, forkOk))
    ensures
      var l' := L.Step(l, L.Round(poll, w, forkOk));
      match Polling.Outcome(poll.ret, poll.interrupted)
      case NONE => l'.phase == L.Processing && l'.cursor == 0
      case ERROR => l'.phase == L.Left
      case _ => l'.phase == L.Between
  {
    hide Selected, PutAll, Release, L.Supervise;
  }

  lemma FinishGoesOn(run: seq<L.Listener>)
    requires LT.IsRun(run) && LT.Last(run).phase == L.Processing && LT.Last(run).cursor == |LT.Last(run).out|
    ensures LT.IsRun(run + [LT.Last(run).(phase := L.Between)])
  {
    hide LT.Linked, L.Init;
    LT.Extend(run, L.Finish);
  }

  lemma GoodbyeGoesOn(run: seq<L.Listener>, delivered: set<Ref>)
    requires LT.IsRun(run) && LT.Last(run).phase == L.Left
    ensures
      var l := LT.Last(run);
      && LT.Inv(l) && L.StepOk(l, L.Goodbye(delivered))
      && LT.IsRun(run + [L.Step(l, L.Goodbye(delivered))])
      && L.Step(l, L.Goodbye(delivered)) ==
           l.(phase := L.Parted, conns := L.SayGoodbye(l.conns, l.proc.objs, l.list, |l.list|, delivered))
  {
    hide LT.Linked, L.Init, LT.Inv, L.SayGoodbye;
    LT.RunInv(run, |run| - 1);
    LT.NeverStuck(run, |run| - 1, L.Event(L.Nothing, {}, true, true));
    LT.Extend(run, L.Goodbye(delivered));
  }

  lemma StartedRun(tcpFd: int, unixFd: int, forked: bool, pid: nat, names: Settings)
    requires tcpFd != unixFd && tcpFd != FREE_SOCKET && unixFd != FREE_SOCKET
    ensures
      var l := L.Started(tcpFd, unixFd, forked, pid, names);
      && LT.IsRun([l]) && l.list == [TCP_REF, UNIX_REF] && l.out == [] && l.conns == map[]
      && l.proc.objs == map[
           TCP_REF := Sock(tcpFd, 0, TCP, true, false, NO_EVENTS, NO_EVENTS, ClientStatus.NONE),
           UNIX_REF := Sock(unixFd, 1, UNIX, true, false, NO_EVENTS, NO_EVENTS, ClientStatus.NONE)]
      && l.proc.next == 2 && l.accepted == 0 && l.children == L.Children(if forked then 1 else 0, 0)
      && l.pid == pid && l.names == names
  {
  }

  /** What a message sent means for the connection: the client's descriptor, if one is attached. */
  function PassOf(message: Option<Packet>, client: nat): seq<L.Message> {
    if message.Some? && message.value.attached.Some? then [L.Pass(message.value.attached.value, client)] else []
  }

  class Loop {
    const tcpListener: Socket
    const unixListener: Socket
    const socketsList: SocketsList
    const outputList: SocketsList
    const pid: nat
    const names: Settings
    var written: map<Socket, seq<L.Message>>
    var accepted: nat
    var children: L.Children
    ghost var run: seq<L.Listener>
    ghost var refs: map<Ref, Socket>

    /** The machine's state. */
    ghost function Now(): L.Listener
      requires |run| > 0
      reads this
    {
      LT.Last(run)
    }

    /** Lists, socket objects, children and everything written are the machine's. */
    ghost predicate Mirrors(l: L.Listener)
      reads this`refs, this`written, this`accepted, this`children, socketsList, outputList, refs.Values
    {
      && socketsList != outputList && socketsList.maxSize == CAPACITY && outputList.maxSize == CAPACITY
      && Injective(refs)
      && TCP_REF in refs && refs[TCP_REF] == tcpListener
      && UNIX_REF in refs && refs[UNIX_REF] == unixListener
      && (forall r :: r in refs ==> r < l.proc.next)
      && Names(refs, l.list, socketsList.sockets) && Names(refs, l.out, outputList.sockets)
      && (forall r :: r in l.proc.objs ==> r in refs && Looks(refs[r], l.proc.objs[r]))
      && Recorded(refs, l.conns, written)
      && accepted == l.accepted && children == l.children && pid == l.pid && names == l.names
    }

    ghost predicate Valid()
      reads this, socketsList, outputList, refs.Values
    {
      LT.IsRun(run) && Mirrors(LT.Last(run))
    }

    constructor (tcpFd: int, unixFd: int, forked: bool, pid: nat, names: Settings)
      requires tcpFd != unixFd && tcpFd != FREE_SOCKET && unixFd != FREE_SOCKET
      ensures Valid() && run == [L.Started(tcpFd, unixFd, forked, pid, names)]
      ensures socketsList.sockets == [tcpListener, unixListener] && outputList.sockets == []
      ensures tcpListener.descriptor == tcpFd && tcpListener.kind == TCP && tcpListener.listening
      ensures unixListener.descriptor == unixFd && unixListener.kind == UNIX && unixListener.listening
      ensures children.forked == (if forked then 1 else 0) && children.reaped == 0 && accepted == 0 && written == map[]
      ensures fresh(socketsList) && fresh(outputList) && fresh(refs.Values)
    {
      hide L.Started, LT.Linked, L.Init, Mirrors;
      StartedRun(tcpFd, unixFd, forked, pid, names);
      tcpListener := new Socket(tcpFd, TCP, true);
      unixListener := new Socket(unixFd, UNIX, true);
      socketsList := new SocketsList(CAPACITY);
      outputList := new SocketsList(CAPACITY);
      this.pid, this.names := pid, names;
      written, accepted, children := map[], 0, L.Children(if forked then 1 else 0, 0);
      run := [L.Started(tcpFd, unixFd, forked, pid, names)];
      refs := map[];
      new;
      refs := map[TCP_REF := tcpListener, UNIX_REF := unixListener];
      var _ := socketsList.PutSocket(tcpListener);
      var _ := socketsList.PutSocket(unixListener);
      StartMirrors(tcpFd, unixFd, forked);
    }

    lemma StartMirrors(tcpFd: int, unixFd: int, forked: bool)
      requires tcpFd != unixFd && tcpFd != FREE_SOCKET && unixFd != FREE_SOCKET && tcpListener != unixListener
      requires Looks(tcpListener, Sock(tcpFd, 0, TCP, true, false, NO_EVENTS, NO_EVENTS, ClientStatus.NONE))
      requires Looks(unixListener, Sock(unixFd, 1, UNIX, true, false, NO_EVENTS, NO_EVENTS, ClientStatus.NONE))
      requires refs == map[TCP_REF := tcpListener, UNIX_REF := unixListener]
      requires socketsList.sockets == [tcpListener, unixListener] && outputList.sockets == []
      requires socketsList != outputList
      requires socketsList.maxSize == CAPACITY && outputList.maxSize == CAPACITY && written == map[] && accepted == 0
      requires children == L.Children(if forked then 1 else 0, 0)
      ensures Mirrors(L.Started(tcpFd, unixFd, forked, pid, names))
    {
      hide L.Started, LT.IsRun, Looks;
      StartedRun(tcpFd, unixFd, forked, pid, names);
    }

    // ----- a round's beginning

    /** A round up to and including the poll, with the child's supervision on a timeout, is the machine's. */
    method BeginRound(poll: Poll, w: L.Wait, forkOk: bool) returns (e: ErrorType, requested: seq<PollFd>)
      requires Valid() && L.StepOk(Now(), L.Round(poll, w, forkOk))
      modifies this`run, this`children, refs.Values, outputList
      ensures Valid() && run == old(run) + [L.Step(old(Now()), L.Round(poll, w, forkOk))]
      ensures e == Polling.Outcome(poll.ret, poll.interrupted)
      ensures |requested| == |old(Now()).list|
      ensures
        var l, asked := old(Now()), L.Interested(L.Cleared(old(Now())).objs, old(Now()).list);
        forall i :: 0 <= i < |requested| ==>
          l.list[i] in asked && requested[i].fd == asked[l.list[i]].fd && requested[i].events == asked[l.list[i]].events
      ensures Now().phase == L.Left <==> poll.ret == -1 && !poll.interrupted
      ensures Now().phase == L.Between <==> poll.ret == 0 || (poll.ret == -1 && poll.interrupted)
      ensures Now().phase == L.Processing <==> poll.ret != 0 && poll.ret != -1
      ensures
        var before, now := old(Now()).children, Now().children;
        && now.reaped == before.reaped + (if poll.ret == 0 && w.Reaped? then 1 else 0)
        && now.forked == before.forked + (if poll.ret == 0 && w.Reaped? && forkOk then 1 else 0)
      ensures
        var l := old(Now());
        forall i :: 0 <= i < |requested| ==>
          && l.list[i] in l.proc.objs && requested[i].fd == l.proc.objs[l.list[i]].fd
          && requested[i].events == l.proc.objs[l.list[i]].events + {POLLIN}
    {
      hide LT.Linked, L.Init, L.StepOk, L.Step, L.BeginRound, Mirrors, LI.Structure, L.Interested, L.Cleared;
      ghost var l := Now();
      RoundGoesOn(run, poll, w, forkOk);
      LT.RoundLaw(l, poll, w, forkOk);
      AllAsked(l);
      e, requested := Poll(l, poll, w, forkOk);
      run := run + [L.BeginRound(l, poll, w, forkOk)];
    }

    method Poll(ghost l: L.Listener, poll: Poll, w: L.Wait, forkOk: bool) returns (e: ErrorType, requested: seq<PollFd>)
      requires Mirrors(l) && LI.Structure(l) && |poll.answers| == |l.list|
      modifies this`children, refs.Values, outputList
      ensures e == Polling.Outcome(poll.ret, poll.interrupted)
      ensures forall r :: r in l.out ==> r in l.proc.objs
      ensures Mirrors(L.BeginRound(l, poll, w, forkOk))
      ensures |requested| == |l.list|
      ensures forall i :: 0 <= i < |requested| ==>
        && l.list[i] in l.proc.objs && requested[i].fd == l.proc.objs[l.list[i]].fd
        && requested[i].events == l.proc.objs[l.list[i]].events + {POLLIN}
    {
      hide Selected, Injective, Distinct, L.BeginRound, AnsweredBy, LI.Structure, Looks, Recorded, L.Supervise, Names;
      NamesNothing(refs);
      RoundRest(l, poll, w, forkOk);
      AllLooks(l, poll, w, forkOk);
      ListedOnce(l);
      outputList.Clear();
      e, requested := PollListed(l, poll);
      NamesSelected(refs, l.list, socketsList.sockets, poll.answers);
      if e.TIMEOUT? {
        Supervise(w, forkOk);
      }
      MirrorsRound(l, L.BeginRound(l, poll, w, forkOk));
    }

    lemma ListedOnce(l: L.Listener)
      requires LI.Structure(l)
      ensures Distinct(l.list) && |l.list| <= CAPACITY
    {
    }

    lemma MirrorsRound(l: L.Listener, l': L.Listener)
      requires Names(refs, l.list, socketsList.sockets) && TCP_REF in refs && UNIX_REF in refs
      requires forall r :: r in l'.proc.objs <==> r in l.list || r in L.PINNED
      requires forall i :: 0 <= i < |l.list| ==> Looks(refs[l.list[i]], l'.proc.objs[l.list[i]])
      requires forall r :: r in L.PINNED && r !in l.list ==> Looks(refs[r], l'.proc.objs[r])
      ensures forall r :: r in l'.proc.objs ==> r in refs && Looks(refs[r], l'.proc.objs[r])
    {
      hide Looks;
    }

    /** The asking and the poll, on the objects; the others stay as they are. */
    method PollListed(ghost l: L.Listener, poll: Poll) returns (e: ErrorType, requested: seq<PollFd>)
      requires Injective(refs) && Names(refs, l.list, socketsList.sockets) && Distinct(l.list)
      requires |poll.answers| == |l.list| <= CAPACITY
      requires forall r :: r in l.proc.objs ==> r in refs && Looks(refs[r], l.proc.objs[r])
      requires forall r :: r in l.list ==> r in l.proc.objs
      requires socketsList != outputList && outputList.sockets == [] && outputList.maxSize == CAPACITY
      modifies refs.Values, outputList
      ensures e == Polling.Outcome(poll.ret, poll.interrupted)
      ensures outputList.sockets == if e.NONE? then Selected(socketsList.sockets, poll.answers) else []
      ensures forall i :: 0 <= i < |l.list| ==>
        Looks(refs[l.list[i]], AnsweredBy(l.proc.objs[l.list[i]], if e.NONE? then poll.answers[i] else NO_EVENTS))
      ensures forall r :: r in l.proc.objs && r !in l.list ==> Looks(refs[r], l.proc.objs[r])
      ensures |requested| == |l.list|
      ensures forall i :: 0 <= i < |requested| ==>
        && l.list[i] in l.proc.objs && requested[i].fd == l.proc.objs[l.list[i]].fd
        && requested[i].events == l.proc.objs[l.list[i]].events + {POLLIN}
    {
      hide Selected, Distinct, Injective;
      NamesDistinct(refs, l.list, socketsList.sockets);
      NamesOthers(refs, l.list, socketsList.sockets);
      e, requested := AskAndPoll(poll);
      assert forall i :: 0 <= i < |l.list| ==> refs[l.list[i]] == socketsList.sockets[i];
    }

    /** The asking and the poll, on a list without repetitions. */
    method AskAndPoll(poll: Poll) returns (e: ErrorType, requested: seq<PollFd>)
      requires Distinct(socketsList.sockets) && |poll.answers| == |socketsList.sockets| <= CAPACITY
      requires socketsList != outputList && outputList.sockets == [] && outputList.maxSize == CAPACITY
      modifies socketsList.sockets, outputList
      ensures e == Polling.Outcome(poll.ret, poll.interrupted)
      ensures outputList.sockets == if e.NONE? then Selected(socketsList.sockets, poll.answers) else []
      ensures |requested| == |socketsList.sockets|
      ensures forall i :: 0 <= i < |requested| ==>
        && requested[i].fd == socketsList.sockets[i].descriptor
        && requested[i].events == old(socketsList.sockets[i].events) + {POLLIN}
      ensures forall i :: 0 <= i < |socketsList.sockets| ==>
        && socketsList.sockets[i].events == NO_EVENTS
        && socketsList.sockets[i].revents == (if e.NONE? then poll.answers[i] else NO_EVENTS)
        && socketsList.sockets[i].clientStatus == old(socketsList.sockets[i].clientStatus)
    {
      hide Selected, Distinct, Polling.Outcome;
      AskForRead();
      e, requested := PollOnce(socketsList, outputList, poll.ret, poll.interrupted, poll.answers);
    }

    /** pollForRead on every listed socket. */
    method AskForRead()
      modifies socketsList.sockets`events
      ensures forall s :: s in socketsList.sockets ==> s.events == old(s.events) + {POLLIN}
    {
      var sockets := socketsList.sockets;
      var n := 0;
      while n < |sockets|
        invariant 0 <= n <= |sockets|
        invariant forall s :: s in sockets ==>
            s.events == if s in sockets[..n] then old(s.events) + {POLLIN} else old(s.events)
      {
        assert sockets[..n + 1] == sockets[..n] + [sockets[n]];
        sockets[n].PollForRead();
        n := n + 1;
      }
    }

    /** A timeout: a dispatcher that ended is reaped and replaced, if the fork succeeds. */
    method Supervise(w: L.Wait, forkOk: bool)
      modifies this`children
      ensures children == L.Supervise(old(children), w, forkOk)
      ensures w.Reaped? && forkOk ==>
        children.reaped == old(children).reaped + 1 && children.forked == old(children).forked + 1
      ensures w.Reaped? && !forkOk ==>
        children.reaped == old(children).reaped + 1 && children.forked == old(children).forked
      ensures !w.Reaped? ==> children == old(children)
    {
      if w.Reaped? {
        children := children.(reaped := children.reaped + 1);
        if forkOk {
          children := children.(forked := children.forked + 1);
        }
      }
    }

    // ----- one polled socket

    /** A polled socket's turn is the machine's. */
    method ProcessSocket(n: nat, a: Arrival)
      requires Valid() && Now().phase == L.Processing && n == Now().cursor < |Now().out|
      requires L.AcceptOk(Now().proc, a.accept)
      requires |PrintConfig(pid, names)| < CONFIG_BUFFER
      modifies this`run, this`refs, this`written, this`accepted, socketsList
      ensures L.StepOk(old(Now()), L.Handle(EventOf(old(Now()), a)))
      ensures Valid() && run == old(run) + [L.Step(old(Now()), L.Handle(EventOf(old(Now()), a)))]
      // A socket with a drop flag leaves a list that is not full, alone, and nothing is accepted or written.
      ensures n < |outputList.sockets|
      ensures
        var s, before, after := outputList.sockets[n], old(socketsList.sockets), socketsList.sockets;
        var flags := old(outputList.sockets[n].revents);
        if POLLERR in flags || POLLHUP in flags || POLLNVAL in flags || POLLRDHUP in flags then
          && written == old(written) && accepted == old(accepted)
          && (|before| == 100 ==> after == before)
          && (|before| != 100 ==>
                exists k :: 0 <= k < |before| && before[k] == s && after == before[..k] + before[k + 1..])
        else
          && before <= after
          && accepted == old(accepted) + if s == tcpListener && a.accept.Accepted? then 1 else 0
      ensures forall r :: r in old(refs) ==> r in refs && refs[r] == old(refs)[r]
      ensures fresh(refs.Values - old(refs.Values))
    {
      hide LT.Linked, L.Init, L.StepOk, L.Step, LT.Inv, L.ProcessSocket, PrintConfig, At, AfterTurn, Mirrors;
      ghost var l := Now();
      ghost var ev := EventOf(l, a);
      SeenByMirrors(l, n);
      TurnLaws(run, ev);
      HandleGoesOn(run, ev);
      MirrorsAdvance(l);
      TurnIsProcess(l, ev);
      Turn(LT.Advance(l), n, a);
      ghost var l' := L.ProcessSocket(l, ev);
      SeenByMirrors(l', n);
      ListsAgree(old(refs), refs, l.list, l'.list, old(socketsList.sockets), socketsList.sockets);
      run := run + [l'];
    }

    /** What the mirrored state shows to the n-th polled socket's turn. */
    lemma SeenByMirrors(l: L.Listener, n: nat)
      requires Mirrors(l)
      ensures Names(refs, l.list, socketsList.sockets) && |outputList.sockets| == |l.out| && accepted == l.accepted
      ensures n < |l.out| ==> l.out[n] in refs && outputList.sockets[n] == refs[l.out[n]]
      ensures n < |l.out| && l.out[n] in l.proc.objs ==> outputList.sockets[n].revents == l.proc.objs[l.out[n]].revents
      ensures n < |l.out| ==> (outputList.sockets[n] == tcpListener <==> l.out[n] == TCP_REF)
    {
    }

    method Turn(ghost l: L.Listener, n: nat, a: Arrival)
      requires Mirrors(l) && LT.Inv(l) && l.phase == L.Processing && n < |l.out| && L.AcceptOk(l.proc, a.accept)
      requires |PrintConfig(pid, names)| < CONFIG_BUFFER
      modifies this`refs, this`written, this`accepted, socketsList
      ensures l.out[n] in l.proc.objs && forall q :: q in l.list ==> q in l.proc.objs && q < l.proc.next
      ensures Mirrors(AfterTurn(l, l.out[n], EventOf(l, a)))
      ensures n < |outputList.sockets|
      ensures
        var flags := old(outputList.sockets[n].revents);
        (POLLERR in flags || POLLHUP in flags || POLLNVAL in flags || POLLRDHUP in flags) ==> written == old(written)
      ensures forall r :: r in old(refs) ==> r in refs && refs[r] == old(refs)[r]
      ensures fresh(refs.Values - old(refs.Values))
    {
      hide Injective, Recorded, PrintConfig, At, L.AcceptOk, LT.Inv, L.DropSocket, L.AcceptClient, L.AcceptDispatcher;
      TurnObjects(l, n);
      var s := outputList.sockets[n];
      if IsDropped(s.revents) {
        Drop(l, n);
      } else if s.kind == TCP && s.listening {
        var _ := ProcessClientConnection(l, a.accept, a.delivered);
      } else if s.kind == UNIX && s.listening {
        var _ := ProcessDispatcherConnection(l, a.accept, a.labelOk, a.bodyOk);
      }
    }

    lemma TurnObjects(l: L.Listener, n: nat)
      requires LT.Inv(l) && l.phase == L.Processing && n < |l.out|
      ensures l.out[n] in l.proc.objs && forall q :: q in l.list ==> q in l.proc.objs && q < l.proc.next
    {
      hide LI.Conns, Owned;
      assert LI.Referenced(l, l.out[n]) && forall q :: q in l.list ==> LI.Referenced(l, q);
    }

    /** A dropped socket is deleted by its descriptor, unless the list is full. */
    method Drop(ghost l: L.Listener, n: nat)
      requires Mirrors(l) && n < |l.out| && l.out[n] in l.proc.objs && forall q :: q in l.list ==> q in l.proc.objs
      modifies socketsList
      ensures Mirrors(L.DropSocket(l, l.out[n]))
    {
      hide Injective, L.DropSocket;
      ghost var fds := Fds(l.proc.objs, l.list);
      var s := outputList.sockets[n];
      assert Descriptors(socketsList.sockets) == fds;
      DropLeaves(l, l.out[n]);
      NamesDelete(refs, l.list, socketsList.sockets, fds, CAPACITY, s.descriptor);
      var _ := socketsList.DelSocket(s);
    }

    /** processClientConnection: the loop over the list is the machine's fan-out. */
    method ProcessClientConnection(ghost l: L.Listener, accept: L.Accept, delivered: set<nat>) returns (ok: bool)
      requires Mirrors(l) && LT.Inv(l) && l.phase == L.Processing && L.AcceptOk(l.proc, accept)
      modifies this`written, this`accepted
      ensures forall q :: q in l.list ==> q in l.proc.objs && q < l.proc.next
      ensures Mirrors(L.AcceptClient(l, accept, At(l.list, delivered)))
      ensures ok <==> accept.Accepted?
    {
      hide Injective, Recorded, LT.Inv, Looks, L.AcceptClient, At;
      TurnList(l);
      if !accept.Accepted? {
        AcceptNobody(l, accept, At(l.list, delivered));
        return false;
      }
      AcceptLeaves(l, accept.fd, At(l.list, delivered));
      FanOut(l, accept.fd, delivered);
      accepted := accepted + 1;
      return true;
    }

    lemma TurnList(l: L.Listener)
      requires LT.Inv(l) && l.phase == L.Processing
      ensures forall q :: q in l.list ==> q in l.proc.objs && q < l.proc.next
    {
      hide Owned;
      ListedConns(l);
    }

    lemma AcceptNobody(l: L.Listener, accept: L.Accept, byRef: set<Ref>)
      requires (forall q :: q in l.list ==> q in l.proc.objs && q < l.proc.next) && !accept.Accepted?
      ensures
        var l' := L.AcceptClient(l, accept, byRef);
        l' == l.(proc := l'.proc) && l'.proc.objs == l.proc.objs && l'.proc.next == l.proc.next
    {
    }

    method FanOut(ghost l: L.Listener, fd: int, delivered: set<nat>)
      requires Mirrors(l) && LT.Inv(l) && l.phase == L.Processing && 0 <= fd <= INT_MAX
      requires forall q :: q in l.list ==> q in l.proc.objs && q < l.proc.next
      modifies this`written
      ensures
        var conns := L.FanOut(l.conns, WithBrief(l, fd), l.list, |l.list|, fd, l.accepted, At(l.list, delivered));
        Recorded(refs, conns, written)
    {
      hide Injective, Recorded, LT.Inv, WithBrief, At;
      ghost var objs, byRef := WithBrief(l, fd), At(l.list, delivered);
      BriefSame(l, fd);
      FanOutConns(l);
      var list := socketsList.sockets;
      var n := 0;
      while n < |list|
        invariant 0 <= n <= |list| == |l.list|
        invariant Recorded(refs, L.FanOut(l.conns, objs, l.list, n, fd, l.accepted, byRef), written)
      {
        ghost var r := l.list[n];
        ghost var before := L.FanOut(l.conns, objs, l.list, n, fd, l.accepted, byRef);
        FanOutKeys(l.conns, objs, l.list, n, fd, l.accepted, byRef);
        if IsConnection(list[n]) {
          AtPlace(l.list, delivered, n);
          RecordedOne(refs, before, written, r);
          OfferRecorded(refs, before, written, r, fd, l.accepted, r in byRef);
          var sent, message := SendSocket(fd, true, if n in delivered then 2 else -1);
          if sent {
            written := written[list[n] := written[list[n]] + PassOf(message, accepted)];
          }
        }
        n := n + 1;
      }
    }

    lemma FanOutConns(l: L.Listener)
      requires LT.Inv(l) && l.phase == L.Processing
      ensures forall r :: r in l.list ==> r in l.proc.objs && (L.IsDispatcher(l.proc.objs[r]) <==> r in l.conns)
      ensures Distinct(l.list)
    {
      hide Owned;
      ListedConns(l);
    }

    lemma BriefSame(l: L.Listener, fd: int)
      requires forall q :: q in l.list ==> q in l.proc.objs && q < l.proc.next
      ensures forall q :: q in l.list ==> q in WithBrief(l, fd) && WithBrief(l, fd)[q] == l.proc.objs[q]
    {
    }

    /** processDispatcherConnection: the new connection is put, and then written its configuration
        as far as the writes succeed. */
    method ProcessDispatcherConnection(ghost l: L.Listener, accept: L.Accept, labelOk: bool,
        bodyOk: bool) returns (ok: bool)
      requires Mirrors(l) && LT.Inv(l) && l.phase == L.Processing && L.AcceptOk(l.proc, accept)
      requires |PrintConfig(pid, names)| < CONFIG_BUFFER
      modifies this`refs, this`written, socketsList
      ensures Mirrors(L.AcceptDispatcher(l, accept, labelOk, bodyOk))
      ensures ok <==> accept.Accepted? && labelOk && bodyOk
      ensures forall r :: r in old(refs) ==> r in refs && refs[r] == old(refs)[r]
      ensures fresh(refs.Values - old(refs.Values))
    {
      hide Injective, Recorded, LT.Inv, Looks, L.AcceptDispatcher, PrintConfig, Names;
      if !accept.Accepted? {
        JoinNobody(l, accept, labelOk, bodyOk);
        return false;
      }
      JoinLeaves(l, accept.fd, labelOk, bodyOk);
      var s := Join(l, accept.fd);
      ok := WriteConfig(s, labelOk, bodyOk);
    }

    /** The new connection's object, put into the list unless that is full; its history is still to be written. */
    method Join(ghost l: L.Listener, fd: int) returns (s: Socket)
      requires Mirrors(l) && 0 <= fd && l.proc.next !in l.conns && l.proc.next !in l.list
      modifies this`refs, socketsList
      ensures refs == old(refs)[l.proc.next := s] && fresh(s) && s !in written
      ensures socketsList.sockets == Put(old(socketsList.sockets), CAPACITY, s)
      ensures |old(socketsList.sockets)| == |l.list|
      ensures Injective(refs) && (|l.list| != CAPACITY ==> Names(refs, l.list + [l.proc.next], socketsList.sockets))
      ensures (|l.list| == CAPACITY ==> Names(refs, l.list, socketsList.sockets))
      ensures Names(refs, l.out, outputList.sockets)
      ensures Looks(s, Sock(fd, l.proc.born, UNIX, false, false, NO_EVENTS, NO_EVENTS, ClientStatus.NONE))
      ensures forall c: L.Conn :: Recorded(refs, l.conns[l.proc.next := c], written[s := c.written])
    {
      hide Injective, Recorded, Names;
      ghost var r := l.proc.next;
      NamesLength(refs, l.list, socketsList.sockets);
      s := new Socket(fd, UNIX, false);
      NamesPut(refs, l.list, socketsList.sockets, r, s);
      NamesMore(refs, l.out, outputList.sockets, r, s);
      InjectiveMore(refs, r, s);
      forall c: L.Conn ensures Recorded(refs[r := s], l.conns[r := c], written[s := c.written]) {
        RecordedMore(refs, l.conns, written, r, s, c);
      }
      var _ := socketsList.PutSocket(s);
      refs := refs[r := s];
    }

    lemma JoinNobody(l: L.Listener, accept: L.Accept, labelOk: bool, bodyOk: bool)
      requires !accept.Accepted?
      ensures L.AcceptDispatcher(l, accept, labelOk, bodyOk) == l
    {
    }

    method WriteConfig(s: Socket, labelOk: bool, bodyOk: bool) returns (ok: bool)
      requires |PrintConfig(pid, names)| < CONFIG_BUFFER
      modifies this`written
      ensures ok <==> labelOk && bodyOk
      ensures written == old(written)[s := L.ConfigMessages(pid, names, labelOk, bodyOk)]
      ensures !labelOk ==> written[s] == []
      ensures labelOk && !bodyOk ==> written[s] == [L.Label]
      ensures labelOk && bodyOk ==> written[s] == [L.Label, L.Body(PrintConfig(pid, names))]
    {
      hide PrintConfig;
      written := written[s := []];
      if !labelOk {
        return false;
      }
      written := written[s := written[s] + [L.Label]];
      assert written[s] == [L.Label] && written == old(written)[s := [L.Label]];
      var body := PrintConfig(pid, names);
      assert |body| < CONFIG_BUFFER;
      if !bodyOk {
        return false;
      }
      written := written[s := written[s] + [L.Body(body)]];
      assert written[s] == L.ConfigMessages(pid, names, true, true) && written == old(written)[s := written[s]];
      return true;
    }

    // ----- a whole round, and the end

    /** processSockets: one of the machine's handler steps for each polled socket, in order. */
    method ProcessSockets(arrivals: seq<Arrival>)
      requires Valid() && Now().phase == L.Processing && Now().cursor == 0 && |arrivals| == |Now().out|
      requires AllOk(Now(), arrivals, |arrivals|) && |PrintConfig(pid, names)| < CONFIG_BUFFER
      modifies this`run, this`refs, this`written, this`accepted, socketsList
      ensures Valid() && Now() == AfterAll(old(Now()), arrivals, |arrivals|) && old(run) <= run
      ensures |run| == |old(run)| + |arrivals|
      ensures Now().phase == L.Processing && Now().cursor == |Now().out|
      ensures fresh(refs.Values - old(refs.Values))
    {
      hide LT.Linked, L.Init, L.StepOk, L.Step, Mirrors, PrintConfig;
      ghost var l := Now();
      var n := 0;
      while n < |arrivals|
        invariant 0 <= n <= |arrivals| && Valid() && old(run) <= run && |run| == |old(run)| + n
        invariant AllOk(l, arrivals, |arrivals|) && AllOk(l, arrivals, n) && Now() == AfterAll(l, arrivals, n)
        invariant Now().phase == L.Processing && Now().cursor == n && |Now().out| == |arrivals|
        invariant fresh(refs.Values - old(refs.Values))
      {
        NextOk(l, arrivals, n);
        TurnPlace(Now(), EventOf(Now(), arrivals[n]));
        ProcessSocket(n, arrivals[n]);
        n := n + 1;
      }
    }

    /** A whole round is the machine's poll step, its handler steps for the polled sockets, and its
        finish; only a failed poll leaves the loop. */
    method Round(poll: Poll, w: L.Wait, forkOk: bool, arrivals: seq<Arrival>) returns (left: bool)
      requires Valid() && L.StepOk(Now(), L.Round(poll, w, forkOk)) && |PrintConfig(pid, names)| < CONFIG_BUFFER
      requires
        var l := L.Step(Now(), L.Round(poll, w, forkOk));
        l.phase == L.Processing ==> |arrivals| == |l.out| && AllOk(l, arrivals, |arrivals|)
      modifies this`run, this`refs, this`written, this`accepted, this`children, refs.Values, socketsList, outputList
      ensures Valid() && old(run) <= run
      ensures
        var l := L.Step(old(Now()), L.Round(poll, w, forkOk));
        && Now() == (if l.phase == L.Processing then AfterAll(l, arrivals, |arrivals|).(phase := L.Between) else l)
        && |run| == |old(run)| + 1 + if l.phase == L.Processing then |arrivals| + 1 else 0
      ensures Now().phase == if left then L.Left else L.Between
    {
      hide LT.Linked, L.Init, L.StepOk, L.Step, Mirrors, PrintConfig;
      RoundPhase(Now(), poll, w, forkOk);
      var e, _ := BeginRound(poll, w, forkOk);
      left := false;
      if e.NONE? {
        ProcessSockets(arrivals);
        FinishGoesOn(run);
        MirrorsFinish();
        run := run + [Now().(phase := L.Between)];
      } else {
        left := e.ERROR?;
      }
    }

    lemma MirrorsAdvance(l: L.Listener)
      requires Mirrors(l)
      ensures Mirrors(LT.Advance(l))
    {
    }

    lemma MirrorsFinish()
      requires |run| > 0 && Mirrors(Now())
      ensures Mirrors(Now().(phase := L.Between))
    {
    }

    /** sayGoodbyeToAllDispatchers is the machine's farewell. */
    method SayGoodbyeToAllDispatchers(delivered: set<nat>)
      requires Valid() && Now().phase == L.Left
      modifies this`run, this`written
      ensures L.StepOk(old(Now()), L.Goodbye(At(old(Now()).list, delivered)))
      ensures Valid() && run == old(run) + [L.Step(old(Now()), L.Goodbye(At(old(Now()).list, delivered)))]
    {
      hide LT.Linked, L.Init, L.StepOk, L.Step, LT.Inv, Injective, Recorded, Looks, At, L.SayGoodbye;
      ghost var l := Now();
      GoodbyeGoesOn(run, At(l.list, delivered));
      Farewell(l, delivered);
      run := run + [L.Step(l, L.Goodbye(At(l.list, delivered)))];
    }

    method Farewell(ghost l: L.Listener, delivered: set<nat>)
      requires Mirrors(l) && LT.Inv(l) && l.phase == L.Left
      modifies this`written
      ensures forall r :: r in l.list ==> r in l.proc.objs
      ensures Recorded(refs, L.SayGoodbye(l.conns, l.proc.objs, l.list, |l.list|, At(l.list, delivered)), written)
    {
      hide Injective, Recorded, LT.Inv, At;
      ghost var objs, byRef := l.proc.objs, At(l.list, delivered);
      PartingConns(l);
      var list := socketsList.sockets;
      var n := 0;
      while n < |list|
        invariant 0 <= n <= |list| == |l.list|
        invariant Recorded(refs, L.SayGoodbye(l.conns, objs, l.list, n, byRef), written)
      {
        ghost var r := l.list[n];
        ghost var before := L.SayGoodbye(l.conns, objs, l.list, n, byRef);
        SayGoodbyeKeys(l.conns, objs, l.list, n, byRef);
        AtPlace(l.list, delivered, n);
        if IsConnection(list[n]) && n in delivered {
          RecordedOne(refs, before, written, r);
          GoodbyeRecorded(refs, before, written, r);
          written := written[list[n] := written[list[n]] + [L.Farewell]];
        }
        n := n + 1;
      }
    }

    lemma PartingConns(l: L.Listener)
      requires LT.Inv(l) && l.phase == L.Left
      ensures forall r :: r in l.list ==> r in l.proc.objs && (L.IsDispatcher(l.proc.objs[r]) <==> r in l.conns)
      ensures Distinct(l.list)
    {
      hide Owned;
      ListedConns(l);
    }
  }
}
