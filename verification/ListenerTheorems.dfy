/** Whole-run theorems about the listener. */
module ListenerTheorems {
  import opened Sockets
  import opened SocketLists
  import opened Polling
  import opened DescriptorPassing
  import opened Configuration
  import opened Ownership
  import opened Rounds
  import opened ListenerLoop
  import opened ListenerInvariants

  /** After the end no object is left and every instance but the leaked ones is closed. */
  ghost predicate Departed(l: Listener) {
    && l.proc.objs == map[] && l.list == [] && l.out == []
    && Accounted(l.proc)
    && (forall fd :: fd in l.proc.open ==> l.proc.open[fd] in l.proc.leaked)
  }

  ghost predicate Inv(l: Listener) {
    Conns(l) && OneChild(l.children) && if l.phase == Ended then Departed(l) else Structure(l) && AnswersFresh(l)
  }

  lemma StartedInv(tcpFd: int, unixFd: int, forked: bool, pid: nat, names: Settings)
    requires tcpFd != unixFd
    ensures Inv(Started(tcpFd, unixFd, forked, pid, names))
  {
    var l := Started(tcpFd, unixFd, forked, pid, names);
    var p := l.proc;
    assert l.list == [TCP_REF, UNIX_REF];
    assert Owner(p, TCP_REF, tcpFd) && Owner(p, UNIX_REF, unixFd);
    assert p.open[tcpFd] == 0 && p.open[unixFd] == 1;
    assert OnceOpen(p, 0) && OnceOpen(p, 1);
  }

  // ----- every step keeps the invariant

  lemma FreshNames(l: Listener)
    requires Structure(l)
    ensures l.proc.next !in l.proc.objs && l.proc.next !in l.list && l.proc.next !in PINNED
    ensures l.proc.born !in l.proc.leaked
  {
    assert !Referenced(l, l.proc.next);
  }

  lemma RoundInv(l: Listener, poll: Poll, w: Wait, forkOk: bool)
    requires Inv(l) && l.phase == Between && |poll.answers| == |l.list| && WaitOk(l.children, w)
    ensures forall r :: r in l.out ==> r in l.proc.objs
    ensures Inv(BeginRound(l, poll, w, forkOk))
  {
    RoundStructure(l, poll, w, forkOk);
    RoundFresh(l, poll, w, forkOk);
    SameConns(l, BeginRound(l, poll, w, forkOk));
  }

  lemma RoundFresh(l: Listener, poll: Poll, w: Wait, forkOk: bool)
    requires Structure(l) && |poll.answers| == |l.list|
    ensures forall r :: r in l.out ==> r in l.proc.objs
    ensures
      var l' := BeginRound(l, poll, w, forkOk);
      && AnswersFresh(l')
      && (forall r :: r in l'.list ==> r in l'.proc.objs && l'.proc.objs[r].events == NO_EVENTS)
  {
    ClearedEffect(l);
    RoundAnswers(l, Cleared(l), poll, w, forkOk);
  }

  lemma SameConns(l: Listener, l': Listener)
    requires Conns(l) && l'.conns == l.conns && l'.list == l.list && l'.accepted == l.accepted
    requires l'.proc.next >= l.proc.next
    requires l.phase != Ended && l'.phase != Ended && Over(l') == Over(l)
    ensures Conns(l')
  {
    forall r | r in l'.conns ensures ConnOk(l'.conns[r], l'.accepted, Over(l')) {
      assert ConnOk(l.conns[r], l.accepted, Over(l));
    }
  }

  function Advance(l: Listener): Listener {
    l.(cursor := l.cursor + 1)
  }

  lemma AdvanceInv(l: Listener)
    requires Inv(l) && l.phase == Processing && l.cursor < |l.out|
    ensures Inv(Advance(l))
  {
    var l' := Advance(l);
    assert Lists(l');
    assert Objects(l');
    SameConns(l, l');
  }

  lemma AdvanceStructure(l: Listener)
    requires Lists(l) && Objects(l) && l.cursor < |l.out|
    ensures Lists(Advance(l)) && Objects(Advance(l))
  {
  }

  lemma DropStructure(l: Listener, r: Ref, k: nat, l': Listener)
    requires Lists(l) && Objects(l) && l.cursor < |l.out| && r == l.out[l.cursor] && k < |l.list| && l.list[k] == r
    requires DropEffect(Advance(l), r, k, l')
    ensures Lists(l') && Objects(l')
  {
    AdvanceStructure(l);
    DropLists(Advance(l), r, k, l');
    DropObjects(Advance(l), r, k, l');
  }

  lemma DropInv(l: Listener)
    requires Inv(l) && l.phase == Processing && l.cursor < |l.out| && l.out[l.cursor] in l.proc.objs
    requires forall q :: q in l.list ==> q in l.proc.objs
    ensures Inv(DropSocket(Advance(l), l.out[l.cursor]))
  {
    var r, n := l.out[l.cursor], Advance(l);
    var l' := DropSocket(n, r);
    assert r in l.list;
    var k :| 0 <= k < |l.list| && l.list[k] == r;
    DropIsExact(n, r, k);
    DropStructure(l, r, k, l');
    SameConns(l, n);
    DropConns(n, r, k, l');
  }

  lemma AcceptStructure(l: Listener, fd: int, delivered: set<Ref>, l': Listener)
    requires Lists(l) && Objects(l) && AcceptEffect(l, fd, delivered, l')
    ensures Lists(l') && Objects(l')
  {
  }

  lemma AcceptClientInv(l: Listener, a: Accept, delivered: set<Ref>)
    requires Inv(l) && l.phase == Processing && AcceptOk(l.proc, a)
    requires forall r :: r in l.list ==> r in l.proc.objs && r < l.proc.next
    ensures Inv(AcceptClient(l, a, delivered))
  {
    hide Accounted, OpenIsOwned, ObjectsLive, DescriptorsApart, ConnOk;
    var l' := AcceptClient(l, a, delivered);
    FreshNames(l);
    match a
    case Nothing =>
    case HandshakeFailed(fd) =>
      LoseOwned(l.proc, fd);
      assert Lists(l') && Objects(l');
      SameConns(l, l');
    case Accepted(fd) =>
      AcceptClientEffect(l, fd, delivered);
      AcceptStructure(l, fd, delivered, l');
      AcceptConns(l, fd, delivered, l');
  }

  lemma AcceptDispatcherInv(l: Listener, a: Accept, labelOk: bool, bodyOk: bool)
    requires Inv(l) && l.phase == Processing && AcceptOk(l.proc, a)
    ensures Inv(AcceptDispatcher(l, a, labelOk, bodyOk))
  {
    if a.Accepted? {
      var l', config := AcceptDispatcher(l, a, labelOk, bodyOk), ConfigMessages(l.pid, l.names, labelOk, bodyOk);
      FreshNames(l);
      AcceptDispatcherEffect(l, a.fd, labelOk, bodyOk);
      JoinLists(l, a.fd, config, l');
      JoinObjects(l, a.fd, config, l');
      JoinConns(l, a.fd, labelOk, bodyOk, l');
    }
  }

  lemma ProcessInv(l: Listener, ev: Event)
    requires Inv(l) && l.phase == Processing && ProcessOk(l, ev)
    ensures Inv(ProcessSocket(l, ev))
  {
    var r := l.out[l.cursor];
    AdvanceInv(l);
    if IsDropped(l.proc.objs[r].revents) {
      DropInv(l);
    } else if l.proc.objs[r].kind == TCP && l.proc.objs[r].listening {
      AcceptClientInv(Advance(l), ev.accept, ev.delivered);
    } else if l.proc.objs[r].kind == UNIX && l.proc.objs[r].listening {
      AcceptDispatcherInv(Advance(l), ev.accept, ev.labelOk, ev.bodyOk);
    }
  }

  lemma GoodbyeConns(l: Listener, delivered: set<Ref>)
    requires Conns(l) && Lists(l) && l.phase == Left && forall r :: r in l.list ==> r in l.proc.objs
    ensures Conns(l.(phase := Parted, conns := SayGoodbye(l.conns, l.proc.objs, l.list, |l.list|, delivered)))
  {
    hide ConnOk, SayGoodbye;
    SayGoodbyeEffect(l.conns, l.proc.objs, l.list, |l.list|, delivered);
    forall r | r in l.conns
      ensures ConnOk(SayGoodbye(l.conns, l.proc.objs, l.list, |l.list|, delivered)[r], l.accepted, true)
    {
      PartedOk(l.conns[r], l.accepted);
    }
  }

  lemma ReleaseTheRest(p: Process, list: seq<Ref>)
    requires Owned(p) && (forall r :: r in p.objs <==> r in list || r in PINNED)
    ensures TCP_REF in Release(p, list, PINNED).objs && UNIX_REF in Release(p, list, PINNED).objs
    ensures
      var e := Destroy(Destroy(Release(p, list, PINNED), UNIX_REF), TCP_REF);
      && e.objs == map[] && Accounted(e) && e.next == p.next
      && (forall fd :: fd in e.open ==> e.open[fd] in e.leaked)
  {
    hide Release, Accounted, DescriptorsApart;
    ReleaseOwned(p, list, PINNED);
    var q := Release(p, list, PINNED);
    assert forall r :: r in q.objs <==> r in PINNED;
    DestroyOwned(q, UNIX_REF);
    DestroyOwned(Destroy(q, UNIX_REF), TCP_REF);
    var e := Destroy(Destroy(q, UNIX_REF), TCP_REF);
    assert forall r :: r !in e.objs;
    assert forall r, fd :: !Owner(e, r, fd);
  }

  /** The end is always possible after the farewell, and closes everything that is still owned. */
  lemma EndInv(l: Listener, w: Wait)
    requires Inv(l) && l.phase == Parted && WaitOk(l.children, w)
    ensures Closing.requires(l)
    ensures Inv(Step(l, End(w)))
  {
    ClosingDeparts(l);
    EndConns(l, Step(l, End(w)));
  }

  lemma ClosingDeparts(l: Listener)
    requires Structure(l)
    ensures Closing.requires(l)
    ensures
      var e := Closing(l);
      && e.objs == map[] && Accounted(e) && e.next == l.proc.next
      && (forall fd :: fd in e.open ==> e.open[fd] in e.leaked)
  {
    hide Accounted, OpenIsOwned, ObjectsLive, DescriptorsApart, Release, Destroy;
    ClearedEffect(l);
    ReleaseTheRest(Cleared(l), l.list);
  }

  lemma EndConns(l: Listener, l': Listener)
    requires Conns(l) && l.phase == Parted && l'.phase == Ended && l'.list == []
    requires l'.conns == l.conns && l'.accepted == l.accepted && l'.proc.next == l.proc.next
    ensures Conns(l')
  {
    forall r | r in l'.conns ensures ConnOk(l'.conns[r], l'.accepted, Over(l')) {
      assert ConnOk(l.conns[r], l.accepted, Over(l));
    }
  }

  lemma StepInv(l: Listener, i: Input)
    requires Inv(l) && StepOk(l, i)
    ensures Inv(Step(l, i))
  {
    match i
    case Round(poll, w, forkOk) => RoundInv(l, poll, w, forkOk);
    case Handle(ev) => ProcessInv(l, ev);
    case Finish => SameConns(l, Step(l, i)); assert Lists(Step(l, i)); assert Objects(Step(l, i));
    case Interrupt => SameConns(l, Step(l, i)); assert Lists(Step(l, i)); assert Objects(Step(l, i));
    case Goodbye(delivered) => GoodbyeConns(l, delivered); assert Lists(Step(l, i)); assert Objects(Step(l, i));
    case End(w) => EndInv(l, w);
  }

  // ----- runs

  ghost predicate Next(l: Listener, l': Listener) {
    exists i: Input :: StepOk(l, i) && Step(l, i) == l'
  }

  ghost predicate Linked(ls: seq<Listener>, n: nat)
    requires 0 < n < |ls|
  {
    Next(ls[n - 1], ls[n])
  }

  ghost predicate IsRun(ls: seq<Listener>) {
    |ls| > 0 && Init(ls[0]) && forall n :: 0 < n < |ls| ==> Linked(ls, n)
  }

  ghost function Last(ls: seq<Listener>): Listener
    requires |ls| > 0
  {
    ls[|ls| - 1]
  }

  /** A run goes on with any step its last state admits. */
  lemma Extend(ls: seq<Listener>, i: Input)
    requires IsRun(ls) && StepOk(Last(ls), i)
    ensures IsRun(ls + [Step(Last(ls), i)])
  {
    hide StepOk, Step, Init;
    var ls' := ls + [Step(Last(ls), i)];
    assert Next(Last(ls), ls'[|ls|]);
    forall n | 0 < n < |ls'| ensures Linked(ls', n) {
      if n < |ls| {
        assert Linked(ls, n);
      }
    }
  }

  lemma NextInv(l: Listener, l': Listener)
    requires Inv(l) && Next(l, l')
    ensures Inv(l')
  {
    var i: Input :| StepOk(l, i) && Step(l, i) == l';
    StepInv(l, i);
  }

  lemma {:induction false} RunInv(ls: seq<Listener>, n: nat)
    requires IsRun(ls) && n < |ls|
    ensures Inv(ls[n])
  {
    hide Inv, Linked, Init;
    if n == 0 {
      InitInv(ls[0]);
    } else {
      RunInv(ls, n - 1);
      LinkInv(ls, n);
    }
  }

  lemma InitInv(l: Listener)
    requires Init(l)
    ensures Inv(l)
  {
    var tcpFd, unixFd, forked, pid, names :|
      tcpFd != unixFd && tcpFd != FREE_SOCKET && unixFd != FREE_SOCKET &&
        l == Started(tcpFd, unixFd, forked, pid, names);
    StartedInv(tcpFd, unixFd, forked, pid, names);
  }

  lemma LinkInv(ls: seq<Listener>, n: nat)
    requires IsRun(ls) && 0 < n < |ls| && Inv(ls[n - 1])
    ensures Inv(ls[n])
  {
    assert Linked(ls, n);
    NextInv(ls[n - 1], ls[n]);
  }

  /** On every dispatcher connection, in every reachable state: configuration first, then
      descriptors in the order their clients were accepted, then at most one EXIT, last and only
      once the loop is left. Where both config writes succeeded the first two are label and body. */
  lemma MessagesInOrder(ls: seq<Listener>, n: nat, r: Ref)
    requires IsRun(ls) && n < |ls| && r in ls[n].conns
    ensures
      var c := ls[n].conns[r];
      && c.config <= 2 && c.config <= |c.written|
      && (c.config == 2 ==> c.written[0] == Label && c.written[1].Body?)
      && (c.config == 1 ==> c.written[0] == Label)
      && (forall i :: c.config <= i < |c.written| ==>
            c.written[i].Pass? || (c.written[i] == Farewell && i == |c.written| - 1 &&
              (ls[n].phase == Parted || ls[n].phase == Ended)))
      && (forall i, j :: c.config <= i < j < |c.written| && c.written[i].Pass? && c.written[j].Pass? ==>
           c.written[i].client < c.written[j].client)
  {
    RunInv(ls, n);
  }

  /** Fan-out over whole runs: a connection was offered exactly the clients accepted while it was
      listed, each once and in order, and every descriptor written to it is one of those. */
  lemma OfferedExactlyWhileListed(ls: seq<Listener>, n: nat, r: Ref)
    requires IsRun(ls) && n < |ls| && r in ls[n].conns
    ensures
      var c, l := ls[n].conns[r], ls[n];
      && c.since <= Upto(c, l.accepted) <= l.accepted
      && c.offered == Range(c.since, Upto(c, l.accepted))
      && (l.phase != Ended ==> (c.left.None? <==> r in l.list))
      && (forall i :: 0 <= i < |c.written| && c.written[i].Pass? ==> c.written[i].client in c.offered)
  {
    RunInv(ls, n);
    var c, l := ls[n].conns[r], ls[n];
    forall i | 0 <= i < |c.written| && c.written[i].Pass?
      ensures c.written[i].client in c.offered
    {
      assert c.offered[c.written[i].client - c.since] == c.written[i].client;
    }
  }

  /** The connections that hold a descriptor of a client. */
  ghost function Holders(conns: map<Ref, Conn>, client: nat): set<Ref> {
    set r | r in conns && Holds(conns[r], client)
  }

  ghost predicate Holds(c: Conn, client: nat) {
    exists i :: 0 <= i < |c.written| && c.written[i].Pass? && c.written[i].client == client
  }

  /** One accepted client: it is offered once to every listed dispatcher connection and to no
      other, a copy is passed to exactly those whose send succeeds, and the listener's own copy is
      closed, so the copies in flight are exactly the successful sends. */
  lemma FanOutConserves(ls: seq<Listener>, n: nat, fd: int, delivered: set<Ref>)
    requires IsRun(ls) && n < |ls| && ls[n].phase == Processing && 0 <= fd <= INT_MAX && fd !in ls[n].proc.open
    ensures forall r :: r in ls[n].list ==> r in ls[n].proc.objs && r < ls[n].proc.next
    ensures
      var l := ls[n];
      var l' := AcceptClient(l, Accepted(fd), delivered);
      && l'.conns.Keys == l.conns.Keys
      && (forall r :: r in l.conns ==>
           l'.conns[r].offered == if r in l.list then l.conns[r].offered + [l.accepted] else l.conns[r].offered)
      && Holders(l'.conns, l.accepted) == (set r | r in l.conns && r in l.list && r in delivered)
      && l'.proc.closed == l.proc.closed + [l.proc.born] && l'.proc.objs == l.proc.objs && l'.proc.open == l.proc.open
  {
    hide Accounted, OpenIsOwned, DescriptorsApart, ConnOk, FanOut, Holders;
    RunInv(ls, n);
    var l := ls[n];
    FreshNames(l);
    assert forall r :: r in l.list ==> Referenced(l, r);
    AcceptClientEffect(l, fd, delivered);
    HoldersAfter(l, fd, delivered, AcceptClient(l, Accepted(fd), delivered));
  }

  lemma HoldersAfter(l: Listener, fd: int, delivered: set<Ref>, l': Listener)
    requires AcceptEffect(l, fd, delivered, l') && (forall r :: r in l.conns ==> ConnOk(l.conns[r], l.accepted, false))
    ensures Holders(l'.conns, l.accepted) == (set r | r in l.conns && r in l.list && r in delivered)
  {
    forall r | r in l.conns
      ensures Holds(l'.conns[r], l.accepted) <==> r in l.list && r in delivered
    {
      NotYetHeld(l.conns[r], l.accepted);
      if r in l.list && r in delivered {
        assert l'.conns[r].written[|l.conns[r].written|] == Pass(fd, l.accepted);
      } else {
        assert l'.conns[r].written == l.conns[r].written;
      }
    }
  }

  lemma NotYetHeld(c: Conn, accepted: nat)
    requires ConnOk(c, accepted, false)
    ensures !Holds(c, accepted)
  {
  }

  /** In every reachable state of the loop the listed descriptors are pairwise distinct, the list
      fits the poller's array, every open descriptor but the leaked ones has exactly one owner, and nothing was
      closed twice. */
  lemma ListenerOwnsItsDescriptors(ls: seq<Listener>, n: nat)
    requires IsRun(ls) && n < |ls| && ls[n].phase != Ended
    ensures forall r :: r in ls[n].list ==> r in ls[n].proc.objs
    ensures
      var l, p := ls[n], ls[n].proc;
      && |l.list| <= CAPACITY <= MAX_SOCKETS_TO_POLL && Distinct(l.list) && Distinct(Fds(p.objs, l.list))
      && (forall fd :: fd in p.open && p.open[fd] !in p.leaked ==>
           exists r :: Owner(p, r, fd) && forall q :: Owner(p, q, fd) ==> q == r)
      && (forall i :: 0 <= i < p.born ==> (i in p.closed <==> !OnceOpen(p, i)))
      && (forall i, j :: 0 <= i < j < |p.closed| ==> p.closed[i] != p.closed[j])
      && p.stray == []
  {
    RunInv(ls, n);
    var l, p := ls[n], ls[n].proc;
    assert forall r :: r in l.list ==> Referenced(l, r);
    DistinctFds(p.objs, l.list);
    forall fd | fd in p.open && p.open[fd] !in p.leaked
      ensures exists r :: Owner(p, r, fd) && forall q :: Owner(p, q, fd) ==> q == r
    {
      ExactlyOneOwner(p, fd);
    }
  }

  /** Once the listener has ended no object is left, every descriptor it ever obtained is closed but
      those of failed handshakes, none was closed twice, and no close call missed. */
  lemma EverythingIsClosedAtTheEnd(ls: seq<Listener>, n: nat)
    requires IsRun(ls) && n < |ls| && ls[n].phase == Ended
    ensures
      var p := ls[n].proc;
      && p.objs == map[] && ls[n].list == [] && ls[n].out == []
      && (forall i :: 0 <= i < p.born ==> (i in p.closed <==> !OnceOpen(p, i)))
      && (forall fd :: fd in p.open ==> p.open[fd] in p.leaked)
      && (forall i, j :: 0 <= i < j < |p.closed| ==> p.closed[i] != p.closed[j])
      && p.stray == []
  {
    hide Conns;
    RunInv(ls, n);
  }

  /** In every reachable state a dropped socket leaves the list, alone and wherever it stands, and
      its connection is noted as left, unless the list is full; then nothing changes. */
  lemma DroppedSocketLeaves(ls: seq<Listener>, n: nat)
    requires IsRun(ls) && n < |ls| && ls[n].phase == Processing && ls[n].cursor < |ls[n].out|
    ensures ls[n].out[ls[n].cursor] in ls[n].proc.objs && forall q :: q in ls[n].list ==> q in ls[n].proc.objs
    ensures
      var l, r := Advance(ls[n]), ls[n].out[ls[n].cursor];
      exists k :: 0 <= k < |l.list| && l.list[k] == r && DropEffect(l, r, k, DropSocket(l, r))
  {
    hide DropEffect, DropSocket, Conns, Accounted, OpenIsOwned, ObjectsLive, DescriptorsApart;
    RunInv(ls, n);
    var l, r := ls[n], ls[n].out[ls[n].cursor];
    assert Referenced(l, r) && forall q :: q in l.list ==> Referenced(l, q);
    var k :| 0 <= k < |l.list| && l.list[k] == r;
    DropIsExact(Advance(l), r, k);
  }

  // ----- the turn of a polled socket, in the flags of the poll and the values of the kernel

  lemma TurnEnabled(ls: seq<Listener>, n: nat, ev: Event)
    requires IsRun(ls) && n < |ls| && ls[n].phase == Processing && ls[n].cursor < |ls[n].out|
    requires AcceptOk(ls[n].proc, ev.accept)
    ensures ProcessOk(ls[n], ev) && ls[n].out[ls[n].cursor] in ls[n].proc.objs
  {
    hide Inv;
    NeverStuck(ls, n, ev);
  }

  /** In every reachable state: a polled socket whose result holds POLLERR, POLLHUP, POLLNVAL or
      POLLRDHUP leaves a list that is not full, itself and alone; nobody is accepted and nothing is
      written. A full list stays. */
  lemma DroppedTurn(ls: seq<Listener>, n: nat, ev: Event)
    requires IsRun(ls) && n < |ls| && ls[n].phase == Processing && ls[n].cursor < |ls[n].out|
    requires AcceptOk(ls[n].proc, ev.accept) && ls[n].out[ls[n].cursor] in ls[n].proc.objs
    requires
      var flags := ls[n].proc.objs[ls[n].out[ls[n].cursor]].revents;
      POLLERR in flags || POLLHUP in flags || POLLNVAL in flags || POLLRDHUP in flags
    ensures ProcessOk(ls[n], ev)
    ensures
      var l, l', r := ls[n], ProcessSocket(ls[n], ev), ls[n].out[ls[n].cursor];
      && l'.proc == l.proc && l'.accepted == l.accepted && l'.numbers == l.numbers && l'.conns.Keys == l.conns.Keys
      && (forall q :: q in l.conns ==>
            l'.conns[q].written == l.conns[q].written && l'.conns[q].offered == l.conns[q].offered)
      && if |l.list| == 100 then l'.list == l.list
         else exists k :: 0 <= k < |l.list| && l.list[k] == r && l'.list == l.list[..k] + l.list[k + 1..]
  {
    hide Inv, DropSocket;
    TurnEnabled(ls, n, ev);
    DroppedSocketLeaves(ls, n);
    var l, r := Advance(ls[n]), ls[n].out[ls[n].cursor];
    var k :| 0 <= k < |l.list| && l.list[k] == r && DropEffect(l, r, k, DropSocket(l, r));
  }

  /** A turn without any of these flags drops nobody. */
  lemma KeptTurn(ls: seq<Listener>, n: nat, ev: Event)
    requires IsRun(ls) && n < |ls| && ls[n].phase == Processing && ls[n].cursor < |ls[n].out|
    requires AcceptOk(ls[n].proc, ev.accept) && ls[n].out[ls[n].cursor] in ls[n].proc.objs
    requires
      var flags := ls[n].proc.objs[ls[n].out[ls[n].cursor]].revents;
      POLLERR !in flags && POLLHUP !in flags && POLLNVAL !in flags && POLLRDHUP !in flags
    ensures ProcessOk(ls[n], ev) && ls[n].list <= ProcessSocket(ls[n], ev).list
    ensures ls[n].out[ls[n].cursor] !in PINNED ==> ProcessSocket(ls[n], ev) == Advance(ls[n])
  {
    hide Conns, Owned, FanOut, Destroy;
    TurnEnabled(ls, n, ev);
    RunInv(ls, n);
  }

  /** The TCP listener's turn without such a flag: an accepted client is offered to every listed
      connection and its descriptor written to those it reaches; then the listener's own is closed.
      A failed handshake leaves its descriptor open; otherwise nothing happens. */
  lemma ClientTurn(ls: seq<Listener>, n: nat, ev: Event)
    requires IsRun(ls) && n < |ls| && ls[n].phase == Processing && ls[n].cursor < |ls[n].out|
    requires AcceptOk(ls[n].proc, ev.accept) && ls[n].out[ls[n].cursor] == TCP_REF
    requires TCP_REF in ls[n].proc.objs
    requires
      var flags := ls[n].proc.objs[TCP_REF].revents;
      POLLERR !in flags && POLLHUP !in flags && POLLNVAL !in flags && POLLRDHUP !in flags
    ensures ProcessOk(ls[n], ev)
    ensures
      var l, l' := ls[n], ProcessSocket(ls[n], ev);
      match ev.accept
      case Nothing => l' == Advance(l)
      case HandshakeFailed(fd) =>
        && l' == Advance(l).(proc := l'.proc) && l'.proc.objs == l.proc.objs && l'.proc.closed == l.proc.closed
        && l'.proc.leaked == l.proc.leaked + {l.proc.born}
      case Accepted(fd) =>
        && l'.list == l.list && l'.accepted == l.accepted + 1 && l'.numbers == l.numbers + [fd]
        && l'.proc.objs == l.proc.objs && l'.proc.open == l.proc.open && l'.proc.closed == l.proc.closed + [l.proc.born]
        && l'.conns.Keys == l.conns.Keys
        && (forall q :: q in l.conns ==>
              && l'.conns[q].offered == (if q in l.list then l.conns[q].offered + [l.accepted] else l.conns[q].offered)
              && l'.conns[q].written == if q in l.list && q in ev.delivered
                                        then l.conns[q].written + [Pass(fd, l.accepted)] else l.conns[q].written)
  {
    hide Conns, Accounted, OpenIsOwned, ObjectsLive, DescriptorsApart, FanOut, Destroy;
    TurnEnabled(ls, n, ev);
    RunInv(ls, n);
    if ev.accept.Accepted? {
      ClientTurnOf(ls[n], ev);
    }
  }

  lemma ClientTurnOf(l: Listener, ev: Event)
    requires Inv(l) && l.phase == Processing && ProcessOk(l, ev) && l.out[l.cursor] == TCP_REF && ev.accept.Accepted?
    requires
      var flags := l.proc.objs[TCP_REF].revents;
      POLLERR !in flags && POLLHUP !in flags && POLLNVAL !in flags && POLLRDHUP !in flags
    ensures AcceptEffect(Advance(l), ev.accept.fd, ev.delivered, ProcessSocket(l, ev))
  {
    hide Accounted, OpenIsOwned, ObjectsLive, DescriptorsApart, AcceptClient, AcceptEffect, AcceptDispatcher,
         DropSocket;
    AdvanceInv(l);
    FreshNames(Advance(l));
    AcceptClientEffect(Advance(l), ev.accept.fd, ev.delivered);
  }

  /** The UNIX listener's turn without such a flag: an accepted dispatcher is listed unless the list
      is full, and what it is written depends on the two writes. */
  lemma DispatcherTurn(ls: seq<Listener>, n: nat, ev: Event)
    requires IsRun(ls) && n < |ls| && ls[n].phase == Processing && ls[n].cursor < |ls[n].out|
    requires AcceptOk(ls[n].proc, ev.accept) && ls[n].out[ls[n].cursor] == UNIX_REF
    requires UNIX_REF in ls[n].proc.objs
    requires
      var flags := ls[n].proc.objs[UNIX_REF].revents;
      POLLERR !in flags && POLLHUP !in flags && POLLNVAL !in flags && POLLRDHUP !in flags
    ensures ProcessOk(ls[n], ev)
    ensures !ev.accept.Accepted? ==> ProcessSocket(ls[n], ev) == Advance(ls[n])
    ensures
      var l, l', r := ls[n], ProcessSocket(ls[n], ev), ls[n].proc.next;
      ev.accept.Accepted? ==>
        && l'.accepted == l.accepted && l'.numbers == l.numbers
        && l'.list == (if |l.list| == 100 then l.list else l.list + [r])
        && r !in l.conns && l'.conns.Keys == l.conns.Keys + {r}
        && (forall q :: q in l.conns ==> l'.conns[q] == l.conns[q])
        && (!ev.labelOk ==> l'.conns[r].written == [])
        && (ev.labelOk && !ev.bodyOk ==> l'.conns[r].written == [Label])
        && (ev.labelOk && ev.bodyOk ==> l'.conns[r].written == [Label, Body(PrintConfig(l.pid, l.names))])
        && (if |l.list| == 100
            then l'.proc.closed == l.proc.closed + [l.proc.born]
            else r in l'.proc.objs && l'.proc.objs[r].fd == ev.accept.fd && l'.proc.objs[r].kind == UNIX)
  {
    hide Accounted, OpenIsOwned, ObjectsLive, DescriptorsApart, PrintConfig;
    TurnEnabled(ls, n, ev);
    RunInv(ls, n);
    if ev.accept.Accepted? {
      DispatcherTurnOf(ls[n], ev);
    }
  }

  lemma DispatcherTurnOf(l: Listener, ev: Event)
    requires Inv(l) && l.phase == Processing && ProcessOk(l, ev) && l.out[l.cursor] == UNIX_REF && ev.accept.Accepted?
    requires
      var flags := l.proc.objs[UNIX_REF].revents;
      POLLERR !in flags && POLLHUP !in flags && POLLNVAL !in flags && POLLRDHUP !in flags
    ensures
      JoinEffect(Advance(l), ev.accept.fd, ConfigMessages(l.pid, l.names, ev.labelOk, ev.bodyOk), ProcessSocket(l, ev))
    ensures l.proc.next !in l.conns
    ensures |l.list| == CAPACITY ==> ProcessSocket(l, ev).proc.closed == l.proc.closed + [l.proc.born]
  {
    hide Accounted, OpenIsOwned, ObjectsLive, DescriptorsApart, JoinEffect, AcceptClient, DropSocket, ConfigMessages;
    AdvanceInv(l);
    FreshNames(Advance(l));
    AcceptDispatcherEffect(Advance(l), ev.accept.fd, ev.labelOk, ev.bodyOk);
    BriefObject(l.proc, ev.accept.fd, UNIX);
  }

  /** A round's beginning in any state, in the return value of poll and errno: only a failed poll
      leaves the loop, and only a timeout supervises the child, where a reaped one is replaced by a
      fork that succeeds. */
  lemma RoundLaw(l: Listener, poll: Poll, w: Wait, forkOk: bool)
    requires StepOk(l, Round(poll, w, forkOk))
    ensures
      var l' := Step(l, Round(poll, w, forkOk));
      && (l'.phase == Left <==> poll.ret == -1 && !poll.interrupted)
      && (l'.phase == Between <==> poll.ret == 0 || (poll.ret == -1 && poll.interrupted))
      && (l'.phase == Processing <==> poll.ret != 0 && poll.ret != -1)
      && l'.children.reaped == l.children.reaped + (if poll.ret == 0 && w.Reaped? then 1 else 0)
      && l'.children.forked == l.children.forked + if poll.ret == 0 && w.Reaped? && forkOk then 1 else 0
  {
    hide Selected, PutAll, Release;
  }

  // ----- the number a client is passed under

  /** Every descriptor written is the one its client was accepted under. */
  ghost predicate Numbered(conns: map<Ref, Conn>, numbers: seq<int>) {
    forall r :: r in conns ==> NumberedConn(conns[r].written, numbers)
  }

  ghost predicate NumberedConn(written: seq<Message>, numbers: seq<int>) {
    forall i :: 0 <= i < |written| && written[i].Pass? ==>
      written[i].client < |numbers| && written[i].fd == numbers[written[i].client]
  }

  ghost predicate NumbersKept(l: Listener) {
    |l.numbers| == l.accepted && Numbered(l.conns, l.numbers)
  }

  lemma NumberedMore(written: seq<Message>, numbers: seq<int>, fd: int)
    requires NumberedConn(written, numbers)
    ensures NumberedConn(written, numbers + [fd]) && NumberedConn(written + [Pass(fd, |numbers|)], numbers + [fd])
  {
  }

  lemma AcceptNumbers(l: Listener, fd: int, delivered: set<Ref>, l': Listener)
    requires NumbersKept(l) && AcceptEffect(l, fd, delivered, l')
    ensures NumbersKept(l')
  {
    hide NumberedConn;
    forall r | r in l'.conns ensures NumberedConn(l'.conns[r].written, l'.numbers) {
      NumberedMore(l.conns[r].written, l.numbers, fd);
      assert l.conns[r].written + [] == l.conns[r].written;
    }
  }

  lemma ConfigNumbers(pid: nat, names: Settings, labelOk: bool, bodyOk: bool, numbers: seq<int>)
    ensures NumberedConn(ConfigMessages(pid, names, labelOk, bodyOk), numbers)
  {
  }

  lemma GoodbyeNumbers(l: Listener, delivered: set<Ref>)
    requires NumbersKept(l) && Lists(l) && forall r :: r in l.list ==> r in l.proc.objs
    ensures Numbered(SayGoodbye(l.conns, l.proc.objs, l.list, |l.list|, delivered), l.numbers)
  {
    SayGoodbyeEffect(l.conns, l.proc.objs, l.list, |l.list|, delivered);
  }

  lemma ProcessNumbers(l: Listener, ev: Event)
    requires Inv(l) && NumbersKept(l) && l.phase == Processing && ProcessOk(l, ev)
    ensures NumbersKept(ProcessSocket(l, ev))
  {
    hide Accounted, OpenIsOwned, ObjectsLive, DescriptorsApart, Conns, NumberedConn, FanOut, ConfigMessages,
         Construct, Destroy;
    var r, n := l.out[l.cursor], Advance(l);
    AdvanceInv(l);
    FreshNames(n);
    if IsDropped(l.proc.objs[r].revents) {
    } else if l.proc.objs[r].kind == TCP && l.proc.objs[r].listening {
      if ev.accept.Accepted? {
        PastConns(n);
        AcceptClientEffect(n, ev.accept.fd, ev.delivered);
        AcceptNumbers(n, ev.accept.fd, ev.delivered, AcceptClient(n, ev.accept, ev.delivered));
      }
    } else if l.proc.objs[r].kind == UNIX && l.proc.objs[r].listening {
      ConfigNumbers(l.pid, l.names, ev.labelOk, ev.bodyOk, l.numbers);
    }
  }

  lemma PastConns(l: Listener)
    requires Conns(l)
    ensures forall r :: r in l.conns ==> r !in PINNED && r < l.proc.next
  {
  }

  lemma NextNumbers(l: Listener, l': Listener)
    requires Inv(l) && NumbersKept(l) && Next(l, l')
    ensures NumbersKept(l')
  {
    hide Conns, Owned, ProcessSocket, BeginRound, SayGoodbye, Closing, NumberedConn;
    var i: Input :| StepOk(l, i) && Step(l, i) == l';
    match i
    case Round(poll, w, forkOk) => RoundKeepsNumbers(l, poll, w, forkOk);
    case Handle(ev) => ProcessNumbers(l, ev);
    case Finish =>
    case Interrupt =>
    case Goodbye(delivered) => GoodbyeNumbers(l, delivered);
    case End(w) =>
  }

  lemma RoundKeepsNumbers(l: Listener, poll: Poll, w: Wait, forkOk: bool)
    requires (forall r :: r in l.out ==> r in l.proc.objs) && |poll.answers| == |l.list|
    ensures
      var l' := BeginRound(l, poll, w, forkOk);
      l'.conns == l.conns && l'.numbers == l.numbers && l'.accepted == l.accepted
  {
    hide Selected, PutAll, Release;
  }

  lemma {:induction false} RunNumbers(ls: seq<Listener>, n: nat)
    requires IsRun(ls) && n < |ls|
    ensures NumbersKept(ls[n])
  {
    hide Inv, Next, NumberedConn;
    if n == 0 {
      FirstNumbers(ls[0]);
    } else {
      RunNumbers(ls, n - 1);
      RunInv(ls, n - 1);
      assert Linked(ls, n);
      NextNumbers(ls[n - 1], ls[n]);
    }
  }

  lemma FirstNumbers(l: Listener)
    requires Init(l)
    ensures NumbersKept(l)
  {
  }

  /** In every run a client's descriptor is passed under the very number the client was accepted under. */
  lemma PassedUnderItsNumber(ls: seq<Listener>, n: nat, r: Ref, i: nat)
    requires IsRun(ls) && n < |ls| && r in ls[n].conns && i < |ls[n].conns[r].written|
    ensures |ls[n].numbers| == ls[n].accepted
    ensures
      var m := ls[n].conns[r].written[i];
      m.Pass? ==> m.client < ls[n].accepted && m.fd == ls[n].numbers[m.client]
  {
    RunNumbers(ls, n);
  }

  /** Children forked minus children reaped is always 0 or 1, failed forks included. */
  lemma AtMostOneChild(ls: seq<Listener>, n: nat)
    requires IsRun(ls) && n < |ls|
    ensures 0 <= ls[n].children.forked - ls[n].children.reaped <= 1
  {
    RunInv(ls, n);
  }

  lemma NextWithoutChild(l: Listener, l': Listener)
    requires Next(l, l') && l.children.forked == l.children.reaped
    ensures l'.children == l.children
  {
    var i: Input :| StepOk(l, i) && Step(l, i) == l';
  }

  /** Once a fork has failed there is no child to reap, and so no dispatcher is ever started again. */
  lemma {:induction false} NoChildForever(ls: seq<Listener>, m: nat, n: nat)
    requires IsRun(ls) && m <= n < |ls| && ls[m].children.forked == ls[m].children.reaped
    ensures ls[n].children == ls[m].children
  {
    if m == n {
    } else {
      NoChildForever(ls, m, n - 1);
      assert Linked(ls, n);
      NextWithoutChild(ls[n - 1], ls[n]);
    }
  }

  /** The listener's rounds: a socket still to be processed is listed and carries this round's poll
      answer, and after any poll outcome no listed socket has a requested event left. */
  lemma RoundsAreFresh(ls: seq<Listener>, n: nat, poll: Poll, w: Wait, forkOk: bool)
    requires IsRun(ls) && n < |ls| && ls[n].phase != Ended && |poll.answers| == |ls[n].list|
    ensures forall r :: r in ls[n].out ==> r in ls[n].proc.objs
    ensures
      var l := ls[n];
      l.phase == Processing ==> forall i :: l.cursor <= i < |l.out| ==>
        l.out[i] in l.list && l.out[i] in l.answers && l.proc.objs[l.out[i]].revents == l.answers[l.out[i]]
    ensures
      var l' := BeginRound(ls[n], poll, w, forkOk);
      forall r :: r in l'.list ==> r in l'.proc.objs && l'.proc.objs[r].events == NO_EVENTS
  {
    RunInv(ls, n);
    RoundFresh(ls[n], poll, w, forkOk);
  }

  /** Nothing but the kernel's contract restrains a reachable listener. */
  lemma NeverStuck(ls: seq<Listener>, n: nat, ev: Event)
    requires IsRun(ls) && n < |ls|
    ensures
      var l := ls[n];
      && (l.phase == Between ==> forall r :: r in l.out ==> r in l.proc.objs)
      && (l.phase == Processing && l.cursor < |l.out| && AcceptOk(l.proc, ev.accept) ==> ProcessOk(l, ev))
      && (l.phase == Left ==> forall r :: r in l.list ==> r in l.proc.objs)
      && (l.phase == Parted ==> Closing.requires(l))
  {
    RunInv(ls, n);
    var l := ls[n];
    if l.phase == Parted {
      EndInv(l, NotYet);
    }
  }

  lemma NextWhenFull(l: Listener, l': Listener)
    requires Next(l, l') && l'.phase != Ended
    ensures l.phase != Ended
    ensures |l.list| == CAPACITY ==> l'.list == l.list
  {
    var i: Input :| StepOk(l, i) && Step(l, i) == l';
  }

  /** Once the listener's list is full it never changes again: dropped dispatchers stay listed and
      new ones are turned away. */
  lemma {:induction false} FullForever(ls: seq<Listener>, m: nat, n: nat)
    requires IsRun(ls) && m <= n < |ls| && |ls[m].list| == CAPACITY && ls[n].phase != Ended
    ensures ls[n].list == ls[m].list && ls[m].phase != Ended
  {
    if m == n {
    } else {
      assert Linked(ls, n);
      NextWhenFull(ls[n - 1], ls[n]);
      FullForever(ls, m, n - 1);
    }
  }
}
