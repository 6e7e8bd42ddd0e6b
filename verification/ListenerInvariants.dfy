/** What every step of the listener keeps. */
module ListenerInvariants {
  import opened Sockets
  import opened SocketLists
  import opened Polling
  import opened DescriptorPassing
  import opened Ownership
  import opened Rounds
  import opened ListenerLoop

  // ----- structure

  ghost predicate Referenced(l: Listener, r: Ref) {
    r in PINNED || r in l.list || r in l.out
  }

  ghost predicate Lists(l: Listener) {
    && |l.list| <= CAPACITY && |l.out| <= CAPACITY && l.cursor <= |l.out|
    && Distinct(l.list) && Distinct(l.out)
    && (l.phase == Processing ==> forall i :: l.cursor <= i < |l.out| ==> l.out[i] in l.list)
  }

  ghost predicate Objects(l: Listener) {
    && (forall r :: r in l.proc.objs <==> Referenced(l, r))
    && l.proc.objs[TCP_REF].kind == TCP && l.proc.objs[TCP_REF].listening
    && l.proc.objs[UNIX_REF].kind == UNIX && l.proc.objs[UNIX_REF].listening
    && (forall r :: r in l.proc.objs && r !in PINNED ==> IsDispatcher(l.proc.objs[r]))
    && (forall r :: r in l.proc.objs ==> r < l.proc.next)
    && (forall i :: i in l.proc.leaked ==> i < l.proc.born)
  }

  // ----- connections

  function Range(a: nat, b: nat): (r: seq<nat>)
    requires a <= b
    ensures |r| == b - a
  {
    seq(b - a, i requires 0 <= i => a + i)
  }

  lemma RangeGrows(a: nat, b: nat)
    requires a <= b
    ensures Range(a, b + 1) == Range(a, b) + [b]
  {
  }

  /** The clients accepted while the connection was listed. */
  function Upto(c: Conn, accepted: nat): nat {
    if c.left.Some? then c.left.value else accepted
  }

  /** Configuration first, then descriptors in the order their clients were accepted, then at most one EXIT, last. */
  ghost predicate InOrder(c: Conn, over: bool) {
    && c.config <= 2 && c.config <= |c.written|
    && (c.config >= 1 ==> c.written[0] == Label)
    && (c.config == 2 ==> c.written[1].Body?)
    && (forall i :: c.config <= i < |c.written| ==>
         c.written[i].Pass? || (c.written[i] == Farewell && i == |c.written| - 1 && over))
    && (forall i, j :: c.config <= i < j < |c.written| && c.written[i].Pass? && c.written[j].Pass? ==>
          c.written[i].client < c.written[j].client)
  }

  ghost predicate PassesInSpan(c: Conn, accepted: nat) {
    forall i :: 0 <= i < |c.written| && c.written[i].Pass? ==>
      && c.since <= c.written[i].client < Upto(c, accepted) && 0 <= c.written[i].fd <= INT_MAX
  }

  ghost predicate OfferedInSpan(c: Conn, accepted: nat) {
    c.since <= Upto(c, accepted) <= accepted && c.offered == Range(c.since, Upto(c, accepted))
  }

  ghost predicate ConnOk(c: Conn, accepted: nat, over: bool) {
    InOrder(c, over) && PassesInSpan(c, accepted) && OfferedInSpan(c, accepted)
  }

  ghost predicate Over(l: Listener) {
    l.phase == Parted || l.phase == Ended
  }

  ghost predicate Conns(l: Listener) {
    && (forall r :: r in l.conns ==> r !in PINNED && r < l.proc.next && ConnOk(l.conns[r], l.accepted, Over(l)))
    && (l.phase != Ended ==> forall r :: r in l.conns ==> (l.conns[r].left.None? <==> r in l.list))
    && (forall r :: r in l.list && r !in PINNED ==> r in l.conns)
  }

  /** Forked minus reaped dispatcher children is 0 or 1. */
  ghost predicate OneChild(c: Children) {
    c.reaped <= c.forked <= c.reaped + 1
  }

  ghost predicate Structure(l: Listener) {
    Lists(l) && Objects(l) && Owned(l.proc)
  }

  // ----- rounds

  lemma ClearedEffect(l: Listener)
    requires Structure(l)
    ensures forall r :: r in l.out ==> r in l.proc.objs
    ensures
      var p := Cleared(l);
      && Owned(p) && Released(l.proc, p, l.out, Elements(l.list) + PINNED)
      && (forall r :: r in p.objs <==> r in l.list || r in PINNED)
      && (forall r :: r in p.objs ==> r in l.proc.objs && p.objs[r] == l.proc.objs[r])
  {
    hide Owned, Release;
    ReleaseOwned(l.proc, l.out, Elements(l.list) + PINNED);
    assert forall r :: Dies(l.out, Elements(l.list) + PINNED, r) <==> r in l.out && r !in l.list && r !in PINNED;
  }

  lemma ClearedOwned(l: Listener)
    requires Objects(l) && Owned(l.proc)
    ensures forall r :: r in l.out ==> r in l.proc.objs
    ensures Owned(Cleared(l))
  {
    ReleaseOwned(l.proc, l.out, Elements(l.list) + PINNED);
  }

  lemma RoundOwned(p: Process, list: seq<Ref>, bits: map<Ref, Events>)
    requires Owned(p)
    ensures Owned(p.(objs := Polled(Interested(p.objs, list), bits)))
  {
    FieldsOwned(p, p.(objs := Polled(Interested(p.objs, list), bits)));
  }

  lemma RoundLists(l: Listener, p: Process, poll: Poll, w: Wait, forkOk: bool)
    requires Lists(l) && |poll.answers| == |l.list|
    ensures Lists(PollRound(l, p, poll, w, forkOk))
    ensures PollRound(l, p, poll, w, forkOk).out ==
        if Polling.Outcome(poll.ret, poll.interrupted).NONE? then Selected(l.list, poll.answers) else []
  {
    var sel := Selected(l.list, poll.answers);
    NoPutRefused(CAPACITY, sel);
    DistinctInput(l.list, poll.answers);
  }

  lemma RoundObjects(l: Listener, p: Process, poll: Poll, w: Wait, forkOk: bool)
    requires Lists(l) && Objects(l) && |poll.answers| == |l.list|
    requires (forall r :: r in p.objs <==> r in l.list || r in PINNED) && p.next == l.proc.next
    requires p.born == l.proc.born && p.leaked == l.proc.leaked
    requires forall r :: r in p.objs ==> r in l.proc.objs && p.objs[r] == l.proc.objs[r]
    ensures Objects(PollRound(l, p, poll, w, forkOk))
  {
    hide Selected, PutAll, Distinct;
    RoundLists(l, p, poll, w, forkOk);
  }

  lemma RoundStructure(l: Listener, poll: Poll, w: Wait, forkOk: bool)
    requires Structure(l) && |poll.answers| == |l.list|
    ensures forall r :: r in l.out ==> r in l.proc.objs
    ensures Structure(BeginRound(l, poll, w, forkOk))
    ensures BeginRound(l, poll, w, forkOk).proc.next == l.proc.next
  {
    RoundShape(l, poll, w, forkOk);
    RoundProcess(l, poll, w, forkOk);
  }

  lemma RoundProcess(l: Listener, poll: Poll, w: Wait, forkOk: bool)
    requires Structure(l) && |poll.answers| == |l.list|
    ensures forall r :: r in l.out ==> r in l.proc.objs
    ensures Owned(BeginRound(l, poll, w, forkOk).proc)
  {
    ClearedOwned(l);
    RoundProcessFrom(l, Cleared(l), poll, w, forkOk);
  }

  lemma RoundProcessFrom(l: Listener, p: Process, poll: Poll, w: Wait, forkOk: bool)
    requires Owned(p) && |poll.answers| == |l.list|
    ensures Owned(PollRound(l, p, poll, w, forkOk).proc)
  {
    RoundOwned(p, l.list, Bits(l.list, poll.answers, Polling.Outcome(poll.ret, poll.interrupted)));
  }

  lemma RoundShape(l: Listener, poll: Poll, w: Wait, forkOk: bool)
    requires Structure(l) && |poll.answers| == |l.list|
    ensures forall r :: r in l.out ==> r in l.proc.objs
    ensures Lists(BeginRound(l, poll, w, forkOk)) && Objects(BeginRound(l, poll, w, forkOk))
    ensures BeginRound(l, poll, w, forkOk).proc.next == l.proc.next
  {
    ClearedEffect(l);
    RoundLists(l, Cleared(l), poll, w, forkOk);
    RoundObjects(l, Cleared(l), poll, w, forkOk);
  }

  /** The result bits of every socket still to be processed are this round's poll answers. */
  ghost predicate AnswersFresh(l: Listener) {
    l.phase == Processing ==> forall i :: l.cursor <= i < |l.out| ==>
      l.out[i] in l.answers && l.out[i] in l.proc.objs && l.proc.objs[l.out[i]].revents == l.answers[l.out[i]]
  }

  lemma RoundAnswers(l: Listener, p: Process, poll: Poll, w: Wait, forkOk: bool)
    requires Lists(l) && |poll.answers| == |l.list| && (forall r :: r in l.list ==> r in p.objs)
    ensures
      var l' := PollRound(l, p, poll, w, forkOk);
      && AnswersFresh(l')
      && (forall r :: r in l.list ==> l'.proc.objs[r].events == NO_EVENTS)
  {
    hide Selected, PutAll, Distinct, Bits;
    RoundLists(l, p, poll, w, forkOk);
    assert forall r :: r in Selected(l.list, poll.answers) ==> r in l.list;
  }

  // ----- fan-out

  ghost predicate Addressed(objs: map<Ref, Sock>, list: seq<Ref>, n: nat, r: Ref)
    requires n <= |list| && forall q :: q in list ==> q in objs
  {
    exists i :: 0 <= i < n && list[i] == r && IsDispatcher(objs[r])
  }

  function Extended(c: Conn, fd: int, client: nat, ok: bool): Conn {
    c.(offered := c.offered + [client], written := c.written + if ok then [Pass(fd, client)] else [])
  }

  /** The loop offers the client exactly once to each dispatcher connection among the sockets
      passed over and to no other, and writes its descriptor where the send succeeds. */
  lemma {:induction false} FanOutEffect(
      conns: map<Ref, Conn>, objs: map<Ref, Sock>, list: seq<Ref>, n: nat, fd: int, client: nat, delivered: set<Ref>)
    requires n <= |list| && Distinct(list) && forall r :: r in list ==> r in objs
    ensures
      var after := FanOut(conns, objs, list, n, fd, client, delivered);
      && after.Keys == conns.Keys
      && (forall r :: r in conns ==>
            after[r] ==
              if Addressed(objs, list, n, r) then Extended(conns[r], fd, client, r in delivered) else conns[r])
  {
    if n == 0 {
    } else {
      FanOutEffect(conns, objs, list, n - 1, fd, client, delivered);
      forall r | r in conns
        ensures Addressed(objs, list, n, r) <==>
            Addressed(objs, list, n - 1, r) || (r == list[n - 1] && IsDispatcher(objs[r]))
      {
        if Addressed(objs, list, n, r) {
          var i :| 0 <= i < n && list[i] == r && IsDispatcher(objs[r]);
          assert i < n - 1 ==> Addressed(objs, list, n - 1, r);
        }
      }
      assert !Addressed(objs, list, n - 1, list[n - 1]);
    }
  }

  /** The farewell goes once to each dispatcher connection it can be written to. */
  lemma {:induction false} SayGoodbyeEffect(conns: map<Ref, Conn>, objs: map<Ref, Sock>, list: seq<Ref>, n: nat,
      delivered: set<Ref>)
    requires n <= |list| && Distinct(list) && forall r :: r in list ==> r in objs
    ensures
      var after := SayGoodbye(conns, objs, list, n, delivered);
      && after.Keys == conns.Keys
      && (forall r :: r in conns ==>
            after[r] ==
              if Addressed(objs, list, n, r) && r in delivered
              then conns[r].(written := conns[r].written + [Farewell])
              else conns[r])
  {
    if n == 0 {
    } else {
      SayGoodbyeEffect(conns, objs, list, n - 1, delivered);
      forall r | r in conns
        ensures Addressed(objs, list, n, r) <==>
            Addressed(objs, list, n - 1, r) || (r == list[n - 1] && IsDispatcher(objs[r]))
      {
        if Addressed(objs, list, n, r) {
          var i :| 0 <= i < n && list[i] == r && IsDispatcher(objs[r]);
          assert i < n - 1 ==> Addressed(objs, list, n - 1, r);
        }
      }
      assert !Addressed(objs, list, n - 1, list[n - 1]);
    }
  }

  lemma ExtendedOk(c: Conn, accepted: nat, fd: int, ok: bool)
    requires ConnOk(c, accepted, false) && c.left.None? && 0 <= fd <= INT_MAX
    ensures ConnOk(Extended(c, fd, accepted, ok), accepted + 1, false)
  {
    RangeGrows(c.since, accepted);
  }

  lemma UntouchedOk(c: Conn, accepted: nat, over: bool)
    requires ConnOk(c, accepted, over) && c.left.Some?
    ensures ConnOk(c, accepted + 1, over)
  {
  }

  lemma PartedOk(c: Conn, accepted: nat)
    requires ConnOk(c, accepted, false)
    ensures ConnOk(c.(written := c.written + [Farewell]), accepted, true) && ConnOk(c, accepted, true)
  {
  }

  // ----- accepting a client

  /** An accepted client's object lives for the fan-out only: its descriptor is closed, once, and
      nothing else changes. */
  lemma AcceptedProcess(p: Process, fd: int)
    requires Owned(p) && fd !in p.open && p.born !in p.leaked && (forall r :: r in p.objs ==> r < p.next)
    ensures
      var q := Destroy(Construct(Obtain(p, fd), fd, SSL, false), p.next);
      Owned(q) && q == p.(next := p.next + 1, born := p.born + 1, closed := p.closed + [p.born])
  {
    ObtainConstructOwned(p, fd, SSL, false);
    DestroyOwned(Construct(Obtain(p, fd), fd, SSL, false), p.next);
    BriefObject(p, fd, SSL);
  }

  /** An object made over a fresh descriptor and destroyed again leaves only the closed instance behind. */
  lemma BriefObject(p: Process, fd: int, kind: SocketKind)
    requires fd !in p.open && p.next !in p.objs
    ensures Destroy(Construct(Obtain(p, fd), fd, kind, false), p.next)
         == p.(next := p.next + 1, born := p.born + 1, closed := p.closed + [p.born])
  {
    var q := Destroy(Construct(Obtain(p, fd), fd, kind, false), p.next);
    assert q.objs == p.objs && q.open == p.open;
  }

  /** What accepting a client does to the connections, case by case. */
  ghost predicate AcceptEffect(l: Listener, fd: int, delivered: set<Ref>, l': Listener) {
    && l' == l.(proc := l'.proc, conns := l'.conns, accepted := l.accepted + 1, numbers := l.numbers + [fd])
    && l'.proc == l.proc.(next := l.proc.next + 1, born := l.proc.born + 1, closed := l.proc.closed + [l.proc.born])
    && l'.conns.Keys == l.conns.Keys
    && (forall r :: r in l.conns ==>
          l'.conns[r] == if r in l.list then Extended(l.conns[r], fd, l.accepted, r in delivered) else l.conns[r])
  }

  lemma AcceptClientEffect(l: Listener, fd: int, delivered: set<Ref>)
    requires Structure(l) && fd !in l.proc.open && l.proc.born !in l.proc.leaked
    requires forall r :: r in l.conns ==> r !in PINNED && r < l.proc.next
    requires forall r :: r in l.list ==> r in l.proc.objs && r < l.proc.next
    ensures AcceptEffect(l, fd, delivered, AcceptClient(l, Accepted(fd), delivered))
    ensures Owned(AcceptClient(l, Accepted(fd), delivered).proc)
  {
    hide Accounted, OpenIsOwned, DescriptorsApart, FanOut, Destroy;
    AcceptedProcess(l.proc, fd);
    var objs := Construct(Obtain(l.proc, fd), fd, SSL, false).objs;
    FanOutEffect(l.conns, objs, l.list, |l.list|, fd, l.accepted, delivered);
    AddressedAreListed(l, objs);
  }

  lemma AddressedAreListed(l: Listener, objs: map<Ref, Sock>)
    requires Objects(l) && (forall r :: r in l.proc.objs ==> r in objs && objs[r] == l.proc.objs[r])
    requires forall r :: r in l.list ==> r in objs
    ensures forall r :: r !in PINNED ==> (Addressed(objs, l.list, |l.list|, r) <==> r in l.list)
  {
    forall r | r !in PINNED && r in l.list
      ensures Addressed(objs, l.list, |l.list|, r)
    {
      assert Referenced(l, r);
      var i :| 0 <= i < |l.list| && l.list[i] == r;
    }
  }

  lemma AcceptConns(l: Listener, fd: int, delivered: set<Ref>, l': Listener)
    requires Conns(l) && l.phase == Processing && 0 <= fd <= INT_MAX && AcceptEffect(l, fd, delivered, l')
    ensures Conns(l')
  {
    forall r | r in l'.conns ensures ConnOk(l'.conns[r], l'.accepted, Over(l')) {
      if r in l.list {
        ExtendedOk(l.conns[r], l.accepted, fd, r in delivered);
      } else {
        UntouchedOk(l.conns[r], l.accepted, false);
      }
    }
  }

  // ----- accepting a dispatcher

  ghost predicate JoinEffect(l: Listener, fd: int, config: seq<Message>, l': Listener) {
    var p, r, full := l.proc, l.proc.next, |l.list| == CAPACITY;
    && l' == l.(proc := l'.proc, list := if full then l.list else l.list + [r],
                conns := l.conns[r := Conn(config, |config|, [], l.accepted, if full then Some(l.accepted) else None)])
    && l'.proc.next == p.next + 1 && l'.proc.born == p.born + 1 && l'.proc.leaked == p.leaked
    && var s := Sock(fd, p.born, UNIX, false, false, NO_EVENTS, NO_EVENTS, ClientStatus.NONE);
       l'.proc.objs == if full then p.objs else p.objs[r := s]
  }

  lemma AcceptDispatcherEffect(l: Listener, fd: int, labelOk: bool, bodyOk: bool)
    requires Owned(l.proc) && fd !in l.proc.open && l.proc.born !in l.proc.leaked
    requires (forall r :: r in l.proc.objs ==> r < l.proc.next)
    ensures
      var l' := AcceptDispatcher(l, Accepted(fd), labelOk, bodyOk);
      JoinEffect(l, fd, ConfigMessages(l.pid, l.names, labelOk, bodyOk), l') && Owned(l'.proc)
  {
    var p := l.proc;
    var c := Construct(Obtain(p, fd), fd, UNIX, false);
    ObtainConstructOwned(p, fd, UNIX, false);
    if |l.list| == CAPACITY {
      DestroyOwned(c, p.next);
      BriefObject(p, fd, UNIX);
    }
  }

  lemma JoinLists(l: Listener, fd: int, config: seq<Message>, l': Listener)
    requires Lists(l) && JoinEffect(l, fd, config, l') && l.proc.next !in l.list
    ensures Lists(l')
  {
  }

  lemma JoinObjects(l: Listener, fd: int, config: seq<Message>, l': Listener)
    requires Objects(l) && JoinEffect(l, fd, config, l')
    ensures Objects(l')
  {
    var r := l.proc.next;
    assert !Referenced(l, r);
    assert forall q :: q in l'.list <==> q in l.list || (q == r && |l.list| != CAPACITY);
    assert forall q :: Referenced(l', q) <==> Referenced(l, q) || (q == r && |l.list| != CAPACITY);
  }

  lemma JoinConns(l: Listener, fd: int, labelOk: bool, bodyOk: bool, l': Listener)
    requires Conns(l) && l.phase == Processing && JoinEffect(l, fd, ConfigMessages(l.pid, l.names, labelOk, bodyOk), l')
    requires l.proc.next !in l.list && l.proc.next !in PINNED
    ensures Conns(l')
  {
    var r := l.proc.next;
    assert ConnOk(l'.conns[r], l'.accepted, Over(l'));
    forall q | q in l'.conns && q != r ensures ConnOk(l'.conns[q], l'.accepted, Over(l')) {
      assert ConnOk(l.conns[q], l.accepted, Over(l));
    }
  }

  // ----- dropping a socket

  ghost predicate DropEffect(l: Listener, r: Ref, k: nat, l': Listener)
    requires k < |l.list|
  {
    if |l.list| == CAPACITY then l' == l
    else l' == l.(
      list := Without(l.list, k),
      conns := if r in l.conns then l.conns[r := l.conns[r].(left := Some(l.accepted))] else l.conns)
  }

  /** In a sound process a dropped socket is removed exactly when the list is not full, and it is
      that very socket that leaves. */
  lemma DropIsExact(l: Listener, r: Ref, k: nat)
    requires DescriptorsApart(l.proc) && Distinct(l.list) && k < |l.list| && l.list[k] == r
    requires forall q :: q in l.list ==> q in l.proc.objs
    ensures DropEffect(l, r, k, DropSocket(l, r))
  {
    var fds := Fds(l.proc.objs, l.list);
    DistinctFds(l.proc.objs, l.list);
    if |l.list| != CAPACITY {
      DeleteRemovesTheOneMeant(l.list, fds, CAPACITY, k);
      var i := IndexOf(fds, fds[k]);
      assert fds[i] == fds[k];
      assert i == k;
    }
  }

  lemma DropLists(l: Listener, r: Ref, k: nat, l': Listener)
    requires Lists(l) && k < |l.list| && l.list[k] == r && DropEffect(l, r, k, l')
    requires forall i :: l.cursor <= i < |l.out| ==> l.out[i] != r
    ensures Lists(l')
  {
    WithoutEffect(l.list, k);
  }

  lemma DropObjects(l: Listener, r: Ref, k: nat, l': Listener)
    requires Objects(l) && Distinct(l.list) && k < |l.list| && l.list[k] == r && DropEffect(l, r, k, l') && r in l.out
    ensures Objects(l')
  {
    WithoutEffect(l.list, k);
  }

  lemma LeavingOk(c: Conn, accepted: nat, over: bool)
    requires ConnOk(c, accepted, over) && c.left.None?
    ensures ConnOk(c.(left := Some(accepted)), accepted, over)
  {
  }

  lemma DropConns(l: Listener, r: Ref, k: nat, l': Listener)
    requires Conns(l) && l.phase == Processing && Distinct(l.list) && k < |l.list| && l.list[k] == r
    requires DropEffect(l, r, k, l')
    ensures Conns(l')
  {
    WithoutEffect(l.list, k);
    if r in l.conns {
      assert r in l.list;
      LeavingOk(l.conns[r], l.accepted, Over(l));
    }
    forall q | q in l'.conns ensures ConnOk(l'.conns[q], l'.accepted, Over(l')) {
      assert ConnOk(l.conns[q], l.accepted, Over(l));
    }
  }
}
