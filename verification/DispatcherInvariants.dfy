/** What every step of the dispatcher keeps: some of it in every run, some of it as long as no
    socket was made over a stale number. */
module DispatcherInvariants {
  import opened Sockets
  import opened SocketLists
  import opened Polling
  import opened DescriptorPassing
  import opened ClientSession
  import opened Ownership
  import opened Channel
  import opened Rounds
  import opened DispatcherLoop

  // ----- structure: lists, references, kinds

  ghost predicate Referenced(d: Dispatcher, r: Ref) {
    r == UNIX_REF || r in d.list || r in d.out
  }

  ghost predicate Lists(d: Dispatcher) {
    && |d.list| <= CAPACITY && |d.out| <= CAPACITY && d.cursor <= |d.out|
    && Distinct(d.list) && Distinct(d.out)
    && (forall i :: 0 <= i < |d.list| && d.list[i] == UNIX_REF ==> i == 0)
    && (forall i :: 0 <= i < |d.out| && d.out[i] == UNIX_REF ==> i == 0)
  }

  ghost predicate Objects(d: Dispatcher) {
    && (forall r :: r in d.proc.objs <==> Referenced(d, r))
    && d.proc.objs[UNIX_REF].kind == UNIX
    && (forall r :: r in d.proc.objs && r != UNIX_REF ==> d.proc.objs[r].kind == SSL)
    && (forall r :: r in d.proc.objs ==> r < d.proc.next && !d.proc.objs[r].protect)
    && d.proc.next > UNIX_REF
    && (forall i :: i in d.proc.leaked ==> i < d.proc.born)
  }

  /** The UNIX socket is listed, whoever is still to be served is listed, and every client received
      has an instance of its own, but for the last one when its message brought nothing. */
  ghost predicate Orderly(d: Dispatcher) {
    && |d.list| > 0 && d.list[0] == UNIX_REF
    && (d.phase == Serving ==> forall i :: d.cursor <= i < |d.out| ==> d.out[i] in d.list)
    && UNIX_REF in d.proc.objs && d.proc.objs[UNIX_REF].inst == 0
    && (d.proc.born == |d.received| + 1 || (d.proc.born == |d.received| && d.phase == Broken))
  }

  /** Lists, references and the balance of close calls hold in every run; ownership and order as
      long as no socket was made over a stale number. */
  ghost predicate Structure(d: Dispatcher) {
    && Lists(d) && Objects(d) && Balanced(d.proc, d.stale)
    && (d.stale == 0 ==> Orderly(d) && Owned(d.proc))
  }

  lemma StartedStructure(fd: int, control: int)
    ensures Structure(Started(fd, control))
  {
    var p := Started(fd, control).proc;
    assert Owner(p, UNIX_REF, fd);
    assert p.open[fd] == 0;
    assert OnceOpen(p, 0);
  }

  /** Clearing the output list ends exactly the objects that are no longer listed. */
  lemma ClearedEffect(d: Dispatcher)
    requires Lists(d) && Objects(d) && Balanced(d.proc, d.stale)
    ensures forall r :: r in d.out ==> r in d.proc.objs
    ensures
      var p := Cleared(d);
      && Balanced(p, d.stale)
      && (forall r :: r in p.objs <==> r in d.list || r == UNIX_REF)
      && (forall r :: r in p.objs ==> r in d.proc.objs && p.objs[r] == d.proc.objs[r])
      && p.next == d.proc.next && p.born == d.proc.born && p.leaked == d.proc.leaked
      && (forall fd :: fd in p.open ==> fd in d.proc.open)
  {
    hide Release, Balanced;
    assert Unprotected(d.proc);
    ReleaseBalanced(d.proc, d.out, Elements(d.list) + {UNIX_REF}, d.stale);
    assert forall r :: Dies(d.out, Elements(d.list) + {UNIX_REF}, r) <==> r in d.out && r !in d.list && r != UNIX_REF;
  }

  lemma ClearedOwned(d: Dispatcher)
    requires Objects(d) && Owned(d.proc)
    ensures forall r :: r in d.out ==> r in d.proc.objs
    ensures Owned(Cleared(d)) && Released(d.proc, Cleared(d), d.out, Elements(d.list) + {UNIX_REF})
  {
    hide Owned, Release;
    ReleaseOwned(d.proc, d.out, Elements(d.list) + {UNIX_REF});
  }

  /** The objects after a round's beginning: the listed ones have no requested event left and this
      round's answer for their result bits, and nothing else of any object changes but the interest of an
      unlisted UNIX socket. */
  lemma RoundObjects(objs: map<Ref, Sock>, list: seq<Ref>, bits: map<Ref, Events>)
    requires (forall r :: r in objs <==> r in list || r == UNIX_REF) && (forall r :: r in bits <==> r in list)
    ensures
      var objs' := Polled(Interested(objs, list), bits);
      && objs'.Keys == objs.Keys
      && (forall r :: r in list ==> objs'[r] == objs[r].(events := NO_EVENTS, revents := bits[r]))
      && (forall r :: r in objs ==> objs'[r] == objs[r].(events := objs'[r].events, revents := objs'[r].revents))
  {
  }

  /** The new output list is the order-preserving filter of the socket list; no put is refused. */
  lemma RoundOutput(list: seq<Ref>, answers: seq<Events>)
    requires |answers| == |list| <= CAPACITY && Distinct(list)
    requires forall i :: 0 <= i < |list| && list[i] == UNIX_REF ==> i == 0
    ensures
      var sel := Selected(list, answers);
      && PutAll([], CAPACITY, sel) == sel
      && Distinct(sel) && |sel| <= CAPACITY
      && (forall i :: 0 <= i < |sel| && sel[i] == UNIX_REF ==> i == 0)
      && (forall i :: 0 <= i < |sel| ==> sel[i] in list)
  {
    hide Selected, Positions, PutAll;
    var sel, ps := Selected(list, answers), Positions(answers);
    NoPutRefused(CAPACITY, sel);
    DistinctInput(list, answers);
    SelectedIsTheFilter(list, answers);
    forall i | 0 <= i < |sel| && sel[i] == UNIX_REF
      ensures i == 0
    {
      assert list[ps[i]] == UNIX_REF;
      assert ps[i] == 0 <= ps[0];
    }
  }

  lemma RoundLists(d: Dispatcher, p: Process, poll: Poll)
    requires Lists(d) && |poll.answers| == |d.list|
    ensures Lists(PollRound(d, p, poll))
    ensures forall i :: 0 <= i < |PollRound(d, p, poll).out| ==> PollRound(d, p, poll).out[i] in d.list
  {
    hide Selected, PutAll;
    RoundOutput(d.list, poll.answers);
  }

  lemma RoundReferences(d: Dispatcher, p: Process, poll: Poll)
    requires Lists(d) && Objects(d) && |poll.answers| == |d.list|
    requires (forall r :: r in p.objs <==> r in d.list || r == UNIX_REF)
    requires forall r :: r in p.objs ==> r in d.proc.objs && p.objs[r] == d.proc.objs[r]
    requires p.next == d.proc.next && p.born == d.proc.born && p.leaked == d.proc.leaked
    ensures Objects(PollRound(d, p, poll))
  {
    hide Selected, PutAll, Distinct, Bits;
    var d' := PollRound(d, p, poll);
    RoundObjects(p.objs, d.list, d'.answers);
    RoundLists(d, p, poll);
    assert forall r :: Referenced(d', r) <==> r in d.list || r == UNIX_REF;
  }

  lemma RoundOwned(p: Process, list: seq<Ref>, bits: map<Ref, Events>)
    requires Owned(p)
    ensures Owned(p.(objs := Polled(Interested(p.objs, list), bits)))
  {
    FieldsOwned(p, p.(objs := Polled(Interested(p.objs, list), bits)));
  }

  lemma RoundBalanced(p: Process, list: seq<Ref>, bits: map<Ref, Events>, stale: nat)
    requires Balanced(p, stale)
    ensures Balanced(p.(objs := Polled(Interested(p.objs, list), bits)), stale)
  {
    SameCount(p.objs, Polled(Interested(p.objs, list), bits));
  }

  lemma SameCount(a: map<Ref, Sock>, b: map<Ref, Sock>)
    requires a.Keys == b.Keys
    ensures |a| == |b|
  {
    assert |a| == |a.Keys| && |b| == |b.Keys|;
  }

  lemma RoundOrderly(d: Dispatcher, p: Process, poll: Poll)
    requires Lists(d) && Orderly(d) && d.phase == Between && |poll.answers| == |d.list|
    requires UNIX_REF in p.objs && p.objs[UNIX_REF] == d.proc.objs[UNIX_REF] && p.born == d.proc.born
    requires forall r :: r in p.objs <==> r in d.list || r == UNIX_REF
    ensures Orderly(PollRound(d, p, poll))
  {
    hide Selected, PutAll, Distinct;
    RoundObjects(p.objs, d.list, PollRound(d, p, poll).answers);
    RoundLists(d, p, poll);
  }

  lemma RoundStructure(d: Dispatcher, poll: Poll)
    requires Structure(d) && d.phase == Between && |poll.answers| == |d.list|
    ensures forall r :: r in d.out ==> r in d.proc.objs
    ensures Structure(BeginRound(d, poll))
  {
    hide Owned, Balanced, Lists, Objects, Orderly, Release;
    ClearedEffect(d);
    var p, bits := Cleared(d), BeginRound(d, poll).answers;
    RoundLists(d, p, poll);
    RoundReferences(d, p, poll);
    RoundBalanced(p, d.list, bits, d.stale);
    if d.stale == 0 {
      ClearedOwned(d);
      RoundOwned(p, d.list, bits);
      assert UNIX_REF in p.objs;
      RoundOrderly(d, p, poll);
    }
  }

  // ----- reception

  /** The names reception gives out are new. */
  ghost predicate FreshIn(d: Dispatcher) {
    && SslRef(d.proc) !in d.proc.objs && SslRef(d.proc) !in d.list && SslRef(d.proc) !in d.out &&
         SslRef(d.proc) != UNIX_REF
    && (forall i :: i in d.proc.leaked ==> i < d.proc.born)
    && (forall r :: r in d.proc.objs ==> r < d.proc.next)
  }

  lemma FreshNames(d: Dispatcher)
    requires Objects(d)
    ensures FreshIn(d)
  {
    assert SslRef(d.proc) !in d.proc.objs;
    assert !Referenced(d, SslRef(d.proc));
  }

  /** What reception makes of a process: one SSL object over the number, in place of the received
      one; nothing is closed. */
  function WithClient(p: Process, number: int): Process {
    p.(objs := p.objs[SslRef(p) := Sock(number, InstanceAt(p, number), SSL, false, false, {POLLOUT}, NO_EVENTS, HELLO)],
       next := p.next + 2)
  }

  lemma GreetedValue(p: Process, number: int)
    requires forall r :: r in p.objs ==> r < p.next
    ensures Greeted(p, number) == WithClient(p, number)
  {
    assert NO_EVENTS + {POLLOUT} == {POLLOUT};
    assert Greeted(p, number).objs == WithClient(p, number).objs;
  }

  lemma RefusedValue(p: Process, number: int)
    requires forall r :: r in p.objs ==> r < p.next
    ensures Destroy(Greeted(p, number), SslRef(p)) == Close(p.(next := p.next + 2), number)
  {
    GreetedValue(p, number);
    assert WithClient(p, number).objs - {SslRef(p)} == p.objs;
  }

  /** Over a number newly installed, reception adds one owner of the new instance. */
  lemma GreetedEffect(p: Process, fd: int)
    requires Owned(p) && fd !in p.open && p.born !in p.leaked
    ensures Greeted(Obtain(p, fd), fd) == WithClient(Obtain(p, fd), fd)
    ensures Owned(WithClient(Obtain(p, fd), fd))
  {
    hide Accounted, OpenIsOwned, DescriptorsApart;
    var o := Obtain(p, fd);
    GreetedValue(o, fd);
    ObtainConstructOwned(p, fd, TCP, false);
    var c := Construct(o, fd, TCP, false);
    HandOverOwned(c, p.next);
    GreetingOwned(HandOver(c, p.next), SslRef(p));
  }

  lemma GreetingOwned(h: Process, r: Ref)
    requires Owned(h) && r in h.objs
    ensures Owned(h.(objs := h.objs[r := h.objs[r].(events := h.objs[r].events + {POLLOUT}, status := HELLO)]))
  {
    FieldsOwned(h, h.(objs := h.objs[r := h.objs[r].(events := h.objs[r].events + {POLLOUT}, status := HELLO)]));
  }

  /** The busy refusal of a client newly received closes exactly its instance and leaves the objects as they were. */
  lemma RefusedEffect(p: Process, fd: int)
    requires Owned(p) && fd !in p.open && p.born !in p.leaked
    ensures
      var q := Destroy(Greeted(Obtain(p, fd), fd), SslRef(p));
      && Owned(q)
      && q == p.(next := p.next + 2, born := p.born + 1, closed := p.closed + [p.born])
  {
    hide Accounted, OpenIsOwned, DescriptorsApart, Greeted;
    var o := Obtain(p, fd);
    GreetedEffect(p, fd);
    DestroyOwned(WithClient(o, fd), SslRef(p));
    RefusedValue(o, fd);
    assert o.open - {fd} == p.open;
  }

  ghost predicate Receivable(d: Dispatcher, u: Unit, attached: Option<int>) {
    u.DescriptorUnit? && Installable(d.proc, attached)
  }

  /** A reception that takes a number left by an earlier message for its own. */
  predicate TakesStale(d: Dispatcher, u: Unit, attached: Option<int>)
    requires u.DescriptorUnit?
  {
    u.fd >= 0 && attached.None? && d.control > 0
  }

  /** A reception that takes no stale number keeps the ownership. */
  lemma ReceiveOwned(d: Dispatcher, u: Unit, attached: Option<int>)
    requires Owned(d.proc) && Receivable(d, u, attached) && d.proc.born !in d.proc.leaked && !TakesStale(d, u, attached)
    ensures Owned(ReceiveClient(d, u, attached).proc)
  {
    hide Accounted, OpenIsOwned, DescriptorsApart, ObjectsLive, Greeted, Destroy, WithClient;
    if u.fd >= 0 && attached.Some? {
      var fd := attached.value;
      if fd == 0 {
        LoseOwned(d.proc, fd);
      } else if |d.list| == CAPACITY {
        RefusedEffect(d.proc, fd);
      } else {
        GreetedEffect(d.proc, fd);
      }
    }
  }

  /** What reception makes of the process: a number that is not positive loses what was installed,
      a busy refusal closes the number, and otherwise a client is added. */
  ghost function ReceivedProcess(p: Process, number: int, attached: Option<int>, full: bool): Process {
    var o := Installed(p, attached);
    if number <= 0 then (if attached.Some? then o.(leaked := o.leaked + {p.born}) else o)
    else if full then Close(o.(next := o.next + 2), number)
    else WithClient(o, number)
  }

  /** What reception does to the dispatcher, case by case: an error status stops it, so does a number
      that is not positive, a full list refuses, and otherwise the client is listed. */
  ghost predicate ReceiveEffect(d: Dispatcher, u: Unit, attached: Option<int>, d': Dispatcher)
    requires u.DescriptorUnit?
  {
    if u.fd < 0 then d' == Break(d)
    else
      var number, full, ssl := NumberRead(d.control, attached), |d.list| == CAPACITY, SslRef(d.proc);
      var joins := number > 0 && !full;
      d' == d.(
        received := d.received + [u.client], control := number,
        phase := if number > 0 then d.phase else Broken,
        proc := ReceivedProcess(d.proc, number, attached, full),
        list := if joins then d.list + [ssl] else d.list,
        traces := if joins then d.traces[ssl := FRESH_TRACE] else d.traces,
        refused := if number > 0 && full && attached.Some? then d.refused + {d.proc.born} else d.refused,
        stale := if TakesStale(d, u, attached) then d.stale + 1 else d.stale)
  }

  lemma ReceiveCases(d: Dispatcher, u: Unit, attached: Option<int>)
    requires Receivable(d, u, attached) && forall r :: r in d.proc.objs ==> r < d.proc.next
    ensures ReceiveEffect(d, u, attached, ReceiveClient(d, u, attached))
  {
    hide Greeted, Destroy, WithClient, Close;
    if u.fd >= 0 {
      GreetedValue(Installed(d.proc, attached), NumberRead(d.control, attached));
      RefusedValue(Installed(d.proc, attached), NumberRead(d.control, attached));
    }
  }

  lemma ReceiveBalanced(d: Dispatcher, u: Unit, attached: Option<int>, d': Dispatcher)
    requires u.DescriptorUnit? && ReceiveEffect(d, u, attached, d') && Balanced(d.proc, d.stale)
    requires SslRef(d.proc) !in d.proc.objs && d.proc.born !in d.proc.leaked
    ensures Balanced(d'.proc, d'.stale)
  {
    hide ReceivedProcess;
    ReceivedWeighs(d.proc, NumberRead(d.control, attached), attached, |d.list| == CAPACITY);
  }

  function Weight(p: Process): nat {
    |p.objs| + |p.closed| + |p.stray| + |p.leaked|
  }

  lemma ReceivedWeighs(p: Process, number: int, attached: Option<int>, full: bool)
    requires SslRef(p) !in p.objs && p.born !in p.leaked
    ensures
      var q := ReceivedProcess(p, number, attached, full);
      && q.born == p.born + (if attached.Some? then 1 else 0)
      && Weight(q) == Weight(p) + if attached.Some? || number > 0 then 1 else 0
  {
    hide WithClient, Close, Weight;
    var o := Installed(p, attached);
    InstalledWeighs(p, attached);
    if number > 0 {
      ClosedWeighs(o.(next := o.next + 2), number);
      ClientWeighs(o, number);
    }
  }

  lemma InstalledWeighs(p: Process, attached: Option<int>)
    requires p.born !in p.leaked
    ensures
      var o := Installed(p, attached);
      Weight(o) == Weight(p) == Weight(o.(next := o.next + 2)) &&
        Weight(o.(leaked := o.leaked + {p.born})) == Weight(p) + 1
  {
    assert |p.leaked + {p.born}| == |p.leaked| + 1;
  }

  lemma ClientWeighs(p: Process, number: int)
    requires SslRef(p) !in p.objs
    ensures Weight(WithClient(p, number)) == Weight(p) + 1 && WithClient(p, number).born == p.born
  {
  }

  lemma ClosedWeighs(p: Process, number: int)
    ensures Weight(Close(p, number)) == Weight(p) + 1 && Close(p, number).born == p.born
  {
  }

  // ----- a client visit

  /** What a visit does in any state: the client's own fields and history change, and if a socket
      is erased from the list it dies unless something else refers to it. */
  ghost predicate VisitShape(d: Dispatcher, r: Ref, v: Visit, d': Dispatcher)
    requires r in d.proc.objs && r in d.traces && VisitOk(v)
  {
    var res := VisitClient(d.proc.objs[r].revents, d.proc.objs[r].status, v);
    exists refused: bool, k: nat :: ShapedBy(Noted(d, r, res, refused), k, d')
  }

  ghost predicate ShapedBy(m: Dispatcher, k: nat, d': Dispatcher) {
    d' == m || (k < |m.list| && m.list[k] in m.proc.objs && d' == Unlist(m, k))
  }

  lemma VisitCases(d: Dispatcher, r: Ref, v: Visit)
    requires r in d.proc.objs && r in d.traces && VisitOk(v) && forall q :: q in d.list ==> q in d.proc.objs
    ensures VisitShape(d, r, v, ServeClient(d, r, v))
  {
    hide Unlist, Noted, VisitClient;
    var s := d.proc.objs[r];
    var res := VisitClient(s.revents, s.status, v);
    var fds := Fds(d.proc.objs, d.list);
    var deletes := Deletes(fds, CAPACITY, s.fd);
    var k := IndexOf(fds, s.fd);
    assert ShapedBy(Noted(d, r, res, !deletes), k, ServeClient(d, r, v)) by {
      NotedKeepsLists(d, r, res, !deletes);
      if deletes {
        DeletedPlace(fds, s.fd);
      }
    }
  }

  lemma NotedKeepsLists(d: Dispatcher, r: Ref, res: Visited, refused: bool)
    requires r in d.proc.objs && r in d.traces
    ensures Noted(d, r, res, refused).list == d.list && Noted(d, r, res, refused).proc.objs.Keys == d.proc.objs.Keys
  {
  }

  lemma DeletedPlace(fds: seq<int>, fd: int)
    requires fd in fds
    ensures IndexOf(fds, fd) < |fds|
  {
    assert fds[..|fds|] == fds;
  }

  /** The erasure is the list's own deletion by descriptor. */
  lemma UnlistDeletes(d: Dispatcher, fd: int)
    requires (forall q :: q in d.list ==> q in d.proc.objs) && Deletes(Fds(d.proc.objs, d.list), CAPACITY, fd)
    ensures
      var k := IndexOf(Fds(d.proc.objs, d.list), fd);
      k < |d.list| && Unlist(d, k).list == Delete(d.list, Fds(d.proc.objs, d.list), CAPACITY, fd)
  {
    DeletedPlace(Fds(d.proc.objs, d.list), fd);
  }

  /** What a visit does in a sound state: the client leaves the list, alone, exactly when it is to
      be dropped and the list is not full. */
  ghost predicate VisitEffect(d: Dispatcher, r: Ref, v: Visit, k: nat, d': Dispatcher)
    requires k < |d.list| && r in d.proc.objs && r in d.traces && VisitOk(v)
  {
    var s := d.proc.objs[r];
    var res := VisitClient(s.revents, s.status, v);
    var gone := !res.keep && |d.list| != CAPACITY;
    d' == d.(
      proc := d.proc.(objs := d.proc.objs[r := s.(revents := res.revents, status := res.status)]),
      traces := d.traces[r := History(d.traces[r], res, |d.list| == CAPACITY)],
      list := if gone then Without(d.list, k) else d.list,
      removed := if gone then d.removed + {s.inst} else d.removed)
  }

  lemma UnlistHeld(d: Dispatcher, k: nat)
    requires k < |d.list| && d.list[k] in d.proc.objs && d.list[k] in d.out
    ensures Unlist(d, k) == d.(list := Without(d.list, k), removed := d.removed + {d.proc.objs[d.list[k]].inst})
  {
    var q, held := d.list[k], Elements(Without(d.list, k)) + Elements(d.out) + {UNIX_REF};
    assert q in held;
    ReleaseOne(d.proc, q, held);
  }

  lemma RemovalIsExact(d: Dispatcher, r: Ref, v: Visit, k: nat)
    requires DescriptorsApart(d.proc) && Distinct(d.list) && k < |d.list| && d.list[k] == r && r in d.out
    requires (forall q :: q in d.list ==> q in d.proc.objs) && r in d.traces && VisitOk(v)
    ensures VisitEffect(d, r, v, k, ServeClient(d, r, v))
  {
    hide Unlist, VisitClient, Release;
    var fds := Fds(d.proc.objs, d.list);
    DistinctFds(d.proc.objs, d.list);
    var res := VisitClient(d.proc.objs[r].revents, d.proc.objs[r].status, v);
    if |d.list| != CAPACITY {
      DeletedPlace(fds, fds[k]);
      assert IndexOf(fds, fds[k]) == k;
      NotedKeepsLists(d, r, res, false);
      UnlistHeld(Noted(d, r, res, false), k);
    }
  }

  // ----- structure is kept

  lemma ReceiveLists(d: Dispatcher, u: Unit, attached: Option<int>, d': Dispatcher)
    requires Lists(d) && u.DescriptorUnit? && ReceiveEffect(d, u, attached, d')
    requires SslRef(d.proc) !in d.list
    ensures Lists(d')
  {
    hide ReceivedProcess;
  }

  /** The objects of a process after a reception. */
  lemma ReceivedObjects(p: Process, number: int, attached: Option<int>, full: bool)
    ensures
      var q := ReceivedProcess(p, number, attached, full);
      && q.next == (if number > 0 then p.next + 2 else p.next)
      && (forall i :: i in q.leaked ==> i in p.leaked || i < q.born)
      && q.born >= p.born
      && q.objs == if number > 0 && !full then WithClient(Installed(p, attached), number).objs else p.objs
  {
  }

  lemma ReceiveReferences(d: Dispatcher, u: Unit, attached: Option<int>, d': Dispatcher)
    requires u.DescriptorUnit? && ReceiveEffect(d, u, attached, d')
    ensures forall r :: Referenced(d', r) <==> Referenced(d, r) || (d'.list != d.list && r == SslRef(d.proc))
    ensures d'.list != d.list <==> u.fd >= 0 && NumberRead(d.control, attached) > 0 && |d.list| != CAPACITY
  {
    hide ReceivedProcess;
    assert forall r :: r in d'.list <==> r in d.list || (d'.list != d.list && r == SslRef(d.proc));
  }

  lemma ReceiveObjects(d: Dispatcher, u: Unit, attached: Option<int>, d': Dispatcher)
    requires Objects(d) && u.DescriptorUnit? && ReceiveEffect(d, u, attached, d')
    ensures Objects(d')
  {
    hide ReceivedProcess, Referenced;
    ReceiveReferences(d, u, attached, d');
    ReceivedObjects(d.proc, NumberRead(d.control, attached), attached, |d.list| == CAPACITY);
  }

  lemma ReceiveOrderly(d: Dispatcher, u: Unit, attached: Option<int>, d': Dispatcher)
    requires Orderly(d) && d.phase == Serving && u.DescriptorUnit? && ReceiveEffect(d, u, attached, d')
    requires !TakesStale(d, u, attached)
    requires SslRef(d.proc) != UNIX_REF
    ensures Orderly(d')
  {
  }

  lemma UnlistLists(m: Dispatcher, k: nat)
    requires Lists(m) && k < |m.list| && m.list[k] in m.proc.objs
    ensures Lists(Unlist(m, k))
  {
    hide Release;
    WithoutEffect(m.list, k);
    var list := Without(m.list, k);
    assert forall i :: 0 <= i < |list| ==> list[i] == if i < k then m.list[i] else m.list[i + 1];
  }

  /** The objects after an erasure are those still referenced. */
  lemma UnlistObjects(m: Dispatcher, k: nat)
    requires Objects(m) && Distinct(m.list) && Balanced(m.proc, m.stale) && k < |m.list| && m.list[k] in m.proc.objs
    ensures Objects(Unlist(m, k)) && Balanced(Unlist(m, k).proc, m.stale)
  {
    hide Release, Balanced, Distinct;
    var d', q := Unlist(m, k), m.list[k];
    var held := Elements(d'.list) + Elements(m.out) + {UNIX_REF};
    assert Unprotected(m.proc);
    WithoutEffect(m.list, k);
    ReleaseBalanced(m.proc, [q], held, m.stale);
    assert forall r :: Dies([q], held, r) <==> r == q && !Referenced(d', r);
    assert forall r :: Referenced(m, r) <==> Referenced(d', r) || r == q;
  }

  lemma NotedStructure(d: Dispatcher, r: Ref, res: Visited, refused: bool)
    requires Lists(d) && Objects(d) && Balanced(d.proc, d.stale) && r in d.proc.objs && r in d.traces
    ensures
      var m := Noted(d, r, res, refused);
      Lists(m) && Objects(m) && Balanced(m.proc, m.stale)
  {
    var m := Noted(d, r, res, refused);
    assert m.proc.objs.Keys == d.proc.objs.Keys;
    SameCount(d.proc.objs, m.proc.objs);
    assert forall q :: Referenced(m, q) <==> Referenced(d, q);
  }

  lemma VisitStructure(d: Dispatcher, r: Ref, v: Visit, d': Dispatcher)
    requires Lists(d) && Objects(d) && Balanced(d.proc, d.stale)
    requires r in d.proc.objs && r in d.traces && VisitOk(v) && VisitShape(d, r, v, d')
    ensures Lists(d') && Objects(d') && Balanced(d'.proc, d'.stale) && d'.stale == d.stale && d'.phase == d.phase
  {
    hide Objects, Balanced, Release, VisitClient, Distinct;
    var res := VisitClient(d.proc.objs[r].revents, d.proc.objs[r].status, v);
    var refused: bool, k: nat :| ShapedBy(Noted(d, r, res, refused), k, d');
    var m := Noted(d, r, res, refused);
    NotedStructure(d, r, res, refused);
    if d' != m {
      UnlistLists(m, k);
      UnlistObjects(m, k);
    }
  }

  lemma VisitOrderly(d: Dispatcher, r: Ref, v: Visit, k: nat, d': Dispatcher)
    requires Orderly(d) && Distinct(d.list) && 0 < k < |d.list| && d.list[k] == r
    requires d.cursor <= |d.out| && r !in d.out[d.cursor..]
    requires r in d.proc.objs && r in d.traces && r != UNIX_REF && VisitOk(v) && VisitEffect(d, r, v, k, d')
    ensures Orderly(d')
  {
    hide VisitClient;
    WithoutEffect(d.list, k);
    assert forall i :: d.cursor <= i < |d.out| ==> d.out[i] in d.out[d.cursor..];
  }

  lemma VisitOwned(d: Dispatcher, r: Ref, v: Visit, k: nat, d': Dispatcher)
    requires Owned(d.proc) && k < |d.list|
    requires r in d.proc.objs && r in d.traces && VisitOk(v) && VisitEffect(d, r, v, k, d')
    ensures Owned(d'.proc)
  {
    FieldsOwned(d.proc, d'.proc);
  }

  // ----- fates: every client received is listed, refused, removed or lost, and only one of these

  ghost predicate Listed(d: Dispatcher, i: Instance) {
    exists r :: r in d.list && r != UNIX_REF && r in d.proc.objs && d.proc.objs[r].inst == i
  }

  /** Removed from the list but still in the output list, which keeps its descriptor open. */
  ghost predicate Lingering(d: Dispatcher, i: Instance) {
    exists r :: r in d.out && r !in d.list && r in d.proc.objs && d.proc.objs[r].inst == i
  }

  ghost predicate Fates(d: Dispatcher) {
    && (forall i :: 1 <= i < d.proc.born ==> i in d.refused || i in d.removed || i in d.proc.leaked || Listed(d, i))
    && (forall i :: Listed(d, i) ==> 1 <= i && i !in d.refused && i !in d.removed && i !in d.proc.leaked)
    && d.refused !! d.removed && d.refused !! d.proc.leaked && d.removed !! d.proc.leaked
    && (forall i :: i in d.refused ==> 1 <= i < d.proc.born && i in d.proc.closed)
    && (forall i :: i in d.removed ==> 1 <= i < d.proc.born && (i in d.proc.closed || Lingering(d, i)))
  }

  lemma RoundListed(d: Dispatcher, d': Dispatcher, i: Instance)
    requires d'.list == d.list
    requires (forall r :: r in d.list ==>
        r in d.proc.objs && r in d'.proc.objs && d'.proc.objs[r].inst == d.proc.objs[r].inst)
    ensures Listed(d', i) <==> Listed(d, i)
  {
    if Listed(d, i) {
      var r :| r in d.list && r != UNIX_REF && r in d.proc.objs && d.proc.objs[r].inst == i;
      assert r in d'.proc.objs && d'.proc.objs[r].inst == i;
    }
    if Listed(d', i) {
      var r :| r in d'.list && r != UNIX_REF && r in d'.proc.objs && d'.proc.objs[r].inst == i;
      assert r in d.proc.objs && d.proc.objs[r].inst == i;
    }
  }

  /** Whoever lingered is closed when the output list is cleared. */
  lemma LingeringEnds(d: Dispatcher, p: Process, i: Instance)
    requires Released(d.proc, p, d.out, Elements(d.list) + {UNIX_REF}) && UNIX_REF in d.list && Lingering(d, i)
    ensures i in p.closed
  {
    var r :| r in d.out && r !in d.list && r in d.proc.objs && d.proc.objs[r].inst == i;
    assert Dies(d.out, Elements(d.list) + {UNIX_REF}, r);
  }

  lemma FatesAfterRound(d: Dispatcher, d': Dispatcher)
    requires Fates(d) && d'.refused == d.refused && d'.removed == d.removed
    requires d'.proc.born == d.proc.born && d'.proc.leaked == d.proc.leaked && d.proc.closed <= d'.proc.closed
    requires forall i :: Listed(d', i) <==> Listed(d, i)
    requires forall i :: i in d.removed ==> i in d'.proc.closed
    ensures Fates(d')
  {
    assert forall i :: i in d.proc.closed ==> i in d'.proc.closed;
  }

  lemma RoundFates(d: Dispatcher, p: Process, poll: Poll)
    requires Fates(d) && |poll.answers| == |d.list| && UNIX_REF in d.list
    requires Released(d.proc, p, d.out, Elements(d.list) + {UNIX_REF})
    requires forall r :: r in p.objs <==> r in d.list || r == UNIX_REF
    requires forall r :: r in d.list ==> r in d.proc.objs && p.objs[r] == d.proc.objs[r]
    ensures Fates(PollRound(d, p, poll))
  {
    hide Fates, Listed, Lingering, Selected, PutAll, Bits;
    var d' := PollRound(d, p, poll);
    RoundObjects(p.objs, d.list, d'.answers);
    forall i ensures Listed(d', i) <==> Listed(d, i) {
      RoundListed(d, d', i);
    }
    forall i | i in d.removed ensures i in p.closed {
      RemovedEnds(d, p, i);
    }
    FatesAfterRound(d, d');
  }

  lemma RemovedEnds(d: Dispatcher, p: Process, i: Instance)
    requires Released(d.proc, p, d.out, Elements(d.list) + {UNIX_REF}) && UNIX_REF in d.list && Fates(d)
    requires i in d.removed
    ensures i in p.closed
  {
    hide Lingering, Listed;
    if i !in d.proc.closed {
      LingeringEnds(d, p, i);
    }
  }

  /** Reception lists at most the new instance. */
  lemma ReceiveListed(d: Dispatcher, u: Unit, attached: Option<int>, d': Dispatcher, i: Instance)
    requires u.DescriptorUnit? && ReceiveEffect(d, u, attached, d') && !TakesStale(d, u, attached)
    requires SslRef(d.proc) !in d.proc.objs && SslRef(d.proc) !in d.list && SslRef(d.proc) != UNIX_REF
    ensures Listed(d', i) <==> Listed(d, i) || (i == d.proc.born && |d'.list| > |d.list|)
  {
    var b, ssl := d.proc.born, SslRef(d.proc);
    if Listed(d, i) {
      var r :| r in d.list && r != UNIX_REF && r in d.proc.objs && d.proc.objs[r].inst == i;
      assert r in d'.list && r in d'.proc.objs && d'.proc.objs[r].inst == i;
    }
    if |d'.list| > |d.list| {
      assert d'.list[|d.list|] == ssl && d'.proc.objs[ssl].inst == b;
    }
    if Listed(d', i) {
      var r :| r in d'.list && r != UNIX_REF && r in d'.proc.objs && d'.proc.objs[r].inst == i;
      assert r == ssl || (r in d.list && r in d.proc.objs && d.proc.objs[r].inst == i);
    }
  }

  lemma ReceiveLingering(d: Dispatcher, u: Unit, attached: Option<int>, d': Dispatcher, i: Instance)
    requires u.DescriptorUnit? && ReceiveEffect(d, u, attached, d')
    requires SslRef(d.proc) !in d.proc.objs && SslRef(d.proc) !in d.list && Lingering(d, i)
    ensures Lingering(d', i)
  {
    var r :| r in d.out && r !in d.list && r in d.proc.objs && d.proc.objs[r].inst == i;
    assert r in d'.out && r !in d'.list && r in d'.proc.objs && d'.proc.objs[r].inst == i;
  }

  lemma ReceiveFates(d: Dispatcher, u: Unit, attached: Option<int>, d': Dispatcher)
    requires Fates(d) && u.DescriptorUnit? && Receivable(d, u, attached) && ReceiveEffect(d, u, attached, d')
    requires !TakesStale(d, u, attached) && FreshIn(d) && d.proc.born >= 1
    requires forall r :: r in d.proc.objs ==> d.proc.objs[r].inst < d.proc.born
    ensures Fates(d')
  {
    assert !Listed(d, d.proc.born);
    FatesAfterReception(d, u, attached, d');
  }

  /** The histories of a process after a reception that takes no stale number. */
  lemma ReceivedHistories(p: Process, number: int, attached: Option<int>, full: bool)
    requires attached.Some? ==> number == attached.value >= 0
    requires attached.None? ==> number <= 0
    ensures
      var q := ReceivedProcess(p, number, attached, full);
      && q.born == p.born + (if attached.Some? then 1 else 0)
      && q.closed == p.closed + (if number > 0 && full then [p.born] else [])
      && q.leaked == p.leaked + if attached.Some? && number <= 0 then {p.born} else {}
  {
  }

  lemma FatesAfterReception(d: Dispatcher, u: Unit, attached: Option<int>, d': Dispatcher)
    requires Fates(d) && u.DescriptorUnit? && Receivable(d, u, attached) && ReceiveEffect(d, u, attached, d')
    requires !TakesStale(d, u, attached) && FreshIn(d) && d.proc.born >= 1 && !Listed(d, d.proc.born)
    ensures Fates(d')
  {
    hide Listed, Lingering, ReceivedProcess, Installed;
    if u.fd >= 0 {
      ReceivedHistories(d.proc, NumberRead(d.control, attached), attached, |d.list| == CAPACITY);
    }
    forall i ensures Listed(d', i) <==> Listed(d, i) || (i == d.proc.born && |d'.list| > |d.list|) {
      ReceiveListed(d, u, attached, d', i);
    }
    forall i | Lingering(d, i) ensures Lingering(d', i) {
      ReceiveLingering(d, u, attached, d', i);
    }
  }

  /** A visit unlists at most the client visited. */
  lemma VisitListed(d: Dispatcher, r: Ref, v: Visit, k: nat, d': Dispatcher, i: Instance)
    requires Distinct(d.list) && k < |d.list| && d.list[k] == r
    requires r in d.proc.objs && r in d.traces && VisitOk(v) && VisitEffect(d, r, v, k, d')
    requires forall q :: q in d.proc.objs && q != r ==> d.proc.objs[q].inst != d.proc.objs[r].inst
    ensures Listed(d', i) <==> Listed(d, i) && !(d'.list != d.list && i == d.proc.objs[r].inst)
  {
    WithoutEffect(d.list, k);
    assert d'.list != d.list ==> r !in d'.list;
    if Listed(d, i) && !(d'.list != d.list && i == d.proc.objs[r].inst) {
      var q :| q in d.list && q != UNIX_REF && q in d.proc.objs && d.proc.objs[q].inst == i;
      assert q in d'.list && q in d'.proc.objs && d'.proc.objs[q].inst == i;
    }
    if Listed(d', i) {
      var q :| q in d'.list && q != UNIX_REF && q in d'.proc.objs && d'.proc.objs[q].inst == i;
      assert q in d.list && q in d.proc.objs && d.proc.objs[q].inst == i;
    }
  }

  /** A client unlisted lingers in the output list. */
  lemma VisitLingering(d: Dispatcher, r: Ref, v: Visit, k: nat, d': Dispatcher, i: Instance)
    requires Distinct(d.list) && k < |d.list| && d.list[k] == r && r in d.out
    requires r in d.proc.objs && r in d.traces && VisitOk(v) && VisitEffect(d, r, v, k, d')
    ensures Lingering(d, i) || (d'.list != d.list && i == d.proc.objs[r].inst) ==> Lingering(d', i)
  {
    WithoutEffect(d.list, k);
    assert d'.list != d.list ==> r !in d'.list;
    if Lingering(d, i) {
      var q :| q in d.out && q !in d.list && q in d.proc.objs && d.proc.objs[q].inst == i;
      assert q in d'.out && q !in d'.list && q in d'.proc.objs && d'.proc.objs[q].inst == i;
    } else if d'.list != d.list && i == d.proc.objs[r].inst {
      assert r in d'.out && r !in d'.list && r in d'.proc.objs && d'.proc.objs[r].inst == i;
    }
  }

  lemma VisitFates(d: Dispatcher, r: Ref, v: Visit, k: nat, d': Dispatcher)
    requires Fates(d) && Distinct(d.list) && k < |d.list| && d.list[k] == r && r in d.out && r != UNIX_REF
    requires r in d.proc.objs && r in d.traces && VisitOk(v) && VisitEffect(d, r, v, k, d')
    requires d.proc.objs[r].inst < d.proc.born
    requires forall q :: q in d.proc.objs && q != r ==> d.proc.objs[q].inst != d.proc.objs[r].inst
    ensures Fates(d')
  {
    forall i ensures Listed(d', i) <==> Listed(d, i) && !(d'.list != d.list && i == d.proc.objs[r].inst) {
      VisitListed(d, r, v, k, d', i);
    }
    forall i ensures Lingering(d, i) || (d'.list != d.list && i == d.proc.objs[r].inst) ==> Lingering(d', i) {
      VisitLingering(d, r, v, k, d', i);
    }
    FatesAfter(d, d', r);
  }

  lemma FatesAfter(d: Dispatcher, d': Dispatcher, r: Ref)
    requires Fates(d) && r in d.list && r in d.proc.objs && r != UNIX_REF && d.proc.objs[r].inst < d.proc.born
    requires d'.proc.(objs := d.proc.objs) == d.proc && d'.refused == d.refused
    requires d'.removed == d.removed || d'.removed == d.removed + {d.proc.objs[r].inst}
    requires d'.removed == d.removed <==> d'.list == d.list
    requires forall i :: Listed(d', i) <==> Listed(d, i) && !(d'.list != d.list && i == d.proc.objs[r].inst)
    requires forall i :: Lingering(d, i) || (d'.list != d.list && i == d.proc.objs[r].inst) ==> Lingering(d', i)
    ensures Fates(d')
  {
    assert Listed(d, d.proc.objs[r].inst);
  }

  // ----- sessions

  /** What holds of every client's history, and, as long as no stale number was taken, that only a
      refused removal lets anything follow a Bye. */
  ghost predicate PastSessions(d: Dispatcher) {
    forall r :: r in d.traces ==>
      && r != UNIX_REF && r < d.proc.next && Courteous(d.traces[r])
      && (d.stale == 0 && d.traces[r].refusals == 0 ==> ByeLast(d.traces[r].replies))
  }

  ghost predicate Unserved(d: Dispatcher, r: Ref) {
    d.phase == Serving && d.cursor <= |d.out| && r in d.out[d.cursor..]
  }

  /** The replies a client may still get without being read from: its write interest, or a write
      result not yet served. */
  ghost function Pending(d: Dispatcher, r: Ref): nat
    requires r in d.proc.objs && d.cursor <= |d.out|
  {
    (if IsWriteAvailable(d.proc.objs[r].events) then 1 else 0)
    + (if Unserved(d, r) && IsWriteAvailable(d.proc.objs[r].revents) then 1 else 0)
  }

  ghost predicate Courtesy(d: Dispatcher, r: Ref)
    requires r in d.proc.objs && d.cursor <= |d.out|
  {
    && r in d.traces
    && StatusFits(d.proc.objs[r].status, d.traces[r].replies)
    && |d.traces[r].replies| + Pending(d, r) <= d.traces[r].readCount + 1
  }

  ghost predicate NoByeYet(d: Dispatcher, r: Ref) {
    r in d.traces && r in d.list && d.traces[r].refusals == 0 ==> Bye !in d.traces[r].replies
  }

  ghost predicate LiveSessions(d: Dispatcher) {
    && d.cursor <= |d.out|
    && (forall r :: r in d.proc.objs && r != UNIX_REF ==> Courtesy(d, r))
    && (d.stale == 0 ==> forall r :: r in d.traces ==> NoByeYet(d, r))
  }

  /** A client's write interest is spent by the poll: it becomes a write result or is gone. */
  lemma WriteInterestSpent(objs: map<Ref, Sock>, list: seq<Ref>, bits: map<Ref, Events>, answer: Events, r: Ref)
    requires r in objs && r in bits && (bits[r] == answer || bits[r] == NO_EVENTS)
    requires PollContract(Interested(objs, list)[r].events, answer)
    ensures
      var s := Polled(Interested(objs, list), bits)[r];
      && s.events == NO_EVENTS && s.status == objs[r].status
      && (IsWriteAvailable(s.revents) ==> IsWriteAvailable(objs[r].events))
  {
    var asked := Interested(objs, list)[r].events;
    assert asked <= objs[r].events + {POLLIN};
  }

  lemma RoundCourtesy(d: Dispatcher, p: Process, poll: Poll, r: Ref)
    requires Distinct(d.list) && r in d.list && d.phase == Between && d.cursor <= |d.out|
    requires r in p.objs && r in d.proc.objs && p.objs[r] == d.proc.objs[r]
    requires PollOk(d.list, Interested(p.objs, d.list), poll.answers)
    requires Courtesy(d, r)
    ensures Courtesy(PollRound(d, p, poll), r)
  {
    hide Selected, PutAll;
    var i :| 0 <= i < |d.list| && d.list[i] == r;
    BitsAreAnswers(d.list, poll.answers, Polling.Outcome(poll.ret, poll.interrupted), i);
    WriteInterestSpent(p.objs, d.list, PollRound(d, p, poll).answers, poll.answers[i], r);
  }

  lemma RoundSessions(d: Dispatcher, p: Process, poll: Poll)
    requires Distinct(d.list) && d.phase == Between && LiveSessions(d)
    requires forall r :: r in p.objs <==> r in d.list || r == UNIX_REF
    requires forall r :: r in p.objs ==> r in d.proc.objs && p.objs[r] == d.proc.objs[r]
    requires PollOk(d.list, Interested(p.objs, d.list), poll.answers)
    ensures LiveSessions(PollRound(d, p, poll))
  {
    hide Courtesy, Selected, PutAll, Distinct;
    var d' := PollRound(d, p, poll);
    RoundObjects(p.objs, d.list, d'.answers);
    forall r | r in d'.proc.objs && r != UNIX_REF ensures Courtesy(d', r) {
      RoundCourtesy(d, p, poll, r);
    }
    assert d'.stale == 0 ==> forall r :: r in d'.traces ==> NoByeYet(d, r);
  }

  lemma GreetedFits()
    ensures StatusFits(HELLO, [])
  {
  }

  lemma ReceiveSessions(d: Dispatcher, u: Unit, attached: Option<int>, d': Dispatcher)
    requires LiveSessions(d) && PastSessions(d) && u.DescriptorUnit? && ReceiveEffect(d, u, attached, d')
    requires SslRef(d.proc) !in d.proc.objs && SslRef(d.proc) !in d.out
    ensures LiveSessions(d')
  {
    hide ReceivedProcess, Courteous, StatusFits;
    ReceivedObjects(d.proc, NumberRead(d.control, attached), attached, |d.list| == CAPACITY);
    GreetedFits();
    forall r | r in d'.proc.objs && r != UNIX_REF ensures Courtesy(d', r) {
      if r == SslRef(d.proc) {
        assert r !in d'.out[d'.cursor..];
      } else {
        assert Courtesy(d, r);
      }
    }
    if d'.stale == 0 {
      forall r | r in d'.traces ensures NoByeYet(d', r) {
        assert r != SslRef(d.proc) ==> NoByeYet(d, r);
      }
    }
  }

  lemma ReceivePast(d: Dispatcher, u: Unit, attached: Option<int>, d': Dispatcher)
    requires PastSessions(d) && u.DescriptorUnit? && ReceiveEffect(d, u, attached, d')
    ensures PastSessions(d')
  {
    assert Shape([], 0, 0);
  }

  /** The state in which a handler starts: the cursor already stands behind the socket served. */
  function Advance(d: Dispatcher): Dispatcher {
    d.(cursor := d.cursor + 1)
  }

  /** An erasure changes no object that survives it. */
  lemma UnlistKeeps(m: Dispatcher, k: nat)
    requires k < |m.list| && m.list[k] in m.proc.objs
    ensures
      var d' := Unlist(m, k);
      && (forall r :: r in d'.proc.objs ==> r in m.proc.objs && d'.proc.objs[r] == m.proc.objs[r])
      && (forall r :: r in d'.list ==> r in m.list)
      && d'.proc.next == m.proc.next
  {
    var q, held := m.list[k], Elements(Without(m.list, k)) + Elements(m.out) + {UNIX_REF};
    ReleaseOne(m.proc, q, held);
  }

  lemma UnlistFrame(m: Dispatcher, k: nat)
    requires k < |m.list| && m.list[k] in m.proc.objs
    ensures
      var d' := Unlist(m, k);
      d' == m.(list := d'.list, proc := d'.proc, removed := d'.removed)
  {
    hide Release;
  }

  /** What a visit leaves alone, in any state. */
  ghost predicate VisitKeeps(d: Dispatcher, r: Ref, m: Dispatcher, d': Dispatcher) {
    && d' == m.(proc := d'.proc, list := d'.list, removed := d'.removed)
    && (forall q :: q in d'.proc.objs ==> q in m.proc.objs && d'.proc.objs[q] == m.proc.objs[q])
    && (forall q :: q in d'.list ==> q in d.list)
    && d'.proc.next == m.proc.next
  }

  lemma ShapeKeeps(d: Dispatcher, r: Ref, v: Visit, d': Dispatcher) returns (refused: bool)
    requires r in d.proc.objs && r in d.traces && VisitOk(v) && VisitShape(d, r, v, d')
    ensures VisitKeeps(d, r, Noted(d, r, VisitClient(d.proc.objs[r].revents, d.proc.objs[r].status, v), refused), d')
  {
    hide VisitClient, History, Release;
    var res := VisitClient(d.proc.objs[r].revents, d.proc.objs[r].status, v);
    var b: bool, k: nat :| ShapedBy(Noted(d, r, res, b), k, d');
    refused := b;
    if d' != Noted(d, r, res, b) {
      UnlistKeeps(Noted(d, r, res, b), k);
    }
  }

  /** One visit keeps the client's own session. */
  lemma VisitCourtesy(d: Dispatcher, r: Ref, v: Visit, refused: bool, d': Dispatcher)
    requires d.cursor < |d.out| && d.phase == Serving && Distinct(d.out) && r == d.out[d.cursor]
    requires r in d.proc.objs && Courtesy(d, r) && VisitOk(v)
    requires VisitKeeps(Advance(d), r, Noted(Advance(d), r, VisitClient(d.proc.objs[r].revents,
        d.proc.objs[r].status, v), refused), d')
    ensures r in d'.proc.objs ==> Courtesy(d', r)
    ensures Courteous(d'.traces[r])
  {
    hide VisitClient, History, StatusFits, Courteous;
    var s, t := d.proc.objs[r], d.traces[r];
    assert r in d.out[d.cursor..] by {
      assert d.out[d.cursor..][0] == r;
    }
    VisitTrace(s.revents, s.status, v, t, refused, if IsWriteAvailable(s.events) then 1 else 0);
    assert r !in d'.out[d'.cursor..];
  }

  lemma OthersCourtesy(d: Dispatcher, r: Ref, d': Dispatcher, q: Ref)
    requires d.cursor < |d.out| && r == d.out[d.cursor] && q != r && q in d.proc.objs && Courtesy(d, q)
    requires d'.out == d.out && d'.cursor == d.cursor + 1 && d'.phase == d.phase
    requires q in d'.proc.objs && d'.proc.objs[q] == d.proc.objs[q]
    requires r in d'.traces && d'.traces == d.traces[r := d'.traces[r]]
    ensures Courtesy(d', q)
  {
    assert d.out[d.cursor..] == [r] + d'.out[d'.cursor..];
  }

  /** A visit keeps every session's courtesy, in any state. */
  lemma VisitSessions(d: Dispatcher, r: Ref, v: Visit, d': Dispatcher)
    requires d.cursor < |d.out| && d.phase == Serving && Distinct(d.out) && r == d.out[d.cursor] && r != UNIX_REF
    requires r in d.proc.objs && r in d.traces && VisitOk(v) && VisitShape(Advance(d), r, v, d')
    requires forall q :: q in d.proc.objs && q != UNIX_REF ==> Courtesy(d, q)
    requires PastSessions(d)
    ensures forall q :: q in d'.proc.objs && q != UNIX_REF ==> d'.cursor <= |d'.out| && Courtesy(d', q)
    ensures forall q :: q in d'.traces ==> q != UNIX_REF && q < d'.proc.next && Courteous(d'.traces[q])
  {
    hide Courtesy, Courteous, VisitClient, History, VisitShape;
    var refused := ShapeKeeps(Advance(d), r, v, d');
    VisitCourtesy(d, r, v, refused, d');
    forall q | q in d'.proc.objs && q != UNIX_REF && q != r ensures Courtesy(d', q) {
      OthersCourtesy(d, r, d', q);
    }
  }

  /** In a sound state a Bye ends the session of the client visited unless its removal is refused. */
  lemma VisitByes(d: Dispatcher, r: Ref, v: Visit, k: nat, d': Dispatcher)
    requires Distinct(d.list) && k < |d.list| && d.list[k] == r
    requires r in d.proc.objs && r in d.traces && VisitOk(v) && VisitEffect(Advance(d), r, v, k, d')
    requires forall q :: q in d.traces ==> NoByeYet(d, q)
    requires forall q :: q in d.traces && d.traces[q].refusals == 0 ==> ByeLast(d.traces[q].replies)
    ensures forall q :: q in d'.traces ==> NoByeYet(d', q)
    ensures forall q :: q in d'.traces && d'.traces[q].refusals == 0 ==> ByeLast(d'.traces[q].replies)
  {
    hide VisitClient, History, Distinct;
    var s := d.proc.objs[r];
    assert r in d.list && NoByeYet(d, r);
    VisitEndsWithBye(s.revents, s.status, v, d.traces[r], |d.list| == CAPACITY);
    HistoryRefusal(d.traces[r], VisitClient(s.revents, s.status, v), |d.list| == CAPACITY);
    WithoutEffect(d.list, k);
    forall q | q in d'.traces && q != r ensures NoByeYet(d', q) {
      assert NoByeYet(d, q);
    }
  }

  lemma HistoryRefusal(t: Trace, res: Visited, refused: bool)
    ensures !res.keep && refused ==> History(t, res, refused).refusals > 0
  {
  }

  // ----- this round's answers

  /** The result bits of every socket still to be served are this round's poll answers. */
  ghost predicate AnswersFresh(d: Dispatcher) {
    d.phase == Serving ==> forall i :: d.cursor <= i < |d.out| ==>
      d.out[i] in d.answers && d.out[i] in d.proc.objs && d.proc.objs[d.out[i]].revents == d.answers[d.out[i]]
  }

  lemma RoundAnswers(d: Dispatcher, p: Process, poll: Poll)
    requires |poll.answers| == |d.list| && Lists(d) && (forall r :: r in p.objs <==> r in d.list || r == UNIX_REF)
    ensures AnswersFresh(PollRound(d, p, poll))
  {
    hide Selected, PutAll, Distinct;
    var d' := PollRound(d, p, poll);
    RoundObjects(p.objs, d.list, d'.answers);
    RoundLists(d, p, poll);
  }

  lemma ReceiveAnswers(d: Dispatcher, u: Unit, attached: Option<int>, d': Dispatcher)
    requires AnswersFresh(d) && u.DescriptorUnit? && ReceiveEffect(d, u, attached, d')
    requires SslRef(d.proc) !in d.proc.objs
    ensures AnswersFresh(d')
  {
  }

  lemma VisitAnswers(d: Dispatcher, r: Ref, v: Visit, d': Dispatcher)
    requires AnswersFresh(d) && d.cursor < |d.out| && Distinct(d.out) && r == d.out[d.cursor]
    requires r in d.proc.objs && r in d.traces && VisitOk(v) && VisitShape(Advance(d), r, v, d') && Objects(d')
    ensures AnswersFresh(d')
  {
    hide VisitShape, VisitClient, History;
    var refused := ShapeKeeps(Advance(d), r, v, d');
    assert forall i :: 0 <= i < |d'.out| ==> Referenced(d', d'.out[i]);
  }
}
