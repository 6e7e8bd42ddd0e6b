/** Runs of the dispatcher that show what the theorems have to allow for: a socket made over a
    stale number, a list that fills up, and a client that takes its leave twice. */
module DispatcherScenarios {
  import opened Sockets
  import opened Polling
  import opened DescriptorPassing
  import opened Configuration
  import opened ClientSession
  import opened Ownership
  import opened Channel
  import opened Rounds
  import opened DispatcherLoop
  import opened DispatcherInvariants
  import opened DispatcherSteps
  import opened DispatcherTheorems

  // ----- a round in which one socket is readable

  /** Only the socket at place `k` is answered, and it is readable. */
  function OnlyReadable(n: nat, k: nat): (answers: seq<Events>)
    ensures |answers| == n
    ensures forall i :: 0 <= i < n ==> answers[i] == if i == k then {POLLIN} else NO_EVENTS
  {
    seq(n, i => if i == k then {POLLIN} else NO_EVENTS)
  }

  lemma {:induction false} OnlySelected(xs: seq<Ref>, answers: seq<Events>, k: nat)
    requires |answers| == |xs| && k < |xs| && answers[k] != NO_EVENTS
    requires forall i :: 0 <= i < |xs| && i != k ==> answers[i] == NO_EVENTS
    ensures Selected(xs, answers) == [xs[k]]
    decreases |xs|
  {
    var n := |xs| - 1;
    if k < n {
      OnlySelected(xs[..n], answers[..n], k);
    } else {
      NoneSelected(xs[..n], answers[..n]);
    }
  }

  lemma {:induction false} NoneSelected(xs: seq<Ref>, answers: seq<Events>)
    requires |answers| == |xs| && forall i :: 0 <= i < |xs| ==> answers[i] == NO_EVENTS
    ensures Selected(xs, answers) == []
    decreases |xs|
  {
    if xs == [] {
    } else {
      NoneSelected(xs[..|xs| - 1], answers[..|xs| - 1]);
    }
  }

  /** The state of a loop at rest with its list in order. */
  ghost predicate AtRest(d: Dispatcher) {
    d.phase == Between && d.stale == 0
  }

  /** The round has begun: the socket at place `k` is to be served, readable; nothing else changed
      but the poll bits and what the clearing closed. */
  ghost predicate Begun(d: Dispatcher, k: nat, d': Dispatcher) {
    && k < |d.list|
    && d' == d.(proc := d'.proc, phase := Serving, cursor := 0, out := [d.list[k]], answers := d'.answers)
    && d'.proc.next == d.proc.next && (forall fd :: fd in d'.proc.open ==> fd in d.proc.open)
    && (forall r :: r in d.list ==> r in d.proc.objs && r in d'.proc.objs && Repolled(d.proc.objs[r], d'.proc.objs[r]))
    && d'.proc.objs[d.list[k]].revents == {POLLIN}
  }

  ghost predicate Repolled(s: Sock, s': Sock) {
    s' == s.(events := NO_EVENTS, revents := s'.revents)
  }

  ghost function ReadablePoll(d: Dispatcher, k: nat): Poll {
    Poll(1, false, OnlyReadable(|d.list|, k))
  }

  lemma BeginEnabled(d: Dispatcher, k: nat)
    requires Structure(d) && AtRest(d) && k < |d.list|
    ensures StepOk(d, [], Round(ReadablePoll(d, k)))
  {
    hide Owned, Balanced, Release, Orderly;
    ClearedEffect(d);
    assert forall r :: r in d.list ==> Referenced(d, r);
    AskedFor(Cleared(d).objs, d.list, k);
  }

  lemma BeginEffect(d: Dispatcher, p: Process, k: nat)
    requires Lists(d) && k < |d.list|
    requires forall r :: r in p.objs <==> r in d.list || r == UNIX_REF
    requires forall r :: r in p.objs ==> r in d.proc.objs && p.objs[r] == d.proc.objs[r]
    requires p.next == d.proc.next && forall fd :: fd in p.open ==> fd in d.proc.open
    ensures Begun(d, k, PollRound(d, p, ReadablePoll(d, k)))
  {
    hide PutAll, Selected, Bits, Polled, Interested;
    var answers, d' := OnlyReadable(|d.list|, k), PollRound(d, p, ReadablePoll(d, k));
    RoundObjects(p.objs, d.list, d'.answers);
    OnlySelected(d.list, answers, k);
    NoPutRefused(CAPACITY, [d.list[k]]);
    BitsAreAnswers(d.list, answers, ErrorType.NONE, k);
    assert d'.out == [d.list[k]];
  }

  lemma ReadableRound(ds: seq<Dispatcher>, k: nat) returns (ds': seq<Dispatcher>)
    requires IsRun(ds) && AtRest(Last(ds)) && k < |Last(ds).list|
    ensures IsRun(ds') && Begun(Last(ds), k, Last(ds'))
  {
    hide Begun, StepOk, Linked, Init, Owned, Balanced, Orderly, Release;
    var d := Last(ds);
    RunSound(ds, |ds| - 1);
    BeginEnabled(d, k);
    Extend(ds, [], Round(ReadablePoll(d, k)));
    ClearedEffect(d);
    BeginEffect(d, Cleared(d), k);
    ds' := ds + [BeginRound(d, ReadablePoll(d, k))];
  }

  lemma AskedFor(objs: map<Ref, Sock>, list: seq<Ref>, k: nat)
    requires k < |list| && (forall r :: r in list ==> r in objs)
    requires forall r :: r in list && r != UNIX_REF ==> objs[r].kind != UNIX
    ensures PollOk(list, Interested(objs, list), OnlyReadable(|list|, k))
  {
    assert POLLIN in Interested(objs, list)[list[k]].events;
  }

  ghost function Quiescent(attached: Option<int>): UnixInput {
    UnixInput(-1, seq(PEEK_BUFFER, _ => 0), attached, 0, false)
  }

  const IDLE: Visit := Visit(-1, seq(READ_BUFFER, _ => 0), 0, 0)

  // ----- a client is received

  /** A round in which the UNIX socket brings one client. */
  ghost predicate Welcomed(d: Dispatcher, attached: Option<int>, d': Dispatcher) {
    var number, ssl := NumberRead(d.control, attached), SslRef(d.proc);
    && d'.phase == Between && d'.control == number
    && d'.list == d.list + [ssl] && ssl in d'.proc.objs && d'.proc.objs[ssl].fd == number &&
         d'.proc.objs[ssl].status == HELLO
    && ssl in d'.traces && d'.traces[ssl] == FRESH_TRACE
    && d'.stale == d.stale + (if attached.None? then 1 else 0)
    && (forall r :: r in d.list ==> r in d.proc.objs && r in d'.proc.objs && d'.proc.objs[r].fd == d.proc.objs[r].fd)
    && (forall fd :: fd in d'.proc.open ==> fd in d.proc.open || attached == Some(fd))
  }

  /** The UNIX socket, readable, has its turn. */
  lemma HandleUnits(d: Dispatcher, chan: seq<Unit>, u: UnixInput)
    requires Structure(d) && d.stale == 0 && d.phase == Serving && d.cursor == 0 && d.out == [UNIX_REF]
    requires d.proc.objs[UNIX_REF].revents == {POLLIN} && UnixInputOk(d, chan, u)
    ensures StepOk(d, chan, Handle(u, IDLE))
    ensures UNIX_REF in d.proc.objs && Step(d, chan, Handle(u, IDLE)) == ServeUnix(Advance(d), chan, u)
  {
    hide Owned, Balanced, Orderly, ReceiveClient, ServeUnix, UnixInputOk;
    assert forall q :: q in d.list || q == UNIX_REF ==> Referenced(d, q);
  }

  lemma HandlePassing(d: Dispatcher, chan: seq<Unit>, attached: Option<int>)
    requires Structure(d) && d.stale == 0 && d.phase == Serving && d.cursor == 0 && d.out == [UNIX_REF]
    requires d.proc.objs[UNIX_REF].revents == {POLLIN} && Installable(d.proc, attached)
    requires chan != [] && chan[0].DescriptorUnit? && UnitOk(chan[0])
    ensures StepOk(d, chan, Handle(Quiescent(attached), IDLE))
    ensures Step(d, chan, Handle(Quiescent(attached), IDLE)) ==
        Served(ReceiveClient(Advance(d), chan[0], attached), chan[1..])
  {
    hide Owned, Balanced, Orderly, ReceiveClient;
    HandleUnits(d, chan, Quiescent(attached));
    ClassifiesUnits(chan, Quiescent(attached));
  }

  lemma HandleUnix(d: Dispatcher, attached: Option<int>, client: nat)
    requires Structure(d) && d.stale == 0 && d.phase == Serving && d.cursor == 0 && d.out == [UNIX_REF]
    requires d.proc.objs[UNIX_REF].revents == {POLLIN} && Installable(d.proc, attached)
    ensures
      var u := DescriptorUnit(0, client);
      && StepOk(d, [u], Handle(Quiescent(attached), IDLE))
      && Step(d, [u], Handle(Quiescent(attached), IDLE)).d == ReceiveClient(Advance(d), u, attached)
  {
    hide Structure, ReceiveClient, StepOk, Step;
    HandlePassing(d, [DescriptorUnit(0, client)], attached);
  }

  /** A configuration is read into the settings. */
  lemma HandleConfiguring(d: Dispatcher, chan: seq<Unit>)
    requires Structure(d) && d.stale == 0 && d.phase == Serving && d.cursor == 0 && d.out == [UNIX_REF]
    requires d.proc.objs[UNIX_REF].revents == {POLLIN}
    requires chan != [] && chan[0].ConfigUnit? && UnitOk(chan[0])
    ensures StepOk(d, chan, Handle(Quiescent(None), IDLE))
    ensures Step(d, chan, Handle(Quiescent(None), IDLE)) ==
      Served(Advance(d).(settings := Parse(d.settings, Lines(Wire(chan[0])))), chan[1..])
  {
    hide Owned, Balanced, Orderly, ReceiveClient, Parse, Lines, LinesFit;
    HandleUnits(d, chan, Quiescent(None));
    ClassifiesUnits(chan, Quiescent(None));
  }

  lemma ReceptionEffect(d: Dispatcher, b: Dispatcher, attached: Option<int>, client: nat, e: Dispatcher)
    requires Begun(d, 0, b) && |d.list| < CAPACITY && NumberRead(d.control, attached) > 0
    requires FreshIn(b) && ReceiveEffect(Advance(b), DescriptorUnit(0, client), attached, e)
    ensures Welcomed(d, attached, e.(phase := Between)) && e.phase == Serving && e.cursor == |e.out|
  {
  }

  /** The rest of a round whose UNIX socket is readable: the reception and the finish. */
  lemma ReceiveAndFinish(ds: seq<Dispatcher>, d: Dispatcher, attached: Option<int>, client: nat)
      returns (ds': seq<Dispatcher>)
    requires IsRun(ds) && AtRest(d) && Begun(d, 0, Last(ds)) && d.list[0] == UNIX_REF && |d.list| < CAPACITY
    requires NumberRead(d.control, attached) > 0 && Installable(d.proc, attached)
    ensures IsRun(ds') && Welcomed(d, attached, Last(ds'))
  {
    hide Welcomed, ReceiveEffect, ReceiveClient, Linked, Init, Owned, Balanced, FreshIn, Repolled, Lists, Orderly;
    var b, u := Last(ds), DescriptorUnit(0, client);
    RunSound(ds, |ds| - 1);
    HandleUnix(b, attached, client);
    Extend(ds, [u], Handle(Quiescent(attached), IDLE));
    var e := ReceiveClient(Advance(b), u, attached);
    ReceptionOutcome(d, b, attached, client);
    Extend(ds + [e], [], Finish);
    ds' := ds + [e] + [e.(phase := Between)];
  }

  lemma ReceptionOutcome(d: Dispatcher, b: Dispatcher, attached: Option<int>, client: nat)
    requires Begun(d, 0, b) && Objects(b) && |d.list| < CAPACITY
    requires NumberRead(d.control, attached) > 0 && Installable(d.proc, attached)
    ensures
      var e := ReceiveClient(Advance(b), DescriptorUnit(0, client), attached);
      Welcomed(d, attached, e.(phase := Between)) && e.phase == Serving && e.cursor == |e.out|
  {
    hide Welcomed, ReceiveEffect, ReceiveClient, Repolled;
    FreshNames(b);
    ReceiveCases(Advance(b), DescriptorUnit(0, client), attached);
    ReceptionEffect(d, b, attached, client, ReceiveClient(Advance(b), DescriptorUnit(0, client), attached));
  }

  lemma OneReception(ds: seq<Dispatcher>, attached: Option<int>, client: nat) returns (ds': seq<Dispatcher>)
    requires IsRun(ds) && AtRest(Last(ds)) && |Last(ds).list| < CAPACITY
    requires NumberRead(Last(ds).control, attached) > 0 && Installable(Last(ds).proc, attached)
    ensures IsRun(ds') && Welcomed(Last(ds), attached, Last(ds'))
  {
    hide Welcomed, Begun, Linked, Init, Owned, Balanced, Lists, Objects;
    RunSound(ds, |ds| - 1);
    var ds1 := ReadableRound(ds, 0);
    ds' := ReceiveAndFinish(ds1, Last(ds), attached, client);
  }

  // ----- a socket is made over a stale number

  /** Whenever the number left in the control buffer is a listed socket's and the list has room, the
      kernel can make the dispatcher list a second socket over it: ownership is lost. */
  lemma StaleNumberIsShared(ds: seq<Dispatcher>, k: nat, client: nat) returns (ds': seq<Dispatcher>)
    requires IsRun(ds) && AtRest(Last(ds)) && 0 < k < |Last(ds).list| < CAPACITY
    requires Last(ds).list[k] in Last(ds).proc.objs
    requires Last(ds).control == Last(ds).proc.objs[Last(ds).list[k]].fd > 0
    ensures IsRun(ds')
    ensures
      var d, d' := Last(ds), Last(ds');
      && |d'.list| == |d.list| + 1 && d'.list[k] == d.list[k]
      && d'.list[k] in d'.proc.objs && d'.list[|d.list|] in d'.proc.objs
      && d'.proc.objs[d'.list[k]].fd == d'.proc.objs[d'.list[|d.list|]].fd
      && !OwnershipHolds(d')
  {
    hide Linked, Init, OwnershipHolds;
    ds' := OneReception(ds, None, client);
    OwnershipHoldsIffNothingStale(ds', |ds'| - 1);
  }

  lemma FirstState(fd: int, control: int)
    requires fd != FREE_SOCKET
    ensures IsRun([Started(fd, control)]) && AtRest(Started(fd, control))
  {
  }

  /** Such a run: a client is received under number 5, and the message for the next one arrives
      without its control data. */
  lemma TwoSocketsOverOneDescriptor() returns (ds: seq<Dispatcher>)
    ensures IsRun(ds) && !OwnershipHolds(Last(ds))
    ensures
      var d := Last(ds);
      |d.list| == 3 && (forall r :: r in d.list ==> r in d.proc.objs) && Fds(d.proc.objs, d.list) == [3, 5, 5]
  {
    hide Linked, Init, OwnershipHolds;
    var d0 := Started(3, 0);
    FirstState(3, 0);
    var ds1 := OneReception([d0], Some(5), 0);
    assert Last([d0]) == d0 && |d0.list| == 1;
    var d1 := Last(ds1);
    ds := OneReception(ds1, None, 1);
    var d2 := Last(ds);
    assert d2.list == [d0.list[0], d1.list[1], d2.list[2]];
    assert d0.list[0] in d0.list && d0.list[0] in d1.list && d1.list[1] in d1.list;
    OwnershipHoldsIffNothingStale(ds, |ds| - 1);
  }

  // ----- the list fills up

  /** Clients received under numbers 4, 5, ... fill the list up to any size its capacity allows. */
  lemma {:induction false} FillUp(k: nat) returns (ds: seq<Dispatcher>)
    requires k < CAPACITY
    ensures IsRun(ds) && AtRest(Last(ds)) && |Last(ds).list| == k + 1
    ensures forall fd :: fd in Last(ds).proc.open ==> fd < 4 + k
  {
    hide Linked, Init;
    if k == 0 {
      FirstState(3, 0);
      ds := [Started(3, 0)];
    } else {
      var ds1 := FillUp(k - 1);
      ds := OneReception(ds1, Some(3 + k), k - 1);
    }
  }

  /** A full list is reachable. */
  lemma FullListIsReachable() returns (ds: seq<Dispatcher>)
    ensures IsRun(ds) && AtRest(Last(ds)) && |Last(ds).list| == CAPACITY
  {
    ds := FillUp(CAPACITY - 1);
  }

  // ----- a client takes its leave

  const EXITING: Visit := Visit(4, EXIT + seq(READ_BUFFER - 4, _ => 0), 0, 0)

  lemma ExitingReads()
    ensures VisitOk(EXITING) && EXITING.buffer[..|EXIT|] == EXIT
  {
  }

  lemma ExitVisit(status: ClientStatus)
    ensures VisitOk(EXITING)
    ensures VisitClient({POLLIN}, status, EXITING) == Visited({POLLOUT}, BYE, false, Some(Bye), true)
  {
    ExitingReads();
  }

  /** The client at place `k` of a full list says EXIT: it is told Bye and stays. */
  ghost predicate ToldBye(d: Dispatcher, r: Ref, d': Dispatcher) {
    && d'.list == d.list && AtRest(d') && r in d.traces && r in d'.traces
    && d'.traces[r] == Trace(d.traces[r].replies + [Bye], d.traces[r].readCount + 1, d.traces[r].refusals + 1)
  }

  lemma HandleClient(d: Dispatcher, r: Ref)
    requires Structure(d) && LiveSessions(d) && d.phase == Serving && d.cursor == 0 && d.out == [r] && r != UNIX_REF
    requires VisitOk(EXITING)
    ensures
      && StepOk(d, [], Handle(Quiescent(None), EXITING)) && r in d.traces
      && Step(d, [], Handle(Quiescent(None), EXITING)).d == ServeClient(Advance(d), r, EXITING)
  {
    hide Owned, Balanced, Orderly, ServeClient, NoByeYet, StatusFits;
    assert Referenced(d, r) && Courtesy(d, r);
    assert forall q :: q in d.list || q == UNIX_REF ==> Referenced(d, q);
  }

  lemma ByeEffect(d: Dispatcher, b: Dispatcher, k: nat, e: Dispatcher)
    requires Begun(d, k, b) && AtRest(d) && d.list[k] in d.traces && |d.list| == CAPACITY && VisitOk(EXITING)
    requires VisitEffect(Advance(b), d.list[k], EXITING, k, e)
    ensures ToldBye(d, d.list[k], e.(phase := Between)) && e.phase == Serving && e.cursor == |e.out|
  {
    hide VisitClient;
    ExitVisit(b.proc.objs[d.list[k]].status);
  }

  lemma OneLeave(ds: seq<Dispatcher>, k: nat) returns (ds': seq<Dispatcher>)
    requires IsRun(ds) && AtRest(Last(ds)) && 0 < k < |Last(ds).list| == CAPACITY
    ensures IsRun(ds') && ToldBye(Last(ds), Last(ds).list[k], Last(ds'))
  {
    hide ToldBye, ServeClient, VisitEffect, Linked, Init, Accounted, OpenIsOwned, ObjectsLive,
         DescriptorsApart, Balanced, Repolled;
    var d, r := Last(ds), Last(ds).list[k];
    var ds1 := ReadableRound(ds, k);
    var b := Last(ds1);
    RunSound(ds, |ds| - 1);
    assert r != UNIX_REF;
    RunSound(ds1, |ds1| - 1);
    RunSessions(ds1, |ds1| - 1);
    ExitingReads();
    HandleClient(b, r);
    Extend(ds1, [], Handle(Quiescent(None), EXITING));
    var e := ServeClient(Advance(b), r, EXITING);
    var j := ClientCases(b, EXITING);
    assert j == k;
    ByeEffect(d, b, k, e);
    Extend(ds1 + [e], [], Finish);
    ds' := ds1 + [e] + [e.(phase := Between)];
  }

  /** On a full list a client that asks to leave twice is told Bye twice, and is still listed. */
  lemma TwoByes() returns (ds: seq<Dispatcher>, r: Ref)
    ensures IsRun(ds) && r in Last(ds).traces && r in Last(ds).list
    ensures
      var t := Last(ds).traces[r];
      |t.replies| >= 2 && t.replies[|t.replies| - 2..] == [Bye, Bye] && t.refusals >= 2
  {
    hide Linked, Init;
    var ds0 := FullListIsReachable();
    r := Last(ds0).list[1];
    var ds1 := OneLeave(ds0, 1);
    ds := OneLeave(ds1, 1);
  }
}
