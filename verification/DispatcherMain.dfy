/** The dispatcher's main loop (mydisp.cpp) over the socket objects themselves. The object of the
    loop carries the run of the dispatcher machine it has gone through: every method extends it by
    exactly the machine's steps, so that what is proved of all runs holds of the program. */
module DispatcherMain {
  import opened Sockets
  import opened SocketLists
  import opened Polling
  import opened DescriptorPassing
  import opened Configuration
  import opened ClientSession
  import opened Ownership
  import opened Channel
  import opened Rounds
  import opened ObjectMirror
  import D = DispatcherLoop
  import DI = DispatcherInvariants
  import DS = DispatcherSteps
  import DT = DispatcherTheorems

  const UNIX_REF: Ref := D.UNIX_REF
  const CAPACITY: nat := D.CAPACITY

  /** A client just received: an SSL socket, asked for writing, that is to be greeted. */
  ghost predicate IsGreeted(s: Socket, fd: int)
    reads s
  {
    && s.descriptor == fd && s.kind == SSL && !s.listening && !s.protectDescriptor
    && s.events == {POLLOUT} && s.revents == NO_EVENTS && s.clientStatus == HELLO
  }

  lemma GreetedLooks(p: Process, number: int, s: Socket)
    requires IsGreeted(s, number)
    ensures Looks(s, DI.WithClient(p, number).objs[D.SslRef(p)])
    ensures forall r :: r in DI.WithClient(p, number).objs && r != D.SslRef(p) ==>
        r in p.objs && DI.WithClient(p, number).objs[r] == p.objs[r]
  {
  }

  /** A round of the machine, object by object. */
  lemma RoundLooks(d: D.Dispatcher, poll: Poll, i: nat)
    requires DI.Lists(d) && DI.Objects(d) && Balanced(d.proc, d.stale) && |poll.answers| == |d.list| && i < |d.list|
    ensures forall r :: r in d.out ==> r in d.proc.objs
    ensures
      var d', r := D.BeginRound(d, poll), d.list[i];
      && r in d.proc.objs && r in d'.proc.objs
      && d'.proc.objs[r] ==
           AnsweredBy(d.proc.objs[r],
             if Polling.Outcome(poll.ret, poll.interrupted).NONE? then poll.answers[i] else NO_EVENTS)
  {
    hide Selected, PutAll, Release, Balanced, LastAnswer;
    DI.ClearedEffect(d);
    var e := Polling.Outcome(poll.ret, poll.interrupted);
    DI.RoundObjects(D.Cleared(d).objs, d.list, Bits(d.list, poll.answers, e));
    BitsAreAnswers(d.list, poll.answers, e, i);
    assert DI.Referenced(d, d.list[i]);
  }

  /** What a round leaves besides: the objects, the output list, and an unlisted UNIX socket asked once more. */
  lemma RoundRest(d: D.Dispatcher, poll: Poll)
    requires DI.Lists(d) && DI.Objects(d) && Balanced(d.proc, d.stale) && |poll.answers| == |d.list|
    ensures forall r :: r in d.out ==> r in d.proc.objs
    ensures
      var d' := D.BeginRound(d, poll);
      && (forall r :: r in d'.proc.objs <==> r in d.list || r == UNIX_REF)
      && (UNIX_REF !in d.list ==> d'.proc.objs[UNIX_REF] == Asked(d.proc.objs[UNIX_REF]))
      && d'.out == (if Polling.Outcome(poll.ret, poll.interrupted).NONE? then Selected(d.list, poll.answers) else [])
      && d'.list == d.list && d'.control == d.control && d'.settings == d.settings && d'.proc.next == d.proc.next
  {
    hide Selected, PutAll, Release, Balanced, LastAnswer;
    DI.ClearedEffect(d);
    DI.RoundObjects(D.Cleared(d).objs, d.list, Bits(d.list, poll.answers, Polling.Outcome(poll.ret, poll.interrupted)));
    DI.RoundOutput(d.list, poll.answers);
  }

  /** What the machine's kernel is asked for each listed socket. */
  lemma AskedEvents(d: D.Dispatcher, i: nat)
    requires DI.Lists(d) && DI.Objects(d) && Balanced(d.proc, d.stale) && i < |d.list|
    ensures forall r :: r in d.out ==> r in d.proc.objs
    ensures
      var asked := D.Interested(D.Cleared(d).objs, d.list);
      && d.list[i] in d.proc.objs && d.list[i] in asked
      && asked[d.list[i]].fd == d.proc.objs[d.list[i]].fd &&
           asked[d.list[i]].events == d.proc.objs[d.list[i]].events + {POLLIN}
  {
    hide Release, Balanced;
    DI.ClearedEffect(d);
    assert DI.Referenced(d, d.list[i]);
  }

  lemma AllLooks(d: D.Dispatcher, poll: Poll)
    requires DI.Lists(d) && DI.Objects(d) && Balanced(d.proc, d.stale) && |poll.answers| == |d.list|
    ensures forall r :: r in d.out ==> r in d.proc.objs
    ensures forall i :: 0 <= i < |d.list| ==>
      && d.list[i] in d.proc.objs && d.list[i] in D.BeginRound(d, poll).proc.objs
      && D.BeginRound(d, poll).proc.objs[d.list[i]] ==
           AnsweredBy(d.proc.objs[d.list[i]],
             if Polling.Outcome(poll.ret, poll.interrupted).NONE? then poll.answers[i] else NO_EVENTS)
  {
    hide D.BeginRound, DI.Lists, Balanced, AnsweredBy;
    DI.ClearedEffect(d);
    forall i | 0 <= i < |d.list|
      ensures d.list[i] in d.proc.objs && d.list[i] in D.BeginRound(d, poll).proc.objs
      ensures D.BeginRound(d, poll).proc.objs[d.list[i]] ==
        AnsweredBy(d.proc.objs[d.list[i]],
          if Polling.Outcome(poll.ret, poll.interrupted).NONE? then poll.answers[i] else NO_EVENTS)
    {
      RoundLooks(d, poll, i);
    }
  }

  lemma AllAsked(d: D.Dispatcher)
    requires DI.Lists(d) && DI.Objects(d) && Balanced(d.proc, d.stale)
    ensures forall r :: r in d.out ==> r in d.proc.objs
    ensures
      var asked := D.Interested(D.Cleared(d).objs, d.list);
      forall i :: 0 <= i < |d.list| ==>
        && d.list[i] in d.proc.objs && d.list[i] in asked
        && asked[d.list[i]].fd == d.proc.objs[d.list[i]].fd &&
             asked[d.list[i]].events == d.proc.objs[d.list[i]].events + {POLLIN}
  {
    hide DI.Lists, Balanced, D.Interested;
    DI.ClearedEffect(d);
    var asked := D.Interested(D.Cleared(d).objs, d.list);
    forall i | 0 <= i < |d.list|
      ensures d.list[i] in d.proc.objs && d.list[i] in asked
      ensures asked[d.list[i]].fd == d.proc.objs[d.list[i]].fd
      ensures asked[d.list[i]].events == d.proc.objs[d.list[i]].events + {POLLIN}
    {
      AskedEvents(d, i);
    }
  }

  /** The machine's round, and what is known of the state it starts from. */
  lemma RoundGoesOn(run: seq<D.Dispatcher>, poll: Poll)
    requires DT.IsRun(run) && D.StepOk(DT.Last(run), [], D.Round(poll))
    ensures
      var d := DT.Last(run);
      && DI.Lists(d) && DI.Objects(d) && Balanced(d.proc, d.stale) && |poll.answers| == |d.list|
      && (forall r :: r in d.out ==> r in d.proc.objs)
      && D.Step(d, [], D.Round(poll)).d == D.BeginRound(d, poll) && DT.IsRun(run + [D.BeginRound(d, poll)])
  {
    hide DT.Linked, D.Init, Owned, Balanced, DI.Orderly, D.BeginRound;
    DT.RunSound(run, |run| - 1);
    DT.Extend(run, [], D.Round(poll));
  }

  /** The machine's handling of its UNIX socket, and what is known of the state it starts from. */
  lemma UnixGoesOn(run: seq<D.Dispatcher>, chan: seq<Unit>, u: D.UnixInput, v: Visit)
    requires DT.IsRun(run) && VisitOk(v)
    requires
      var d := DT.Last(run);
      d.phase == D.Serving && d.cursor < |d.out| && d.out[d.cursor] == UNIX_REF && D.UnixInputOk(d, chan, u)
    ensures
      var d := DT.Last(run);
      && UNIX_REF in d.proc.objs && DI.FreshIn(DI.Advance(d)) && D.UnixInputOk(DI.Advance(d), chan, u)
      && D.StepOk(d, chan, D.Handle(u, v))
      && D.Step(d, chan, D.Handle(u, v)) == D.ServeUnix(DI.Advance(d), chan, u)
      && DT.IsRun(run + [D.ServeUnix(DI.Advance(d), chan, u).d])
  {
    hide DT.Linked, D.Init, Owned, Balanced, DI.Orderly, D.ServeUnix, DI.Lists, D.Serve;
    var d := DT.Last(run);
    DT.RunSound(run, |run| - 1);
    DT.NeverStuck(run, |run| - 1, chan, u, v);
    DI.FreshNames(d);
    assert DI.Referenced(d, UNIX_REF);
    DS.ServeDispatches(d, chan, u, v);
    DT.Extend(run, chan, D.Handle(u, v));
  }

  /** The machine's visit to a client, and what is known of the state it starts from. */
  lemma ClientGoesOn(run: seq<D.Dispatcher>, chan: seq<Unit>, v: Visit)
    requires DT.IsRun(run) && VisitOk(v) && UnitsOk(chan)
    requires
      var d := DT.Last(run);
      d.phase == D.Serving && d.cursor < |d.out| && d.out[d.cursor] != UNIX_REF
    ensures
      var d := DT.Last(run);
      && d.out[d.cursor] in d.proc.objs && d.out[d.cursor] in d.traces
      && (forall q :: q in d.list ==> q in d.proc.objs)
      && D.StepOk(d, chan, D.Handle(QUIET, v))
      && D.Step(d, chan, D.Handle(QUIET, v)) == D.Served(D.ServeClient(DI.Advance(d), d.out[d.cursor], v), chan)
      && DT.IsRun(run + [D.ServeClient(DI.Advance(d), d.out[d.cursor], v)])
  {
    hide DT.Linked, D.Init, Owned, Balanced, DI.Orderly, D.ServeClient, DI.Lists, D.Serve;
    var d := DT.Last(run);
    QuietOk(d, chan);
    DT.RunSound(run, |run| - 1);
    DT.NeverStuck(run, |run| - 1, chan, QUIET, v);
    DS.ServeDispatches(d, chan, QUIET, v);
    DS.ClientShape(d, v);
    DT.Extend(run, chan, D.Handle(QUIET, v));
  }

  // ----- a client's turn in two halves

  /** The machine's visit is what the client is told and, if it is not kept, the erasure. */
  lemma VisitThenErase(d: D.Dispatcher, r: Ref, v: Visit)
    requires r in d.proc.objs && r in d.traces && VisitOk(v) && forall q :: q in d.list ==> q in d.proc.objs
    ensures
      var s := d.proc.objs[r];
      var res, refused := VisitClient(s.revents, s.status, v), !Deletes(Fds(d.proc.objs, d.list), CAPACITY, s.fd);
      D.ServeClient(d, r, v) == if res.keep then D.Noted(d, r, res, refused) else Erased(D.Noted(d, r, res, refused), r)
  {
    hide VisitClient, History, Release, D.Unlist;
    var s := d.proc.objs[r];
    var fds, res := Fds(d.proc.objs, d.list), VisitClient(s.revents, s.status, v);
    var m := D.Noted(d, r, res, !Deletes(fds, CAPACITY, s.fd));
    assert Fds(m.proc.objs, m.list) == fds;
  }

  /** The erasure of a client that is not kept. */
  ghost function Erased(m: D.Dispatcher, r: Ref): D.Dispatcher
    requires r in m.proc.objs && forall q :: q in m.list ==> q in m.proc.objs
  {
    var fds, fd := Fds(m.proc.objs, m.list), m.proc.objs[r].fd;
    if Deletes(fds, CAPACITY, fd) then D.Unlist(m, IndexOf(fds, fd)) else m
  }

  lemma ErasedOutcome(m: D.Dispatcher, r: Ref)
    requires r in m.proc.objs && forall q :: q in m.list ==> q in m.proc.objs
    ensures
      var d' := Erased(m, r);
      && d' == m.(list := d'.list, proc := d'.proc, removed := d'.removed) && d'.proc.next == m.proc.next
      && d'.list == Delete(m.list, Fds(m.proc.objs, m.list), CAPACITY, m.proc.objs[r].fd)
      && (forall q :: q in d'.proc.objs ==> q in m.proc.objs && d'.proc.objs[q] == m.proc.objs[q])
  {
    hide Release, Delete, D.Unlist;
    var fds, fd := Fds(m.proc.objs, m.list), m.proc.objs[r].fd;
    if Deletes(fds, CAPACITY, fd) {
      DI.UnlistDeletes(m, fd);
      DI.UnlistKeeps(m, IndexOf(fds, fd));
      DI.UnlistFrame(m, IndexOf(fds, fd));
    } else {
      NothingDeleted(m.list, fds, CAPACITY, fd);
    }
  }

  // ----- the turns of a round

  ghost predicate UnitsOk(chan: seq<Unit>) {
    forall i :: 0 <= i < |chan| ==> UnitOk(chan[i])
  }

  /** The kernel brings nothing to the UNIX socket. */
  const QUIET: D.UnixInput := D.UnixInput(-1, Blank(D.PEEK_BUFFER), None, 0, false)

  function Blank(n: nat): (r: Text)
    ensures |r| == n
  {
    if n == 0 then [] else Blank(n - 1) + [0]
  }

  lemma QuietOk(d: D.Dispatcher, chan: seq<Unit>)
    requires UnitsOk(chan)
    ensures D.UnixInputOk(d, chan, QUIET)
  {
  }

  /** What the kernel brings to the polled socket whose turn it is: `u` is for the UNIX socket. */
  ghost function InputAt(d: D.Dispatcher, u: D.UnixInput): D.UnixInput
    requires d.cursor < |d.out|
  {
    if d.out[d.cursor] == UNIX_REF then u else QUIET
  }

  ghost predicate TurnOk(s: D.Served, u: D.UnixInput, v: Visit) {
    s.d.phase == D.Serving && s.d.cursor < |s.d.out| && D.StepOk(s.d, s.chan, D.Handle(InputAt(s.d, u), v))
  }

  /** One polled socket's turn, on the dispatcher and on its channel; without one nothing changes. */
  ghost function Turn(s: D.Served, u: D.UnixInput, v: Visit): D.Served {
    if TurnOk(s, u, v) then D.Step(s.d, s.chan, D.Handle(InputAt(s.d, u), v)) else s
  }

  /** The dispatcher and its channel after the first `n` turns. */
  ghost function AfterTurns(s: D.Served, u: D.UnixInput, visits: seq<Visit>, n: nat): D.Served
    requires n <= |visits|
  {
    if n == 0 then s else Turn(AfterTurns(s, u, visits, n - 1), u, visits[n - 1])
  }

  /** The run from place `from` on is `n` turns, each one the machine admits, with one state after each. */
  ghost predicate Traced(run: seq<D.Dispatcher>, from: nat, s: D.Served, u: D.UnixInput, visits: seq<Visit>, n: nat) {
    && |run| == from + n + 1 && n <= |visits|
    && run[from] == s.d
    && (forall k :: 0 <= k < n ==> TracedAt(run, from, s, u, visits, k))
  }

  /** The k-th turn is admitted, and the run holds the state it leads to. */
  ghost predicate TracedAt(run: seq<D.Dispatcher>, from: nat, s: D.Served, u: D.UnixInput, visits: seq<Visit>, k: nat)
    requires k < |visits| && from + k + 1 < |run|
  {
    TurnOk(AfterTurns(s, u, visits, k), u, visits[k]) && run[from + k + 1] == AfterTurns(s, u, visits, k + 1).d
  }

  lemma TracedNothing(run: seq<D.Dispatcher>, chan: seq<Unit>, u: D.UnixInput, visits: seq<Visit>, n: nat)
    requires |run| > 0 && n == 0
    ensures Traced(run, |run| - 1, D.Served(DT.Last(run), chan), u, visits, n)
    ensures AfterTurns(D.Served(DT.Last(run), chan), u, visits, n) == D.Served(DT.Last(run), chan)
  {
    hide Turn, TurnOk;
  }

  lemma {:induction false} TracedMore(
      run: seq<D.Dispatcher>, from: nat, s: D.Served, u: D.UnixInput, visits: seq<Visit>, n: nat, next: D.Served)
    requires Traced(run, from, s, u, visits, n) && n < |visits|
    requires TurnOk(AfterTurns(s, u, visits, n), u, visits[n])
    requires next == Turn(AfterTurns(s, u, visits, n), u, visits[n])
    ensures Traced(run + [next.d], from, s, u, visits, n + 1) && AfterTurns(s, u, visits, n + 1) == next
  {
    hide TurnOk, Turn;
    var more := run + [next.d];
    forall k | 0 <= k < n + 1 ensures TracedAt(more, from, s, u, visits, k) {
      assert k < n ==> TracedAt(run, from, s, u, visits, k);
    }
  }

  /** What the UNIX socket's turn leaves of the round. */
  lemma UnixPlace(run: seq<D.Dispatcher>, chan: seq<Unit>, u: D.UnixInput, v: Visit)
    requires DT.IsRun(run) && VisitOk(v)
    requires
      var d := DT.Last(run);
      d.phase == D.Serving && d.cursor < |d.out| && d.out[d.cursor] == UNIX_REF && D.UnixInputOk(d, chan, u)
    ensures D.StepOk(DT.Last(run), chan, D.Handle(u, v))
    ensures
      var d, d' := DT.Last(run), D.Step(DT.Last(run), chan, D.Handle(u, v)).d;
      d'.out == d.out && d'.cursor == d.cursor + 1 && (d'.phase == D.Serving || d'.phase == D.Broken)
  {
    hide DT.Linked, D.Init, D.ServeUnix, D.StepOk, D.Step, DS.UnixEffect, DI.FreshIn;
    UnixGoesOn(run, chan, u, v);
    var n := DI.Advance(DT.Last(run));
    DS.UnixCases(n, chan, u);
    DT.UnixKeepsOut(n, chan, u, D.ServeUnix(n, chan, u).d);
    UnixPhases(n, chan, u, D.ServeUnix(n, chan, u).d);
  }

  lemma UnixPhases(d: D.Dispatcher, chan: seq<Unit>, u: D.UnixInput, d': D.Dispatcher)
    requires DS.UnixEffect(d, chan, u, d') && d.phase == D.Serving
    ensures d'.phase == D.Serving || d'.phase == D.Broken
  {
    hide DI.ReceivedProcess;
  }

  /** When the UNIX socket's turn leaves the loop, what it takes off the channel, and what it sets. */
  lemma TurnLaws(run: seq<D.Dispatcher>, chan: seq<Unit>, u: D.UnixInput, v: Visit)
    requires DT.IsRun(run) && VisitOk(v)
    requires
      var d := DT.Last(run);
      d.phase == D.Serving && d.cursor < |d.out| && d.out[d.cursor] == UNIX_REF && D.UnixInputOk(d, chan, u)
    ensures D.StepOk(DT.Last(run), chan, D.Handle(u, v)) && UNIX_REF in DT.Last(run).proc.objs
    ensures
      var d, s' := DT.Last(run), D.Step(DT.Last(run), chan, D.Handle(u, v));
      var flags, config, exit := d.proc.objs[UNIX_REF].revents, u.memory[..6] == [67, 79, 78, 70, 73, 71],
        u.memory[..4] == [69, 88, 73, 84];
      && (s'.d.phase == D.Broken || s'.d.phase == D.Serving)
      && (s'.d.phase == D.Broken <==>
            || POLLERR in flags || POLLHUP in flags || POLLNVAL in flags || POLLRDHUP in flags
            || (if chan == [] then
                  u.size == 0 || (config && (u.configSize < 0 || u.contextError)) || (!config && exit)
                else
                  || chan[0].ExitUnit?
                  || (chan[0].ConfigUnit? && (u.configSize < 0 || u.contextError))
                  || (chan[0].DescriptorUnit? &&
                        (chan[0].fd < 0 || (if u.attached.Some? then u.attached.value else d.control) <= 0))))
      && (chan != [] ==>
            var heard := POLLERR !in flags && POLLHUP !in flags && POLLNVAL !in flags && POLLRDHUP !in flags;
            var configured := heard && chan[0].ConfigUnit? && u.configSize >= 0;
            && s'.chan == (if configured || (heard && chan[0].DescriptorUnit?) then chan[1..] else chan)
            && s'.d.settings == if configured then Parse(d.settings, Lines(Wire(chan[0]))) else d.settings)
  {
    hide DT.Linked, D.Init, D.StepOk, D.Step;
    DT.UnixTurnLaw(run, |run| - 1, chan, u, v);
    if chan != [] {
      DT.UnixTurnReads(run, |run| - 1, chan, u, v);
    }
  }

  /** What a client's turn leaves of the round. */
  lemma ClientPlace(run: seq<D.Dispatcher>, chan: seq<Unit>, v: Visit)
    requires DT.IsRun(run) && VisitOk(v) && UnitsOk(chan)
    requires
      var d := DT.Last(run);
      d.phase == D.Serving && d.cursor < |d.out| && d.out[d.cursor] != UNIX_REF
    ensures D.StepOk(DT.Last(run), chan, D.Handle(QUIET, v))
    ensures
      var d, d' := DT.Last(run), D.Step(DT.Last(run), chan, D.Handle(QUIET, v)).d;
      d'.out == d.out && d'.cursor == d.cursor + 1 && d'.phase == D.Serving
  {
    hide DT.Linked, D.Init, D.ServeClient, D.StepOk, D.Step, DI.Lists, Owned, Balanced, DI.Orderly;
    ClientGoesOn(run, chan, v);
    DT.RunSound(run, |run| - 1);
    DS.ClientCursor(DT.Last(run), v);
  }

  /** The UNIX socket's turn takes at most the first unit off the channel. */
  lemma ChannelShrinks(d: D.Dispatcher, chan: seq<Unit>, u: D.UnixInput)
    requires UNIX_REF in d.proc.objs && D.UnixInputOk(d, chan, u) && UnitsOk(chan)
    ensures UnitsOk(D.ServeUnix(d, chan, u).chan)
  {
    hide D.ReceiveClient, D.PeekMemory, UnitOk;
    if chan != [] {
      assert forall i :: 0 <= i < |chan[1..]| ==> chan[1..][i] == chan[i + 1];
    }
  }

  lemma RoundPhase(run: seq<D.Dispatcher>, poll: Poll)
    requires |run| > 0 && D.StepOk(DT.Last(run), [], D.Round(poll))
    ensures
      var d' := D.Step(DT.Last(run), [], D.Round(poll)).d;
      match Polling.Outcome(poll.ret, poll.interrupted)
      case NONE => d'.phase == D.Serving && d'.cursor == 0
      case ERROR => d'.phase == D.Broken
      case _ => d'.phase == D.Between
  {
    hide Selected, PutAll, Release;
  }

  lemma FinishGoesOn(run: seq<D.Dispatcher>)
    requires DT.IsRun(run) && DT.Last(run).phase == D.Serving && DT.Last(run).cursor == |DT.Last(run).out|
    ensures
      var d := DT.Last(run);
      && D.StepOk(d, [], D.Finish) && D.Step(d, [], D.Finish).d == d.(phase := D.Between)
      && DT.IsRun(run + [d.(phase := D.Between)])
  {
    hide DT.Linked, D.Init;
    DT.Extend(run, [], D.Finish);
  }

  lemma LooksRevents(s: Socket, o: Sock)
    requires Looks(s, o)
    ensures s.revents == o.revents
  {
  }

  class Loop {
    const unixSocket: Socket
    const socketsList: SocketsList
    const reSocketsList: SocketsList
    const appCfg: ApplicationConfig
    var control: int
    ghost var run: seq<D.Dispatcher>
    ghost var refs: map<Ref, Socket>

    /** The machine's state. */
    ghost function Now(): D.Dispatcher
      requires |run| > 0
      reads this
    {
      DT.Last(run)
    }

    /** Lists, socket objects, settings and control buffer are the machine's. */
    ghost predicate Mirrors(d: D.Dispatcher)
      reads this`refs, this`control, socketsList, reSocketsList, appCfg, refs.Values
    {
      && socketsList != reSocketsList && socketsList.maxSize == CAPACITY && reSocketsList.maxSize == CAPACITY
      && Injective(refs) && UNIX_REF in refs && refs[UNIX_REF] == unixSocket && unixSocket.kind == UNIX
      && (forall r :: r in refs ==> r < d.proc.next)
      && Names(refs, d.list, socketsList.sockets) && Names(refs, d.out, reSocketsList.sockets)
      && (forall r :: r in d.proc.objs ==> r in refs && Looks(refs[r], d.proc.objs[r]))
      && control == d.control && appCfg.Current() == d.settings
    }

    ghost predicate Valid()
      reads this, socketsList, reSocketsList, appCfg, refs.Values
    {
      DT.IsRun(run) && Mirrors(DT.Last(run))
    }

    /** The program before its first round; the control buffer holds whatever its memory holds. */
    constructor (descriptor: int, memory: int)
      requires descriptor != FREE_SOCKET
      ensures Valid() && run == [D.Started(descriptor, memory)]
      ensures socketsList.sockets == [unixSocket] && reSocketsList.sockets == []
      ensures unixSocket.descriptor == descriptor && unixSocket.kind == UNIX && !unixSocket.listening
      ensures control == memory && appCfg.Current() == Settings([], [], [])
      ensures fresh(socketsList) && fresh(reSocketsList) && fresh(appCfg) && fresh(refs.Values)
    {
      unixSocket := new Socket(descriptor, UNIX, false);
      socketsList := new SocketsList(CAPACITY);
      reSocketsList := new SocketsList(CAPACITY);
      appCfg := new ApplicationConfig();
      control := memory;
      run := [D.Started(descriptor, memory)];
      refs := map[];
      new;
      refs := map[UNIX_REF := unixSocket];
      var _ := socketsList.PutSocket(unixSocket);
    }

    /** A round up to and including the poll is the machine's: the kernel is asked for exactly what
        the machine's kernel is asked for, and its answers land in the same places. */
    method BeginRound(poll: Poll) returns (e: ErrorType, requested: seq<PollFd>)
      requires Valid() && D.StepOk(Now(), [], D.Round(poll))
      modifies this`run, refs.Values, reSocketsList
      ensures Valid() && run == old(run) + [D.Step(old(Now()), [], D.Round(poll)).d]
      ensures e == Polling.Outcome(poll.ret, poll.interrupted)
      ensures |requested| == |old(Now()).list|
      ensures
        var d, asked := old(Now()), D.Interested(D.Cleared(old(Now())).objs, old(Now()).list);
        forall i :: 0 <= i < |requested| ==>
          d.list[i] in asked && requested[i].fd == asked[d.list[i]].fd && requested[i].events == asked[d.list[i]].events
      ensures Now().phase == D.Broken <==> poll.ret == -1 && !poll.interrupted
      ensures Now().phase == D.Between <==> poll.ret == 0 || (poll.ret == -1 && poll.interrupted)
      ensures Now().phase == D.Serving <==> poll.ret != 0 && poll.ret != -1
      ensures
        var d := old(Now());
        forall i :: 0 <= i < |requested| ==>
          && d.list[i] in d.proc.objs && requested[i].fd == d.proc.objs[d.list[i]].fd
          && requested[i].events == d.proc.objs[d.list[i]].events + {POLLIN}
    {
      hide DT.Linked, D.Init, D.StepOk, D.Step, D.BeginRound, D.Interested, D.Cleared, Mirrors, DI.Objects,
           DI.Lists, Balanced;
      ghost var d := Now();
      RoundGoesOn(run, poll);
      DT.RoundLaw(d, [], poll);
      AllAsked(d);
      e, requested := Poll(d, poll);
      run := run + [D.BeginRound(d, poll)];
    }

    lemma ListedObjects(d: D.Dispatcher, sockets: seq<Socket>)
      requires DI.Lists(d) && DI.Objects(d) && Names(refs, d.list, sockets)
      requires forall r :: r in d.proc.objs ==> r in refs && Looks(refs[r], d.proc.objs[r])
      ensures UNIX_REF in d.proc.objs && forall r :: r in d.list ==> r in d.proc.objs
      ensures Distinct(d.list) && |d.list| <= CAPACITY
      ensures forall r :: r in d.list && r != UNIX_REF ==> refs[r].kind != UNIX
    {
      assert DI.Referenced(d, UNIX_REF);
      assert forall r :: r in d.list ==> DI.Referenced(d, r);
    }

    /** Objects one by one are all objects: the listed ones and the UNIX socket. */
    lemma MirrorsRound(d: D.Dispatcher, d': D.Dispatcher)
      requires Injective(refs) && UNIX_REF in refs && Names(refs, d.list, socketsList.sockets)
      requires forall r :: r in d'.proc.objs <==> r in d.list || r == UNIX_REF
      requires forall i :: 0 <= i < |d.list| ==> Looks(refs[d.list[i]], d'.proc.objs[d.list[i]])
      requires UNIX_REF !in d.list ==> Looks(refs[UNIX_REF], d'.proc.objs[UNIX_REF])
      ensures forall r :: r in d'.proc.objs ==> r in refs && Looks(refs[r], d'.proc.objs[r])
    {
      hide Looks;
    }

    /** The clearing, the asking and the poll, on the objects. */
    method Poll(ghost d: D.Dispatcher, poll: Poll) returns (e: ErrorType, requested: seq<PollFd>)
      requires Mirrors(d) && DI.Lists(d) && DI.Objects(d) && Balanced(d.proc, d.stale) && |poll.answers| == |d.list|
      modifies refs.Values, reSocketsList
      ensures e == Polling.Outcome(poll.ret, poll.interrupted)
      ensures forall r :: r in d.out ==> r in d.proc.objs
      ensures Mirrors(D.BeginRound(d, poll))
      ensures |requested| == |d.list|
      ensures forall i :: 0 <= i < |requested| ==>
        && d.list[i] in d.proc.objs && requested[i].fd == d.proc.objs[d.list[i]].fd
        && requested[i].events == d.proc.objs[d.list[i]].events + {POLLIN}
    {
      hide Selected, Injective, Distinct, D.BeginRound, AnsweredBy, Asked, Balanced, DI.Objects, DI.Lists, Looks;
      RoundRest(d, poll);
      ghost var d' := D.BeginRound(d, poll);
      AllLooks(d, poll);
      ListedObjects(d, socketsList.sockets);
      reSocketsList.Clear();
      e, requested := PollListed(d, poll);
      NamesSelected(refs, d.list, socketsList.sockets, poll.answers);
      MirrorsRound(d, d');
    }

    method PollListed(ghost d: D.Dispatcher, poll: Poll) returns (e: ErrorType, requested: seq<PollFd>)
      requires Injective(refs) && UNIX_REF in refs && refs[UNIX_REF] == unixSocket && unixSocket.kind == UNIX
      requires Names(refs, d.list, socketsList.sockets) && Distinct(d.list) && |poll.answers| == |d.list| <= CAPACITY
      requires forall r :: r in d.proc.objs ==> r in refs && Looks(refs[r], d.proc.objs[r])
      requires UNIX_REF in d.proc.objs && forall r :: r in d.list ==> r in d.proc.objs
      requires forall r :: r in d.list && r != UNIX_REF ==> refs[r].kind != UNIX
      requires socketsList != reSocketsList && reSocketsList.sockets == [] && reSocketsList.maxSize == CAPACITY
      modifies refs.Values, reSocketsList
      ensures e == Polling.Outcome(poll.ret, poll.interrupted)
      ensures reSocketsList.sockets == if e.NONE? then Selected(socketsList.sockets, poll.answers) else []
      ensures forall i :: 0 <= i < |d.list| ==>
        Looks(refs[d.list[i]], AnsweredBy(d.proc.objs[d.list[i]], if e.NONE? then poll.answers[i] else NO_EVENTS))
      ensures UNIX_REF !in d.list ==> Looks(unixSocket, Asked(d.proc.objs[UNIX_REF]))
      ensures |requested| == |d.list|
      ensures forall i :: 0 <= i < |requested| ==>
        requested[i].fd == d.proc.objs[d.list[i]].fd && requested[i].events == d.proc.objs[d.list[i]].events + {POLLIN}
    {
      hide Selected, Injective, Distinct;
      NamesDistinct(refs, d.list, socketsList.sockets);
      AskForRead(d);
      e, requested := PollOnce(socketsList, reSocketsList, poll.ret, poll.interrupted, poll.answers);
      assert forall i :: 0 <= i < |d.list| ==> refs[d.list[i]] == socketsList.sockets[i];
    }

    /** pollForRead on the UNIX socket and on every listed socket of another kind. */
    method AskForRead(ghost d: D.Dispatcher)
      requires Names(refs, d.list, socketsList.sockets) && Injective(refs) && Distinct(d.list)
      requires UNIX_REF in refs && refs[UNIX_REF] == unixSocket && unixSocket.kind == UNIX
      requires forall r :: r in d.list && r != UNIX_REF ==> refs[r].kind != UNIX
      modifies set r | r in refs :: refs[r]`events
      ensures forall r :: r in refs ==>
        refs[r].events == if r in d.list || r == UNIX_REF then old(refs[r].events) + {POLLIN} else old(refs[r].events)
    {
      unixSocket.PollForRead();
      var sockets := socketsList.sockets;
      var n := 0;
      while n < |sockets|
        invariant 0 <= n <= |sockets|
        invariant forall r :: r in refs ==>
          refs[r].events ==
            if r in d.list[..n] || r == UNIX_REF then old(refs[r].events) + {POLLIN} else old(refs[r].events)
      {
        assert d.list[..n + 1] == d.list[..n] + [d.list[n]];
        if sockets[n].kind != UNIX {
          sockets[n].PollForRead();
        }
        n := n + 1;
      }
      assert d.list[..n] == d.list;
    }

    // ----- UNIX socket activity

    /** The UNIX socket's turn is the machine's, whatever the kernel brings, on the program and on
        the channel. */
    method DispatcherProcess(chan: seq<Unit>, u: D.UnixInput, ghost v: Visit) returns (ok: bool, rest: seq<Unit>)
      requires Valid() && Now().phase == D.Serving && Now().cursor < |Now().out| && Now().out[Now().cursor] == UNIX_REF
      requires D.UnixInputOk(Now(), chan, u) && VisitOk(v)
      modifies this`run, this`refs, this`control, socketsList, appCfg
      ensures D.StepOk(old(Now()), chan, D.Handle(u, v))
      ensures Valid() && D.Served(Now(), rest) == D.Step(old(Now()), chan, D.Handle(u, v)) && run == old(run) + [Now()]
      ensures ok <==> Now().phase == D.Serving
      ensures
        var flags, config, exit := old(unixSocket.revents), u.memory[..6] == [67, 79, 78, 70, 73, 71],
          u.memory[..4] == [69, 88, 73, 84];
        !ok <==>
          || POLLERR in flags || POLLHUP in flags || POLLNVAL in flags || POLLRDHUP in flags
          || (if chan == [] then
                u.size == 0 || (config && (u.configSize < 0 || u.contextError)) || (!config && exit)
              else
                || chan[0].ExitUnit?
                || (chan[0].ConfigUnit? && (u.configSize < 0 || u.contextError))
                || (chan[0].DescriptorUnit? &&
                      (chan[0].fd < 0 || (if u.attached.Some? then u.attached.value else old(control)) <= 0)))
      ensures chan != [] ==>
        var flags := old(unixSocket.revents);
        var heard := POLLERR !in flags && POLLHUP !in flags && POLLNVAL !in flags && POLLRDHUP !in flags;
        var configured := heard && chan[0].ConfigUnit? && u.configSize >= 0;
        && rest == (if configured || (heard && chan[0].DescriptorUnit?) then chan[1..] else chan)
        && appCfg.Current() ==
             if configured then Parse(old(appCfg.Current()), Lines(Wire(chan[0]))) else old(appCfg.Current())
      ensures forall r :: r in old(refs) ==> r in refs && refs[r] == old(refs)[r]
      ensures fresh(refs.Values - old(refs.Values))
    {
      hide DT.Linked, D.Init, D.StepOk, D.Step, D.ServeUnix, D.UnixInputOk, DI.FreshIn, Mirrors;
      ghost var d := Now();
      TurnLaws(run, chan, u, v);
      SeenByMirrors(d);
      UnixGoesOn(run, chan, u, v);
      MirrorsAdvance(d);
      ok, rest := HearUnix(DI.Advance(d), chan, u);
      SeenByMirrors(D.ServeUnix(DI.Advance(d), chan, u).d);
      run := run + [D.ServeUnix(DI.Advance(d), chan, u).d];
    }

    /** What the mirrored state shows to the UNIX socket's turn. */
    lemma SeenByMirrors(d: D.Dispatcher)
      requires Mirrors(d)
      ensures UNIX_REF in d.proc.objs ==> unixSocket.revents == d.proc.objs[UNIX_REF].revents
      ensures control == d.control && appCfg.Current() == d.settings
    {
    }

    method HearUnix(ghost d: D.Dispatcher, chan: seq<Unit>, u: D.UnixInput) returns (ok: bool, rest: seq<Unit>)
      requires Mirrors(d) && UNIX_REF in d.proc.objs && DI.FreshIn(d) && d.phase == D.Serving
      requires D.UnixInputOk(d, chan, u)
      modifies this`refs, this`control, socketsList, appCfg
      ensures Mirrors(D.ServeUnix(d, chan, u).d) && rest == D.ServeUnix(d, chan, u).chan
      ensures ok <==> D.ServeUnix(d, chan, u).d.phase == D.Serving
      ensures forall r :: r in old(refs) ==> r in refs && refs[r] == old(refs)[r]
      ensures fresh(refs.Values - old(refs.Values))
    {
      hide Injective, Names, DI.FreshIn, D.ReceiveClient, D.PeekMemory, Looks;
      assert unixSocket.revents == d.proc.objs[UNIX_REF].revents by {
        LooksRevents(refs[UNIX_REF], d.proc.objs[UNIX_REF]);
      }
      rest := chan;
      if IsDropped(unixSocket.revents) {
        ok := false;
        return;
      }
      if chan != [] {
        D.ClassifiesUnits(chan, u);
      }
      match D.Classify(D.PeekSize(chan, u), D.PeekMemory(chan, u))
      case Hangup => ok := false;
      case Passing =>
        ok := ReceiveClient(d, chan[0], u.attached);
        rest := chan[1..];
      case Configuring =>
        ok := ReadConfig(if chan == [] then [] else Wire(chan[0]), u.configSize, u.contextError);
        if u.configSize >= 0 {
          rest := if chan == [] then [] else chan[1..];
        }
      case Leaving => ok := false;
      case Other => ok := true;
    }

    /** createSocket over the control buffer, the hand-over to an SSL socket, and the put. */
    method ReceiveClient(ghost d: D.Dispatcher, unit: Unit, attached: Option<int>) returns (ok: bool)
      requires Mirrors(d) && DI.FreshIn(d) && d.phase == D.Serving && DI.Receivable(d, unit, attached) && UnitOk(unit)
      modifies this`refs, this`control, socketsList
      ensures Mirrors(D.ReceiveClient(d, unit, attached))
      ensures ok <==> D.ReceiveClient(d, unit, attached).phase == D.Serving
      ensures forall r :: r in old(refs) ==> r in refs && refs[r] == old(refs)[r]
      ensures fresh(refs.Values - old(refs.Values))
    {
      hide D.ReceiveClient, DI.ReceivedProcess, Injective, Names, Looks, DI.WithClient;
      NamesLength(refs, d.list, socketsList.sockets);
      var made, listed, _ := MakeClient(unit, attached);
      DI.ReceiveCases(d, unit, attached);
      DI.ReceivedObjects(d.proc, NumberRead(d.control, attached), attached, |d.list| == CAPACITY);
      if listed {
        ghost var ssl := D.SslRef(d.proc);
        NamesPut(refs, d.list, old(socketsList.sockets), ssl, made.value);
        NamesMore(refs, d.out, reSocketsList.sockets, ssl, made.value);
        InjectiveMore(refs, ssl, made.value);
        GreetedLooks(D.Installed(d.proc, attached), NumberRead(d.control, attached), made.value);
        refs := refs[ssl := made.value];
      }
      ok := made.Some?;
    }

    /** createSocket, the hand-over to an SSL socket, and the put. */
    method MakeClient(unit: Unit, attached: Option<int>)
      returns (made: Option<Socket>, listed: bool, received: Option<Socket>)
      requires unit.DescriptorUnit? && UnitOk(unit) && socketsList.maxSize == CAPACITY
      modifies this`control, socketsList
      ensures control == if unit.fd >= 0 then NumberRead(old(control), attached) else old(control)
      ensures made.Some? <==> unit.fd >= 0 && NumberRead(old(control), attached) > 0
      ensures made.Some? ==> fresh(made.value) && IsGreeted(made.value, NumberRead(old(control), attached))
      ensures made.Some? ==>
        var ssl, number := made.value, if attached.Some? then attached.value else old(control);
        && ssl.descriptor == number && ssl.kind == SSL && !ssl.listening && !ssl.protectDescriptor
        && ssl.events == {POLLOUT} && ssl.revents == {} && ssl.clientStatus == HELLO
      // The TCP socket received no longer owns the number, so its end closes nothing.
      ensures made.Some? ==>
        received.Some? && received.value != made.value && received.value.kind == TCP &&
          received.value.descriptor == made.value.descriptor && received.value.protectDescriptor
      ensures listed <==> made.Some? && |old(socketsList.sockets)| != 10
      ensures socketsList.sockets ==
          if listed then old(socketsList.sockets) + [made.value] else old(socketsList.sockets)
    {
      hide Receive;
      var buf := new byte[MAXLINE + 1];
      D.ReceptionIsDecoding(buf[..], control, unit, attached);
      var receipt;
      ghost var cell, chunk := control, Received(Delivered(unit.fd, attached));
      receipt, control := CreateSocket(buf, control, [Received(Delivered(unit.fd, attached))]);
      ControlStep(cell, [chunk], 0);
      if !receipt.outcome.Descriptor? {
        return None, false, None;
      }
      var tcp := new Socket(receipt.outcome.fd, TCP, false);
      var ssl := new Socket(tcp.descriptor, SSL, false);
      tcp.protectDescriptor := true;
      received := Some(tcp);
      listed := socketsList.PutSocket(ssl);
      ssl.PollForWrite();
      ssl.clientStatus := HELLO;
      made := Some(ssl);
    }

    /** The config read into a buffer of its own, and processConfig on it. */
    method ReadConfig(text: Text, size: int, contextError: bool) returns (ok: bool)
      requires |text| <= CONFIG_BUFFER && LinesFit(Lines(text))
      modifies appCfg
      ensures ok <==> size >= 0 && !contextError
      ensures appCfg.Current() == if size >= 0 then Parse(old(appCfg.Current()), Lines(text)) else old(appCfg.Current())
    {
      if size < 0 {
        return false;
      }
      var configBuffer := new byte[CONFIG_BUFFER];
      forall i | 0 <= i < |text| {
        configBuffer[i] := text[i];
      }
      assert configBuffer[..|text|] == text;
      var lineBuffer := new byte[LINE_BUFFER];
      ok := ProcessConfig(appCfg, configBuffer, |text|, lineBuffer, contextError);
    }

    // ----- client activity

    /** A client's turn is the machine's: a client not kept is deleted by its descriptor, and it is
        the machine's deletion, the wrong socket included when two share a descriptor. */
    method ServeClient(n: nat, v: Visit, ghost chan: seq<Unit>) returns (keep: bool, reply: Option<Reply>)
      requires Valid() && Now().phase == D.Serving && n == Now().cursor < |Now().out| && Now().out[n] != UNIX_REF
      requires UnitsOk(chan) && VisitOk(v)
      modifies this`run, refs.Values, socketsList
      ensures D.StepOk(old(Now()), chan, D.Handle(QUIET, v))
      ensures Valid() && run == old(run) + [Now()]
      ensures D.Served(Now(), chan) == D.Step(old(Now()), chan, D.Handle(QUIET, v))
      ensures
        var d, r := old(Now()), old(Now()).out[n];
        && r in d.proc.objs
        && var res := VisitClient(d.proc.objs[r].revents, d.proc.objs[r].status, v);
           keep == res.keep && reply == res.reply
      // What the program answered is what the client's history grows by.
      ensures
        var t, r := old(Now()).traces, old(Now()).out[n];
        r in t && r in Now().traces && Now().traces[r].replies == if reply.Some? then t[r].replies + [reply.value]
          else t[r].replies
    {
      hide DT.Linked, D.Init, D.StepOk, D.Step, D.ServeClient, D.Noted, Erased, Mirrors, VisitClient, UnitsOk, VisitOk;
      ghost var d := Now();
      ClientGoesOn(run, chan, v);
      DT.TurnIsRecorded(run, |run| - 1, v);
      ghost var n', r := DI.Advance(d), d.out[n];
      ghost var refused := !Deletes(Fds(d.proc.objs, d.list), CAPACITY, d.proc.objs[r].fd);
      VisitThenErase(n', r, v);
      MirrorsAdvance(d);
      keep, reply := VisitOnly(n', n, v, refused);
      if !keep {
        EraseClient(D.Noted(n', r, VisitClient(d.proc.objs[r].revents, d.proc.objs[r].status, v), refused), n);
      }
      run := run + [D.ServeClient(n', r, v)];
    }

    /** What the client is told, on the objects. */
    method VisitOnly(ghost d: D.Dispatcher, n: nat, v: Visit, ghost refused: bool) returns (keep: bool,
        reply: Option<Reply>)
      requires Mirrors(d) && n < |d.out| && d.out[n] in d.proc.objs && d.out[n] in d.traces && VisitOk(v)
      modifies refs.Values
      ensures
        var res := VisitClient(d.proc.objs[d.out[n]].revents, d.proc.objs[d.out[n]].status, v);
        && keep == res.keep && reply == res.reply
        && Mirrors(D.Noted(d, d.out[n], res, refused))
        && D.Noted(d, d.out[n], res, refused).out == d.out
        && D.Noted(d, d.out[n], res, refused).list == d.list
        && D.Noted(d, d.out[n], res, refused).proc.objs.Keys == d.proc.objs.Keys
    {
      hide Injective, VisitClient, History;
      var s := reSocketsList.sockets[n];
      InjectiveOthers(refs, d.out[n]);
      var read;
      keep, reply, read := ProcessClient(s, v);
    }

    /** The deletion, on the list. */
    method EraseClient(ghost m: D.Dispatcher, n: nat)
      requires Mirrors(m) && n < |m.out| && m.out[n] in m.proc.objs && forall q :: q in m.list ==> q in m.proc.objs
      modifies socketsList
      ensures Mirrors(Erased(m, m.out[n]))
    {
      hide Injective, Erased;
      var s := reSocketsList.sockets[n];
      ghost var fds := Fds(m.proc.objs, m.list);
      assert Descriptors(socketsList.sockets) == fds;
      ErasedOutcome(m, m.out[n]);
      NamesDelete(refs, m.list, socketsList.sockets, fds, CAPACITY, s.descriptor);
      var _ := socketsList.DelSocket(s);
    }

    // ----- a whole round

    /** Among the polled sockets the UNIX socket is known by its kind, and comes first. */
    lemma PolledKind(n: nat)
      requires Valid() && Now().phase != D.Gone && n < |Now().out|
      ensures |reSocketsList.sockets| == |Now().out|
      ensures reSocketsList.sockets[n].kind == UNIX <==> Now().out[n] == UNIX_REF
      ensures Now().out[n] == UNIX_REF ==> n == 0
    {
      hide DT.Linked, D.Init, Owned, Balanced, DI.Orderly;
      DT.RunSound(run, |run| - 1);
      assert DI.Referenced(Now(), Now().out[n]);
    }

    /** The loop over the polled sockets: the machine's turns, one for each of them, in order, with
        the channel they leave; only a turn of the UNIX socket that fails cuts them short. */
    method ServePolled(chan: seq<Unit>, u: D.UnixInput, visits: seq<Visit>)
      returns (failed: bool, rest: seq<Unit>, turns: nat)
      requires Valid() && Now().phase == D.Serving && Now().cursor == 0 && |visits| == |Now().out| && UnitsOk(chan)
      requires D.UnixInputOk(Now(), chan, u) && forall i :: 0 <= i < |visits| ==> VisitOk(visits[i])
      modifies this`run, this`refs, this`control, refs.Values, socketsList, appCfg
      ensures Valid() && old(run) <= run && turns <= |visits|
      ensures Traced(run, |old(run)| - 1, D.Served(old(Now()), chan), u, visits, turns)
      ensures D.Served(Now(), rest) == AfterTurns(D.Served(old(Now()), chan), u, visits, turns)
      ensures failed ==> Now().phase == D.Broken
      ensures !failed ==> Now().phase == D.Serving && Now().cursor == |Now().out| && turns == |visits|
    {
      hide DT.Linked, D.Init, D.UnixInputOk, Mirrors, TurnOk, Turn, VisitOk, UnitsOk, AfterTurns, Traced;
      failed, rest, turns := false, chan, 0;
      ghost var s := D.Served(Now(), chan);
      TracedNothing(run, chan, u, visits, turns);
      while turns < |visits| && !failed
        invariant 0 <= turns <= |visits| && Valid() && old(run) <= run && UnitsOk(rest)
        invariant Traced(run, |old(run)| - 1, s, u, visits, turns)
        invariant D.Served(Now(), rest) == AfterTurns(s, u, visits, turns)
        invariant fresh(refs.Values - old(refs.Values))
        invariant turns == 0 ==> run == old(run) && rest == chan
        invariant failed ==> Now().phase == D.Broken
        invariant !failed ==> Now().phase == D.Serving && turns == Now().cursor && |Now().out| == |visits|
      {
        ghost var before := run;
        failed, rest := ServeOne(turns, rest, u, visits[turns]);
        TracedMore(before, |old(run)| - 1, s, u, visits, turns, D.Served(Now(), rest));
        turns := turns + 1;
      }
    }

    /** One polled socket, told by its kind. */
    method ServeOne(n: nat, chan: seq<Unit>, u: D.UnixInput, v: Visit) returns (failed: bool, rest: seq<Unit>)
      requires Valid() && Now().phase == D.Serving && n == Now().cursor < |Now().out| && UnitsOk(chan)
      requires (n == 0 ==> D.UnixInputOk(Now(), chan, u)) && VisitOk(v)
      modifies this`run, this`refs, this`control, refs.Values, socketsList, appCfg
      ensures Valid() && run == old(run) + [Now()] && UnitsOk(rest)
      ensures TurnOk(D.Served(old(Now()), chan), u, v)
      ensures D.Served(Now(), rest) == Turn(D.Served(old(Now()), chan), u, v)
      ensures fresh(refs.Values - old(refs.Values))
      ensures Now().out == old(Now()).out && Now().cursor == n + 1
      ensures Now().phase == if failed then D.Broken else D.Serving
    {
      hide DT.Linked, D.Init, D.StepOk, D.Step, D.UnixInputOk, Mirrors, VisitClient, VisitOk, UnitsOk,
           D.ServeUnix, DI.FreshIn;
      ghost var before := run;
      PolledKind(n);
      if reSocketsList.sockets[n].kind == UNIX {
        UnixGoesOn(before, chan, u, v);
        ChannelShrinks(DI.Advance(Now()), chan, u);
        var ok;
        ok, rest := DispatcherProcess(chan, u, v);
        UnixPlace(before, chan, u, v);
        failed := !ok;
      } else {
        var _, _ := ServeClient(n, v, chan);
        ClientPlace(before, chan, v);
        failed, rest := false, chan;
      }
    }

    /** A whole round of the program is the machine's poll step, its turns for the polled sockets
        with the inputs given, and its finish; it ends early, with the loop to be left, only where
        the machine's does. What is left of the channel is what the machine leaves. */
    method Round(poll: Poll, chan: seq<Unit>, u: D.UnixInput, visits: seq<Visit>)
      returns (failed: bool, rest: seq<Unit>, turns: nat)
      requires Valid() && D.StepOk(Now(), [], D.Round(poll)) && UnitsOk(chan)
      requires
        var d := D.Step(Now(), [], D.Round(poll)).d;
        |visits| == |d.out| && D.UnixInputOk(d, chan, u)
      requires forall i :: 0 <= i < |visits| ==> VisitOk(visits[i])
      modifies this`run, this`refs, this`control, refs.Values, socketsList, reSocketsList, appCfg
      ensures Valid() && old(run) <= run
      ensures failed <==> Now().phase == D.Broken
      ensures !failed ==> Now().phase == D.Between
      ensures
        var s := D.Served(D.Step(old(Now()), [], D.Round(poll)).d, chan);
        if Polling.Outcome(poll.ret, poll.interrupted).NONE? then
          && turns <= |visits| && (!failed ==> turns == |visits|)
          && Traced(if failed then run else run[..|run| - 1], |old(run)|, s, u, visits, turns)
          && var s' := AfterTurns(s, u, visits, turns);
             D.Served(Now(), rest) == if failed then s' else s'.(d := s'.d.(phase := D.Between))
        else
          run == old(run) + [s.d] && rest == chan && turns == 0
    {
      hide DT.Linked, D.Init, D.StepOk, D.Step, D.UnixInputOk, Mirrors, AfterTurns, Traced, UnitsOk;
      RoundPhase(run, poll);
      var e, _ := BeginRound(poll);
      rest, turns := chan, 0;
      if e.NONE? {
        failed, rest, turns := ServePolled(chan, u, visits);
        if !failed {
          FinishGoesOn(run);
          MirrorsFinish();
          ghost var served := run;
          run := run + [Now().(phase := D.Between)];
          assert run[..|run| - 1] == served;
        }
      } else {
        failed := e.ERROR?;
      }
    }

    lemma MirrorsAdvance(d: D.Dispatcher)
      requires Mirrors(d)
      ensures Mirrors(DI.Advance(d))
    {
    }

    lemma MirrorsFinish()
      requires |run| > 0 && Mirrors(Now())
      ensures Mirrors(Now().(phase := D.Between))
    {
    }
  }
}
