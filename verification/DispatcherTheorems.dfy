/** Whole-run theorems about the dispatcher. */
module DispatcherTheorems {
  import opened Sockets
  import opened SocketLists
  import opened Polling
  import opened DescriptorPassing
  import opened Configuration
  import opened ClientSession
  import opened Ownership
  import opened Channel
  import opened Rounds
  import opened DispatcherLoop
  import opened DispatcherInvariants
  import opened DispatcherSteps

  // ----- runs

  /** One step under some channel content and some behaviour of the kernel and the clients. */
  ghost predicate Next(d: Dispatcher, d': Dispatcher) {
    exists chan: seq<Unit>, i: Input :: StepOk(d, chan, i) && Step(d, chan, i).d == d'
  }

  ghost predicate Linked(ds: seq<Dispatcher>, n: nat)
    requires 0 < n < |ds|
  {
    Next(ds[n - 1], ds[n])
  }

  ghost predicate IsRun(ds: seq<Dispatcher>) {
    |ds| > 0 && Init(ds[0]) && forall n :: 0 < n < |ds| ==> Linked(ds, n)
  }

  ghost function Last(ds: seq<Dispatcher>): Dispatcher
    requires |ds| > 0
  {
    ds[|ds| - 1]
  }

  /** A run goes on with any step its last state admits. */
  lemma Extend(ds: seq<Dispatcher>, chan: seq<Unit>, i: Input)
    requires IsRun(ds) && StepOk(Last(ds), chan, i)
    ensures IsRun(ds + [Step(Last(ds), chan, i).d])
  {
    hide StepOk, Step, Init;
    var ds' := ds + [Step(Last(ds), chan, i).d];
    assert Next(Last(ds), ds'[|ds|]);
    forall n | 0 < n < |ds'| ensures Linked(ds', n) {
      if n < |ds| {
        assert Linked(ds, n);
      }
    }
  }

  lemma NextSound(d: Dispatcher, d': Dispatcher)
    requires Sound(d) && Next(d, d')
    ensures Sound(d')
  {
    var chan: seq<Unit>, i: Input :| StepOk(d, chan, i) && Step(d, chan, i).d == d';
    StepSound(d, chan, i);
  }

  lemma InitSound(d: Dispatcher)
    requires Init(d)
    ensures Sound(d) && FatesKept(d) && SessionsKept(d) && AnswersKept(d)
  {
    var fd: int, control: int :| fd != FREE_SOCKET && d == Started(fd, control);
    StartedStructure(fd, control);
  }

  lemma {:induction false} RunSound(ds: seq<Dispatcher>, n: nat)
    requires IsRun(ds) && n < |ds|
    ensures Sound(ds[n])
  {
    hide Sound, Next, Init;
    if n == 0 {
      InitSound(ds[0]);
    } else {
      RunSound(ds, n - 1);
      assert Linked(ds, n);
      NextSound(ds[n - 1], ds[n]);
    }
  }

  lemma NextFates(d: Dispatcher, d': Dispatcher)
    requires Sound(d) && FatesKept(d) && Next(d, d')
    ensures FatesKept(d')
  {
    var chan: seq<Unit>, i: Input :| StepOk(d, chan, i) && Step(d, chan, i).d == d';
    StepFates(d, chan, i);
  }

  lemma LinkFates(ds: seq<Dispatcher>, n: nat)
    requires IsRun(ds) && 0 < n < |ds| && FatesKept(ds[n - 1])
    ensures FatesKept(ds[n])
  {
    hide Sound, FatesKept, Next, Init;
    RunSound(ds, n - 1);
    assert Linked(ds, n);
    NextFates(ds[n - 1], ds[n]);
  }

  lemma {:induction false} RunFates(ds: seq<Dispatcher>, n: nat)
    requires IsRun(ds) && n < |ds|
    ensures FatesKept(ds[n])
  {
    hide FatesKept, Linked, Init;
    if n == 0 {
      InitSound(ds[0]);
    } else {
      RunFates(ds, n - 1);
      LinkFates(ds, n);
    }
  }

  lemma NextSessions(d: Dispatcher, d': Dispatcher)
    requires Sound(d) && SessionsKept(d) && Next(d, d')
    ensures SessionsKept(d')
  {
    var chan: seq<Unit>, i: Input :| StepOk(d, chan, i) && Step(d, chan, i).d == d';
    StepSessions(d, chan, i);
  }

  lemma LinkSessions(ds: seq<Dispatcher>, n: nat)
    requires IsRun(ds) && 0 < n < |ds| && SessionsKept(ds[n - 1])
    ensures SessionsKept(ds[n])
  {
    hide Sound, SessionsKept, Next, Init;
    RunSound(ds, n - 1);
    assert Linked(ds, n);
    NextSessions(ds[n - 1], ds[n]);
  }

  lemma {:induction false} RunSessions(ds: seq<Dispatcher>, n: nat)
    requires IsRun(ds) && n < |ds|
    ensures SessionsKept(ds[n])
  {
    hide SessionsKept, Linked, Init;
    if n == 0 {
      InitSound(ds[0]);
    } else {
      RunSessions(ds, n - 1);
      LinkSessions(ds, n);
    }
  }

  lemma NextAnswers(d: Dispatcher, d': Dispatcher)
    requires Sound(d) && AnswersKept(d) && Next(d, d')
    ensures AnswersKept(d')
  {
    var chan: seq<Unit>, i: Input :| StepOk(d, chan, i) && Step(d, chan, i).d == d';
    StepAnswers(d, chan, i);
  }

  lemma LinkAnswers(ds: seq<Dispatcher>, n: nat)
    requires IsRun(ds) && 0 < n < |ds| && AnswersKept(ds[n - 1])
    ensures AnswersKept(ds[n])
  {
    hide Sound, AnswersKept, Next, Init;
    RunSound(ds, n - 1);
    assert Linked(ds, n);
    NextAnswers(ds[n - 1], ds[n]);
  }

  lemma {:induction false} RunAnswers(ds: seq<Dispatcher>, n: nat)
    requires IsRun(ds) && n < |ds|
    ensures AnswersKept(ds[n])
  {
    hide AnswersKept, Linked, Init;
    if n == 0 {
      InitSound(ds[0]);
    } else {
      RunAnswers(ds, n - 1);
      LinkAnswers(ds, n);
    }
  }

  /** Nothing but the kernel's contract restrains a reachable dispatcher: the handlers and the exit
      never meet a dangling reference. */
  lemma NeverStuck(ds: seq<Dispatcher>, n: nat, chan: seq<Unit>, u: UnixInput, v: Visit)
    requires IsRun(ds) && n < |ds|
    ensures
      var d := ds[n];
      && (d.phase == Between ==> forall r :: r in d.out ==> r in d.proc.objs)
      && (d.phase == Serving && d.cursor < |d.out| && UnixInputOk(d, chan, u) && VisitOk(v) ==> ServeOk(d, chan, u, v))
      && (d.phase == Broken ==> Exit.requires(d))
  {
    hide Owned, Balanced, Orderly, PastSessions, LiveSessions, Departed, Exit, UnixInputOk, Lists;
    RunSound(ds, n);
    var d := ds[n];
    if d.phase == Serving && d.cursor < |d.out| {
      RunSessions(ds, n);
      ServeEnabled(d, chan, u, v);
    } else if d.phase == Broken {
      ExitSound(d);
    }
    assert d.phase == Between ==> forall r :: r in d.out ==> Referenced(d, r);
  }

  lemma ServeEnabled(d: Dispatcher, chan: seq<Unit>, u: UnixInput, v: Visit)
    requires Objects(d) && LiveSessions(d) && d.phase == Serving && d.cursor < |d.out|
    ensures UnixInputOk(d, chan, u) && VisitOk(v) ==> ServeOk(d, chan, u, v)
  {
    hide UnixInputOk, StatusFits, NoByeYet;
    var r := d.out[d.cursor];
    assert Referenced(d, r) && Referenced(d, UNIX_REF);
    assert forall q :: q in d.list ==> Referenced(d, q);
    assert r != UNIX_REF ==> Courtesy(d, r);
  }

  // ----- ownership, and exactly when it is lost

  /** Ownership as it should be: in the loop every open descriptor has its one owner; in any case
      every instance is accounted for, none closed twice, no close call missed. */
  ghost predicate OwnershipHolds(d: Dispatcher) {
    if d.phase == Gone then Accounted(d.proc) else Owned(d.proc)
  }

  /** In every run, whatever the control buffer holds: live objects, close calls and leaks together
      are the descriptors obtained and the sockets made over a stale number. */
  lemma CloseCallsBalance(ds: seq<Dispatcher>, n: nat)
    requires IsRun(ds) && n < |ds|
    ensures
      var p := ds[n].proc;
      |p.objs| + |p.closed| + |p.stray| + |p.leaked| == p.born + ds[n].stale
  {
    hide Lists, Objects, Owned, Orderly, Accounted;
    RunSound(ds, n);
  }

  /** No room for a stale number: where ownership holds, none was taken. */
  lemma OwnershipLeavesNoRoom(d: Dispatcher)
    requires Balanced(d.proc, d.stale) && OwnershipHolds(d) && (d.phase == Gone ==> d.proc.objs == map[])
    ensures d.stale == 0
  {
    hide ObjectsLive, DescriptorsApart, OpenIsOwned;
    if d.phase == Gone {
      AccountedBound(d.proc);
    } else {
      OwnedBound(d.proc);
    }
  }

  /** In every reachable state ownership holds if and only if no socket was ever made over a stale
      number; once lost it never comes back. */
  lemma OwnershipHoldsIffNothingStale(ds: seq<Dispatcher>, n: nat)
    requires IsRun(ds) && n < |ds|
    ensures OwnershipHolds(ds[n]) <==> ds[n].stale == 0
  {
    hide Lists, Objects, Owned, Orderly, Accounted, Balanced;
    RunSound(ds, n);
    if OwnershipHolds(ds[n]) {
      OwnershipLeavesNoRoom(ds[n]);
    }
  }

  /** One reception in a sound state keeps ownership if and only if the control data arrived or the
      number left in the control buffer is not positive. */
  lemma ReceptionKeepsOwnershipIff(ds: seq<Dispatcher>, n: nat, u: Unit, attached: Option<int>)
    requires IsRun(ds) && n < |ds| && ds[n].phase == Serving && ds[n].stale == 0
    requires Receivable(ds[n], u, attached) && u.fd >= 0
    ensures OwnershipHolds(ReceiveClient(ds[n], u, attached)) <==> attached.Some? || ds[n].control <= 0
  {
    hide Lists, Owned, Orderly, Balanced, ReceiveEffect, ReceiveClient;
    RunSound(ds, n);
    var d, d' := ds[n], ReceiveClient(ds[n], u, attached);
    FreshNames(d);
    ReceiveCases(d, u, attached);
    ReceiveBalanced(d, u, attached, d');
    StaleIsCounted(d, u, attached, d');
    ReceptionPhase(d, u, attached, d');
    if TakesStale(d, u, attached) {
      assert !OwnershipHolds(d') by {
        if OwnershipHolds(d') {
          OwnershipLeavesNoRoom(d');
        }
      }
    } else {
      ReceiveOwned(d, u, attached);
    }
  }

  lemma ReceptionPhase(d: Dispatcher, u: Unit, attached: Option<int>, d': Dispatcher)
    requires u.DescriptorUnit? && ReceiveEffect(d, u, attached, d') && d.phase == Serving
    ensures d'.phase != Gone
  {
  }

  /** In every reachable state without a stale number: each open descriptor that was not leaked has
      exactly one live unprotected owner, every owner's descriptor is the one it was made for,
      every instance ever obtained is open or closed and not both, none was closed twice and no
      close call missed; after the exit all but the leaked ones are closed. */
  lemma ClosedExactlyOnce(ds: seq<Dispatcher>, n: nat)
    requires IsRun(ds) && n < |ds| && ds[n].stale == 0
    ensures
      var p := ds[n].proc;
      && (forall fd :: fd in p.open && p.open[fd] !in p.leaked ==> ds[n].phase != Gone)
      && (forall fd :: fd in p.open && p.open[fd] !in p.leaked ==>
            exists r :: Owner(p, r, fd) && p.objs[r].inst == p.open[fd] && forall q :: Owner(p, q, fd) ==> q == r)
      && (forall i :: 0 <= i < p.born ==> (i in p.closed <==> !OnceOpen(p, i)))
      && (forall i, j :: 0 <= i < j < |p.closed| ==> p.closed[i] != p.closed[j])
      && p.stray == []
  {
    hide Lists, Objects, Orderly, Balanced;
    RunSound(ds, n);
    var d := ds[n];
    if d.phase != Gone {
      SoundOwners(d.proc);
    }
  }

  lemma SoundOwners(p: Process)
    requires Owned(p)
    ensures forall fd :: fd in p.open && p.open[fd] !in p.leaked ==>
      exists r :: Owner(p, r, fd) && p.objs[r].inst == p.open[fd] && forall q :: Owner(p, q, fd) ==> q == r
  {
    forall fd | fd in p.open && p.open[fd] !in p.leaked
      ensures exists r :: Owner(p, r, fd) && p.objs[r].inst == p.open[fd] && forall q :: Owner(p, q, fd) ==> q == r
    {
      ExactlyOneOwner(p, fd);
    }
  }

  /** In every reachable state before the exit: no object is listed twice, the list is within its
      capacity and so within the poller's 1024 entries, the UNIX socket comes first in the list and
      in the round if it is there, and a socket still to be served was polled this round with the
      very result bits it carries. Unless a stale number was taken the UNIX socket is there, the
      listed descriptors are pairwise distinct, and a socket still to be served is listed. */
  lemma ListsInOrder(ds: seq<Dispatcher>, n: nat)
    requires IsRun(ds) && n < |ds| && ds[n].phase != Gone
    ensures forall r :: r in ds[n].list ==> r in ds[n].proc.objs
    ensures
      var d := ds[n];
      && |d.list| <= CAPACITY <= MAX_SOCKETS_TO_POLL && Distinct(d.list)
      && (forall i :: 0 <= i < |d.list| && d.list[i] == UNIX_REF ==> i == 0)
      && (forall i :: 0 <= i < |d.out| && d.out[i] == UNIX_REF ==> i == 0)
      && (d.phase == Serving ==> forall i :: d.cursor <= i < |d.out| ==>
            d.out[i] in d.answers && d.out[i] in d.proc.objs && d.proc.objs[d.out[i]].revents == d.answers[d.out[i]])
    ensures
      var d := ds[n];
      d.stale == 0 ==>
        && |d.list| > 0 && d.list[0] == UNIX_REF && Distinct(Fds(d.proc.objs, d.list))
        && (d.phase == Serving ==> forall i :: d.cursor <= i < |d.out| ==> d.out[i] in d.list)
  {
    hide Balanced, Accounted, OpenIsOwned, ObjectsLive;
    RunSound(ds, n);
    RunAnswers(ds, n);
    assert forall r :: r in ds[n].list ==> Referenced(ds[n], r);
    if ds[n].stale == 0 {
      DistinctFds(ds[n].proc.objs, ds[n].list);
    }
  }

  // ----- the turns of a round, in the flags of the poll, the units of the channel and the values of the kernel

  /** A round's beginning in any state: only a failed poll leaves the loop, and only activity is served. */
  lemma RoundLaw(d: Dispatcher, chan: seq<Unit>, poll: Poll)
    requires StepOk(d, chan, Round(poll))
    ensures
      var d' := Step(d, chan, Round(poll)).d;
      && (d'.phase == Broken <==> poll.ret == -1 && !poll.interrupted)
      && (d'.phase == Between <==> poll.ret == 0 || (poll.ret == -1 && poll.interrupted))
      && (d'.phase == Serving <==> poll.ret != 0 && poll.ret != -1)
  {
    hide Selected, PutAll, Release;
  }

  lemma UnixTurnIs(ds: seq<Dispatcher>, n: nat, chan: seq<Unit>, u: UnixInput, v: Visit)
    requires IsRun(ds) && n < |ds| && ds[n].phase == Serving && ds[n].cursor < |ds[n].out|
    requires ds[n].out[ds[n].cursor] == UNIX_REF && UnixInputOk(ds[n], chan, u) && VisitOk(v)
    ensures StepOk(ds[n], chan, Handle(u, v)) && UNIX_REF in ds[n].proc.objs
    ensures Step(ds[n], chan, Handle(u, v)) == ServeUnix(Advance(ds[n]), chan, u)
  {
    hide Lists, Owned, Orderly, Balanced, ServeUnix, UnixInputOk, Linked, Init;
    NeverStuck(ds, n, chan, u, v);
    RunSound(ds, n);
    assert Referenced(ds[n], UNIX_REF);
    ServeDispatches(ds[n], chan, u, v);
  }

  /** With a message at the head of the channel. */
  lemma MessageTurnLaw(ds: seq<Dispatcher>, n: nat, chan: seq<Unit>, u: UnixInput, v: Visit)
    requires IsRun(ds) && n < |ds| && ds[n].phase == Serving && ds[n].cursor < |ds[n].out|
    requires ds[n].out[ds[n].cursor] == UNIX_REF && UnixInputOk(ds[n], chan, u) && VisitOk(v) && chan != []
    ensures StepOk(ds[n], chan, Handle(u, v)) && UNIX_REF in ds[n].proc.objs
    ensures
      var d, d', flags := ds[n], Step(ds[n], chan, Handle(u, v)).d, ds[n].proc.objs[UNIX_REF].revents;
      && (d'.phase == Broken || d'.phase == Serving)
      && (d'.phase == Broken <==>
            || POLLERR in flags || POLLHUP in flags || POLLNVAL in flags || POLLRDHUP in flags
            || chan[0].ExitUnit?
            || (chan[0].ConfigUnit? && (u.configSize < 0 || u.contextError))
            || (chan[0].DescriptorUnit? &&
                  (chan[0].fd < 0 || (if u.attached.Some? then u.attached.value else d.control) <= 0)))
  {
    hide ReceiveClient, ReceiveEffect, PeekMemory, Lists, Objects, Owned, Orderly, Balanced, Linked, Init, StepOk, Step;
    UnixTurnIs(ds, n, chan, u, v);
    ClassifiesUnits(chan, u);
    if chan[0].DescriptorUnit? {
      RunSound(ds, n);
      ReceptionBreaks(ds[n], chan[0], u.attached);
    }
  }

  lemma ReceptionBreaks(d: Dispatcher, u: Unit, attached: Option<int>)
    requires Objects(d) && Receivable(d, u, attached) && d.phase == Serving
    ensures
      var d' := ReceiveClient(Advance(d), u, attached);
      && (d'.phase == Broken || d'.phase == Serving)
      && (d'.phase == Broken <==> u.fd < 0 || (if attached.Some? then attached.value else d.control) <= 0)
  {
    hide ReceiveClient, ReceivedProcess;
    ReceiveCases(Advance(d), u, attached);
  }

  /** And what it reads: the unit at the head is taken off the channel exactly when it is a descriptor
      message or a configuration that can be read; a configuration that is read sets the settings, and
      nothing else does. */
  lemma UnixTurnReads(ds: seq<Dispatcher>, n: nat, chan: seq<Unit>, u: UnixInput, v: Visit)
    requires IsRun(ds) && n < |ds| && ds[n].phase == Serving && ds[n].cursor < |ds[n].out|
    requires ds[n].out[ds[n].cursor] == UNIX_REF && UnixInputOk(ds[n], chan, u) && VisitOk(v) && chan != []
    ensures StepOk(ds[n], chan, Handle(u, v)) && UNIX_REF in ds[n].proc.objs
    ensures
      var d, s', flags := ds[n], Step(ds[n], chan, Handle(u, v)), ds[n].proc.objs[UNIX_REF].revents;
      var heard := POLLERR !in flags && POLLHUP !in flags && POLLNVAL !in flags && POLLRDHUP !in flags;
      var configured := heard && chan[0].ConfigUnit? && u.configSize >= 0;
      && s'.chan == (if configured || (heard && chan[0].DescriptorUnit?) then chan[1..] else chan)
      && s'.d.settings == (if configured then Parse(d.settings, Lines(Wire(chan[0]))) else d.settings)
      && s'.d.received ==
           if heard && chan[0].DescriptorUnit? && chan[0].fd >= 0 then d.received + [chan[0].client] else d.received
  {
    hide ReceiveClient, PeekMemory, Lists, Objects, Owned, Orderly, Balanced, Linked, Init, StepOk, Step;
    UnixTurnIs(ds, n, chan, u, v);
    ClassifiesUnits(chan, u);
    if chan[0].DescriptorUnit? {
      RunSound(ds, n);
      ReceptionHears(ds[n], chan[0], u.attached);
    }
  }

  lemma ReceptionHears(d: Dispatcher, u: Unit, attached: Option<int>)
    requires Objects(d) && Receivable(d, u, attached)
    ensures
      var d' := ReceiveClient(Advance(d), u, attached);
      d'.settings == d.settings && d'.received == if u.fd >= 0 then d.received + [u.client] else d.received
  {
    hide ReceiveClient, ReceivedProcess;
    ReceiveCases(Advance(d), u, attached);
  }

  /** On an empty channel the turn depends on what the failed peek leaves: nothing read is a hang-up,
      and stale memory is taken for what it spells. */
  lemma EmptyTurnLaw(ds: seq<Dispatcher>, n: nat, u: UnixInput, v: Visit)
    requires IsRun(ds) && n < |ds| && ds[n].phase == Serving && ds[n].cursor < |ds[n].out|
    requires ds[n].out[ds[n].cursor] == UNIX_REF && UnixInputOk(ds[n], [], u) && VisitOk(v)
    ensures StepOk(ds[n], [], Handle(u, v)) && UNIX_REF in ds[n].proc.objs
    ensures
      var s', flags := Step(ds[n], [], Handle(u, v)), ds[n].proc.objs[UNIX_REF].revents;
      var config, exit := u.memory[..6] == [67, 79, 78, 70, 73, 71], u.memory[..4] == [69, 88, 73, 84];
      && s'.chan == [] && s'.d.settings == ds[n].settings && s'.d.list == ds[n].list
      && (s'.d.phase == Broken || s'.d.phase == Serving)
      && (s'.d.phase == Broken <==>
            || POLLERR in flags || POLLHUP in flags || POLLNVAL in flags || POLLRDHUP in flags
            || u.size == 0 || (config && (u.configSize < 0 || u.contextError)) || (!config && exit))
  {
    hide ReceiveClient, Lists, Objects, Owned, Orderly, Balanced, Linked, Init, StepOk, Step;
    UnixTurnIs(ds, n, [], u, v);
    NothingToParse(ds[n].settings);
  }

  /** In every reachable state, whatever stands on the channel, the UNIX socket's turn leaves the loop
      if and only if its result holds a drop flag, or the peek is empty, or the message is EXIT (for
      an empty channel: stale memory spells it), or the configuration cannot be read or its SSL
      context not be made, or the reception has an error status or yields no positive number. */
  lemma UnixTurnLaw(ds: seq<Dispatcher>, n: nat, chan: seq<Unit>, u: UnixInput, v: Visit)
    requires IsRun(ds) && n < |ds| && ds[n].phase == Serving && ds[n].cursor < |ds[n].out|
    requires ds[n].out[ds[n].cursor] == UNIX_REF && UnixInputOk(ds[n], chan, u) && VisitOk(v)
    ensures StepOk(ds[n], chan, Handle(u, v)) && UNIX_REF in ds[n].proc.objs
    ensures
      var d, d', flags := ds[n], Step(ds[n], chan, Handle(u, v)).d, ds[n].proc.objs[UNIX_REF].revents;
      var config, exit := u.memory[..6] == [67, 79, 78, 70, 73, 71], u.memory[..4] == [69, 88, 73, 84];
      && (d'.phase == Broken || d'.phase == Serving)
      && (d'.phase == Broken <==>
            || POLLERR in flags || POLLHUP in flags || POLLNVAL in flags || POLLRDHUP in flags
            || (if chan == [] then
                  u.size == 0 || (config && (u.configSize < 0 || u.contextError)) || (!config && exit)
                else
                  || chan[0].ExitUnit?
                  || (chan[0].ConfigUnit? && (u.configSize < 0 || u.contextError))
                  || (chan[0].DescriptorUnit? &&
                        (chan[0].fd < 0 || (if u.attached.Some? then u.attached.value else d.control) <= 0))))
  {
    hide Linked, Init, StepOk, Step;
    if chan == [] {
      EmptyTurnLaw(ds, n, u, v);
    } else {
      MessageTurnLaw(ds, n, chan, u, v);
    }
  }

  lemma NothingToParse(st: Settings)
    ensures Parse(st, Lines([])) == st
  {
  }

  /** A reception of a positive number that finds room lists a new SSL socket over it, asked to be
      polled for writing and to be greeted; a full list lists nobody and closes the number. */
  lemma ReceptionLaw(ds: seq<Dispatcher>, n: nat, u: Unit, attached: Option<int>)
    requires IsRun(ds) && n < |ds| && ds[n].phase == Serving && Receivable(ds[n], u, attached) && u.fd >= 0
    ensures
      var d, d' := ds[n], ReceiveClient(ds[n], u, attached);
      var number, ssl := if attached.Some? then attached.value else d.control, d.proc.next + 1;
      number > 0 ==>
        && d'.control == number && d'.received == d.received + [u.client]
        && (|d.list| == 10 ==>
              && d'.list == d.list && d'.proc.objs == d.proc.objs
              && |d'.proc.closed| + |d'.proc.stray| == |d.proc.closed| + |d.proc.stray| + 1 && number !in d'.proc.open)
        && (|d.list| != 10 ==>
              && d'.list == d.list + [ssl] && ssl !in d.proc.objs && ssl in d'.proc.objs && ssl in d'.traces
              && d'.traces[ssl].replies == [] && d'.traces[ssl].readCount == 0 && d'.traces[ssl].refusals == 0
              && d'.proc.objs[ssl].fd == number && d'.proc.objs[ssl].kind == SSL && !d'.proc.objs[ssl].protect
              && d'.proc.objs[ssl].events == {POLLOUT} && d'.proc.objs[ssl].status == HELLO
              && d'.proc.closed == d.proc.closed && d'.proc.stray == d.proc.stray
              && (forall r :: r in d.proc.objs ==> r in d'.proc.objs && d'.proc.objs[r] == d.proc.objs[r]))
  {
    hide ReceiveClient, Lists, Owned, Orderly, Balanced, Linked, Init;
    RunSound(ds, n);
    FreshNames(ds[n]);
    ReceiveCases(ds[n], u, attached);
  }

  /** In the next round the kernel is asked for reading besides what the client asked for: after its
      arrival for both, so that it can be greeted. */
  lemma ArrivalIsAskedToGreet(d: Dispatcher, r: Ref)
    requires Lists(d) && Objects(d) && Balanced(d.proc, d.stale) && r in d.list && r != UNIX_REF
    ensures forall q :: q in d.out ==> q in d.proc.objs
    ensures r in d.proc.objs && r in Interested(Cleared(d).objs, d.list)
    ensures Interested(Cleared(d).objs, d.list)[r].events == d.proc.objs[r].events + {POLLIN}
  {
    hide Release, Balanced;
    ClearedEffect(d);
    assert Referenced(d, r);
  }

  /** What a client's turn adds to its history: the reply attempted, a non-empty read, a refusal. */
  lemma TurnIsRecorded(ds: seq<Dispatcher>, n: nat, v: Visit)
    requires IsRun(ds) && n < |ds| && ds[n].phase == Serving && ds[n].cursor < |ds[n].out| && VisitOk(v)
    requires ds[n].out[ds[n].cursor] != UNIX_REF
    ensures ds[n].out[ds[n].cursor] in ds[n].proc.objs && ds[n].out[ds[n].cursor] in ds[n].traces
    ensures forall q :: q in ds[n].list ==> q in ds[n].proc.objs
    ensures
      var d, r := Advance(ds[n]), ds[n].out[ds[n].cursor];
      var s, t, d' := d.proc.objs[r], d.traces[r], ServeClient(d, r, v);
      var res := VisitClient(s.revents, s.status, v);
      && r in d'.traces
      && d'.traces[r].replies == t.replies + (if res.reply.Some? then [res.reply.value] else [])
      && d'.traces[r].readCount == t.readCount + (if res.read then 1 else 0)
      && (r in d'.proc.objs ==> d'.proc.objs[r].status == res.status && d'.proc.objs[r].revents == res.revents)
      && (forall q :: q in d.traces && q != r ==> q in d'.traces && d'.traces[q] == d.traces[q])
  {
    hide Owned, Balanced, Orderly, VisitClient, ServeClient, VisitShape, StatusFits, Linked, Init;
    RunSound(ds, n);
    RunSessions(ds, n);
    var d, r := ds[n], ds[n].out[ds[n].cursor];
    assert Referenced(d, r) && Courtesy(d, r);
    ClientShape(d, v);
    var _ := ShapeKeeps(Advance(d), r, v, ServeClient(Advance(d), r, v));
  }

  /** A client whose result holds a drop flag leaves, alone, a list that is not full, without a reply. */
  lemma HungUpClientLeaves(ds: seq<Dispatcher>, n: nat, v: Visit)
    requires IsRun(ds) && n < |ds| && ds[n].phase == Serving && ds[n].cursor < |ds[n].out| && VisitOk(v)
    requires ds[n].out[ds[n].cursor] != UNIX_REF && ds[n].stale == 0 && ds[n].out[ds[n].cursor] in ds[n].proc.objs
    requires
      var flags := ds[n].proc.objs[ds[n].out[ds[n].cursor]].revents;
      POLLERR in flags || POLLHUP in flags || POLLNVAL in flags || POLLRDHUP in flags
    ensures ds[n].out[ds[n].cursor] in ds[n].traces && forall q :: q in ds[n].list ==> q in ds[n].proc.objs
    ensures
      var d, r := Advance(ds[n]), ds[n].out[ds[n].cursor];
      var d' := ServeClient(d, r, v);
      && r in d'.traces && d'.traces[r].replies == d.traces[r].replies
      && exists k :: 0 < k < |d.list| && d.list[k] == r
           && d'.list == if |d.list| == 10 then d.list else d.list[..k] + d.list[k + 1..]
  {
    hide ServeClient, VisitClient;
    DroppedClientLeaves(ds, n, v);
    TurnIsRecorded(ds, n, v);
    var d, r := Advance(ds[n]), ds[n].out[ds[n].cursor];
    VisitLaw(d.proc.objs[r].revents, d.proc.objs[r].status, v);
    var k :| 0 < k < |d.list| && d.list[k] == r
      && ServeClient(d, r, v).list == if |d.list| != CAPACITY then Without(d.list, k) else d.list;
  }

  // ----- distinct descriptors, and exactly when they are lost

  /** No two listed sockets share a descriptor. */
  ghost predicate DescriptorsDistinct(d: Dispatcher) {
    (forall r :: r in d.list ==> r in d.proc.objs) && Distinct(Fds(d.proc.objs, d.list))
  }

  ghost predicate IsListedNumber(d: Dispatcher, number: int) {
    exists r :: r in d.list && r in d.proc.objs && d.proc.objs[r].fd == number
  }

  lemma ListedNumber(d: Dispatcher, number: int)
    requires forall r :: r in d.list ==> r in d.proc.objs
    ensures IsListedNumber(d, number) <==> number in Fds(d.proc.objs, d.list)
  {
    var fds := Fds(d.proc.objs, d.list);
    if IsListedNumber(d, number) {
      var r :| r in d.list && r in d.proc.objs && d.proc.objs[r].fd == number;
      var k :| 0 <= k < |d.list| && d.list[k] == r;
      assert fds[k] == number;
    }
    if number in fds {
      var k :| 0 <= k < |fds| && fds[k] == number;
      assert d.list[k] in d.list;
    }
  }

  /** A list that keeps or loses sockets, their descriptors unchanged, stays distinct. */
  lemma FewerStayDistinct(d: Dispatcher, d': Dispatcher)
    requires DescriptorsDistinct(d) && Distinct(d.list) && Distinct(d'.list)
    requires forall r :: r in d'.list ==> r in d'.proc.objs
    requires forall r :: r in d'.list ==> r in d.list && d'.proc.objs[r].fd == d.proc.objs[r].fd
    ensures DescriptorsDistinct(d')
  {
    var fds, fds' := Fds(d.proc.objs, d.list), Fds(d'.proc.objs, d'.list);
    forall i, j | 0 <= i < j < |fds'| ensures fds'[i] != fds'[j] {
      assert d'.list[i] in d'.list && d'.list[j] in d'.list;
      var a :| 0 <= a < |d.list| && d.list[a] == d'.list[i];
      var b :| 0 <= b < |d.list| && d.list[b] == d'.list[j];
      assert fds[a] == fds'[i] && fds[b] == fds'[j];
    }
  }

  /** One socket more is listed over a number: the list stays distinct exactly if nobody listed has it. */
  lemma OneMoreDistinctIff(d: Dispatcher, d': Dispatcher, r: Ref, number: int)
    requires DescriptorsDistinct(d) && d'.list == d.list + [r] && r in d'.proc.objs && d'.proc.objs[r].fd == number
    requires forall q :: q in d.list ==> q in d'.proc.objs && d'.proc.objs[q].fd == d.proc.objs[q].fd
    ensures DescriptorsDistinct(d') <==> !IsListedNumber(d, number)
  {
    assert forall q :: q in d'.list ==> q in d.list || q == r;
    var fds, fds' := Fds(d.proc.objs, d.list), Fds(d'.proc.objs, d'.list);
    assert fds' == fds + [number];
    ListedNumber(d, number);
    if number in fds {
      var k :| 0 <= k < |fds| && fds[k] == number;
      assert fds'[k] == fds'[|fds|];
    }
  }

  /** The step is a reception that lists a socket over the number of a socket already listed. */
  ghost predicate SharesNumber(d: Dispatcher, chan: seq<Unit>, i: Input) {
    && i.Handle? && d.phase == Serving && d.cursor < |d.out| && d.out[d.cursor] == UNIX_REF
    && UNIX_REF in d.proc.objs && !IsDropped(d.proc.objs[UNIX_REF].revents)
    && chan != [] && chan[0].DescriptorUnit? && chan[0].fd >= 0
    && |d.list| != CAPACITY
    && NumberRead(d.control, i.unix.attached) > 0 && IsListedNumber(d, NumberRead(d.control, i.unix.attached))
  }

  /** One reception keeps the listed descriptors distinct if and only if it lists nobody or the
      number it reads is no listed socket's. */
  lemma ReceptionKeepsDistinctIff(d: Dispatcher, u: Unit, attached: Option<int>)
    requires Objects(d) && Distinct(d.list) && DescriptorsDistinct(d) && Receivable(d, u, attached) && u.fd >= 0
    ensures
      var number := NumberRead(d.control, attached);
      DescriptorsDistinct(ReceiveClient(d, u, attached)) <==>
        number <= 0 || |d.list| == CAPACITY || !IsListedNumber(d, number)
  {
    hide ReceiveClient, ReceivedProcess, DescriptorsDistinct, IsListedNumber, Distinct, Installed;
    var number, d' := NumberRead(d.control, attached), ReceiveClient(d, u, attached);
    FreshNames(d);
    ReceiveCases(d, u, attached);
    ReceivedObjects(d.proc, number, attached, |d.list| == CAPACITY);
    assert forall r :: r in d.list ==> Referenced(d, r);
    if number <= 0 || |d.list| == CAPACITY {
      FewerStayDistinct(d, d');
    } else {
      JoinedObjects(d.proc, number, attached);
      OneMoreDistinctIff(d, d', SslRef(d.proc), number);
    }
  }

  lemma JoinedObjects(p: Process, number: int, attached: Option<int>)
    requires SslRef(p) !in p.objs
    ensures
      var q := WithClient(Installed(p, attached), number);
      && SslRef(p) in q.objs && q.objs[SslRef(p)].fd == number
      && (forall r :: r in p.objs ==> r in q.objs && q.objs[r] == p.objs[r])
  {
  }

  /** The UNIX socket's turn keeps the listed descriptors distinct unless it shares a number. */
  lemma UnixKeepsDistinctIff(d: Dispatcher, chan: seq<Unit>, u: UnixInput, v: Visit)
    requires Lists(d) && Objects(d) && DescriptorsDistinct(d) && d.phase == Serving && d.cursor < |d.out|
    requires d.out[d.cursor] == UNIX_REF && UNIX_REF in d.proc.objs && UnixInputOk(d, chan, u)
    ensures DescriptorsDistinct(ServeUnix(Advance(d), chan, u).d) <==> !SharesNumber(d, chan, Handle(u, v))
  {
    hide ReceiveClient, DescriptorsDistinct, IsListedNumber, Distinct, PeekMemory;
    var n, d' := Advance(d), ServeUnix(Advance(d), chan, u).d;
    AdvanceDistinct(d);
    if chan != [] {
      ClassifiesUnits(chan, u);
    }
    if !IsDropped(d.proc.objs[UNIX_REF].revents) && chan != [] && chan[0].DescriptorUnit? && chan[0].fd >= 0 {
      assert d' == ReceiveClient(n, chan[0], u.attached);
      AdvanceStructure(d);
      ReceptionKeepsDistinctIff(n, chan[0], u.attached);
    } else {
      UnixQuiet(n, chan, u);
      assert forall r :: r in d.list ==> Referenced(d, r);
      FewerStayDistinct(d, d');
    }
  }

  lemma AdvanceDistinct(d: Dispatcher)
    ensures DescriptorsDistinct(Advance(d)) <==> DescriptorsDistinct(d)
    ensures forall number :: IsListedNumber(Advance(d), number) <==> IsListedNumber(d, number)
  {
  }

  lemma UnixQuiet(d: Dispatcher, chan: seq<Unit>, u: UnixInput)
    requires UNIX_REF in d.proc.objs && UnixInputOk(d, chan, u)
    requires IsDropped(d.proc.objs[UNIX_REF].revents) || chan == [] || !chan[0].DescriptorUnit? || chan[0].fd < 0
    ensures ServeUnix(d, chan, u).d.list == d.list && ServeUnix(d, chan, u).d.proc == d.proc
  {
    hide PeekMemory;
    if chan != [] {
      ClassifiesUnits(chan, u);
    }
  }

  /** A visit lists nobody and changes no descriptor. */
  lemma ClientKeepsDistinct(d: Dispatcher, v: Visit)
    requires Lists(d) && Objects(d) && Balanced(d.proc, d.stale) && DescriptorsDistinct(d)
    requires d.cursor < |d.out| && VisitOk(v) && d.out[d.cursor] in d.traces
    ensures d.out[d.cursor] in d.proc.objs && forall q :: q in d.list ==> q in d.proc.objs
    ensures DescriptorsDistinct(ServeClient(Advance(d), d.out[d.cursor], v))
  {
    hide ServeClient, VisitShape, VisitClient, History, Balanced, DescriptorsDistinct, Distinct;
    var r := d.out[d.cursor];
    ClientShape(d, v);
    var d' := ServeClient(Advance(d), r, v);
    AdvanceStructure(d);
    VisitStructure(Advance(d), r, v, d');
    var _ := ShapeKeeps(Advance(d), r, v, d');
    assert forall q :: q in d'.list ==> Referenced(d', q);
    FewerStayDistinct(d, d');
  }

  /** A round lists nobody and changes no descriptor. */
  lemma RoundKeepsDistinct(d: Dispatcher, poll: Poll)
    requires Lists(d) && Objects(d) && Balanced(d.proc, d.stale) && DescriptorsDistinct(d) && |poll.answers| == |d.list|
    ensures forall r :: r in d.out ==> r in d.proc.objs
    ensures DescriptorsDistinct(BeginRound(d, poll))
  {
    hide Balanced, DescriptorsDistinct, Distinct, Selected, PutAll, Release, Bits;
    ClearedEffect(d);
    RoundObjects(Cleared(d).objs, d.list, BeginRound(d, poll).answers);
    FewerStayDistinct(d, BeginRound(d, poll));
  }

  /** The last state's list is empty. */
  lemma ExitKeepsDistinct(d: Dispatcher)
    requires Exit.requires(d)
    ensures DescriptorsDistinct(Exit(d))
  {
    hide Release, Destroy;
  }

  lemma StepKeepsDistinctIff(d: Dispatcher, chan: seq<Unit>, i: Input)
    requires Structure(d) && d.phase != Gone && DescriptorsDistinct(d) && StepOk(d, chan, i)
    ensures DescriptorsDistinct(Step(d, chan, i).d) <==> !SharesNumber(d, chan, i)
  {
    hide Owned, Balanced, Orderly, DescriptorsDistinct, IsListedNumber, Serve, ServeUnix, ServeClient,
         BeginRound, Exit, Distinct;
    match i
    case Round(poll) => RoundKeepsDistinct(d, poll);
    case Handle(u, v) =>
      ServeDispatches(d, chan, u, v);
      if d.out[d.cursor] == UNIX_REF {
        UnixKeepsDistinctIff(d, chan, u, v);
      } else {
        ClientKeepsDistinct(d, v);
      }
    case Finish => FinishDistinct(d);
    case Leave => ExitKeepsDistinct(d);
  }

  lemma FinishDistinct(d: Dispatcher)
    ensures DescriptorsDistinct(d.(phase := Between)) <==> DescriptorsDistinct(d)
  {
  }

  /** In every reachable state whose listed descriptors are pairwise distinct, stale numbers taken
      before or not, the next step keeps them so if and only if it is not a reception that reads
      the number of a listed socket and finds room to list another one over it. */
  lemma DescriptorsStayDistinctIff(ds: seq<Dispatcher>, n: nat, chan: seq<Unit>, i: Input)
    requires IsRun(ds) && n < |ds| && DescriptorsDistinct(ds[n]) && StepOk(ds[n], chan, i)
    ensures DescriptorsDistinct(Step(ds[n], chan, i).d) <==> !SharesNumber(ds[n], chan, i)
  {
    hide Lists, Objects, Owned, Orderly, Balanced, DescriptorsDistinct, SharesNumber, Step, Linked, Init;
    RunSound(ds, n);
    StepKeepsDistinctIff(ds[n], chan, i);
  }

  /** Where no stale number was taken yet, an installed number is nobody's: only lost control data can share one. */
  lemma InstalledNumberIsNew(ds: seq<Dispatcher>, n: nat, attached: Option<int>)
    requires IsRun(ds) && n < |ds| && ds[n].phase != Gone && ds[n].stale == 0 && Installable(ds[n].proc, attached)
    ensures attached.Some? ==> !IsListedNumber(ds[n], attached.value)
  {
    hide Lists, Objects, Orderly, Balanced, Accounted, OpenIsOwned, DescriptorsApart, Linked, Init;
    RunSound(ds, n);
  }

  // ----- whole runs

  /** A socket was listed over the number of a socket already listed. */
  ghost predicate Shared(d: Dispatcher, d': Dispatcher) {
    |d'.list| > |d.list| && IsListedNumber(d, d'.control)
  }

  ghost predicate SharedAt(ds: seq<Dispatcher>, n: nat)
    requires 0 < n < |ds|
  {
    Shared(ds[n - 1], ds[n])
  }

  lemma ReceptionShares(d: Dispatcher, u: Unit, attached: Option<int>)
    requires Objects(d) && Receivable(d, u, attached)
    ensures
      var number, d' := NumberRead(d.control, attached), ReceiveClient(d, u, attached);
      |d'.list| > |d.list| <==> u.fd >= 0 && number > 0 && |d.list| != CAPACITY
    ensures u.fd >= 0 ==> ReceiveClient(d, u, attached).control == NumberRead(d.control, attached)
  {
    hide ReceiveClient, ReceivedProcess;
    FreshNames(d);
    ReceiveCases(d, u, attached);
  }

  /** What the step read is what the next state's control buffer holds. */
  lemma StepShares(d: Dispatcher, chan: seq<Unit>, i: Input)
    requires Structure(d) && d.phase != Gone && StepOk(d, chan, i)
    ensures Shared(d, Step(d, chan, i).d) <==> SharesNumber(d, chan, i)
  {
    hide Owned, Balanced, Orderly, IsListedNumber, Serve, ServeUnix, ServeClient, BeginRound, Exit, Lists;
    match i
    case Round(poll) => RoundListsNobody(d, poll);
    case Handle(u, v) =>
      ServeDispatches(d, chan, u, v);
      if d.out[d.cursor] == UNIX_REF {
        UnixShares(d, chan, u);
      } else {
        ClientListsNobody(d, v);
      }
    case Finish =>
    case Leave => ExitListsNobody(d);
  }

  lemma RoundListsNobody(d: Dispatcher, poll: Poll)
    requires (forall r :: r in d.out ==> r in d.proc.objs) && |poll.answers| == |d.list|
    ensures BeginRound(d, poll).list == d.list
  {
    hide Release, Selected, PutAll;
  }

  lemma ExitListsNobody(d: Dispatcher)
    requires Exit.requires(d)
    ensures Exit(d).list == []
  {
    hide Release, Destroy;
  }

  lemma ClientListsNobody(d: Dispatcher, v: Visit)
    requires Objects(d) && d.cursor < |d.out| && VisitOk(v) && d.out[d.cursor] in d.traces
    ensures d.out[d.cursor] in d.proc.objs && forall q :: q in d.list ==> q in d.proc.objs
    ensures |ServeClient(Advance(d), d.out[d.cursor], v).list| <= |d.list|
  {
    hide VisitClient, History, Release;
    assert forall q :: q in d.list || q in d.out ==> Referenced(d, q);
  }

  lemma UnixShares(d: Dispatcher, chan: seq<Unit>, u: UnixInput)
    requires Objects(d) && UNIX_REF in d.proc.objs && UnixInputOk(d, chan, u)
    ensures
      var d' := ServeUnix(Advance(d), chan, u).d;
      |d'.list| > |d.list| && IsListedNumber(d, d'.control) <==>
        && !IsDropped(d.proc.objs[UNIX_REF].revents)
        && chan != [] && chan[0].DescriptorUnit? && chan[0].fd >= 0 && |d.list| != CAPACITY
        && NumberRead(d.control, u.attached) > 0 && IsListedNumber(d, NumberRead(d.control, u.attached))
  {
    hide ReceiveClient, IsListedNumber, PeekMemory;
    var n := Advance(d);
    if chan != [] {
      ClassifiesUnits(chan, u);
    }
    if !IsDropped(d.proc.objs[UNIX_REF].revents) && chan != [] && chan[0].DescriptorUnit? {
      assert ServeUnix(n, chan, u).d == ReceiveClient(n, chan[0], u.attached);
      assert forall q :: Referenced(n, q) <==> Referenced(d, q);
      ReceptionShares(n, chan[0], u.attached);
    } else {
      UnixQuiet(n, chan, u);
    }
  }

  lemma NextDistinct(d: Dispatcher, d': Dispatcher)
    requires Sound(d) && Next(d, d') && DescriptorsDistinct(d)
    ensures DescriptorsDistinct(d') <==> !Shared(d, d')
  {
    hide Lists, Objects, Owned, Balanced, Orderly, DescriptorsDistinct, Shared, SharesNumber, Step;
    var chan: seq<Unit>, i: Input :| StepOk(d, chan, i) && Step(d, chan, i).d == d';
    StepKeepsDistinctIff(d, chan, i);
    StepShares(d, chan, i);
  }

  /** Over a whole run the listed descriptors were pairwise distinct all along if and only if no
      socket was ever listed over the number of a socket already listed. */
  lemma {:induction false} DistinctAllAlongIff(ds: seq<Dispatcher>, n: nat)
    requires IsRun(ds) && n < |ds|
    ensures (forall m :: 0 <= m <= n ==> DescriptorsDistinct(ds[m])) <==> (forall m :: 0 < m <= n ==> !SharedAt(ds, m))
  {
    hide Sound, Next, DescriptorsDistinct, Shared;
    if n == 0 {
      FirstDistinct(ds);
    } else {
      DistinctAllAlongIff(ds, n - 1);
      RunSound(ds, n - 1);
      assert Linked(ds, n);
      if DescriptorsDistinct(ds[n - 1]) {
        NextDistinct(ds[n - 1], ds[n]);
      }
      assert SharedAt(ds, n) <==> Shared(ds[n - 1], ds[n]);
    }
  }

  lemma FirstDistinct(ds: seq<Dispatcher>)
    requires IsRun(ds)
    ensures DescriptorsDistinct(ds[0])
  {
    hide Linked;
    var fd: int, control: int :| fd != FREE_SOCKET && ds[0] == Started(fd, control);
  }

  // ----- exact removal, and exactly when it is lost

  lemma ServeList(d: Dispatcher, r: Ref, v: Visit)
    requires r in d.proc.objs && r in d.traces && VisitOk(v) && forall q :: q in d.list ==> q in d.proc.objs
    requires r in d.list && |d.list| != CAPACITY
    requires !VisitClient(d.proc.objs[r].revents, d.proc.objs[r].status, v).keep
    ensures
      var fds := Fds(d.proc.objs, d.list);
      var i := IndexOf(fds, d.proc.objs[r].fd);
      i < |d.list| && ServeClient(d, r, v).list == Without(d.list, i)
  {
    hide VisitClient, History, Release;
    var fds := Fds(d.proc.objs, d.list);
    var k :| 0 <= k < |d.list| && d.list[k] == r;
    assert fds[k] == d.proc.objs[r].fd;
    DeletedPlace(fds, d.proc.objs[r].fd);
  }

  /** In every reachable state, stale numbers taken or not: a listed client that is not kept leaves a
      list that is not full, itself and alone, if and only if no socket listed before it has its descriptor. */
  lemma RemovalIsExactIff(ds: seq<Dispatcher>, n: nat, v: Visit, k: nat)
    requires IsRun(ds) && n < |ds| && ds[n].phase == Serving && ds[n].cursor < |ds[n].out| && VisitOk(v)
    requires k < |ds[n].list| != CAPACITY && ds[n].list[k] == ds[n].out[ds[n].cursor] != UNIX_REF
    ensures ds[n].list[k] in ds[n].traces && forall q :: q in ds[n].list ==> q in ds[n].proc.objs
    ensures
      var d, r, fds := Advance(ds[n]), ds[n].list[k], Fds(ds[n].proc.objs, ds[n].list);
      !VisitClient(d.proc.objs[r].revents, d.proc.objs[r].status, v).keep ==>
        (ServeClient(d, r, v).list == Without(d.list, k) <==> forall j :: 0 <= j < k ==> fds[j] != fds[k])
  {
    hide Owned, Balanced, Orderly, VisitClient, ServeClient, StatusFits, Linked, Init;
    RunSound(ds, n);
    RunSessions(ds, n);
    var d, r := ds[n], ds[n].list[k];
    assert forall q :: q in d.list ==> Referenced(d, q);
    assert Courtesy(d, r);
    if !VisitClient(d.proc.objs[r].revents, d.proc.objs[r].status, v).keep {
      ServeList(Advance(d), r, v);
      FirstPlaceIff(d.list, Fds(d.proc.objs, d.list), k);
    }
  }

  lemma FirstPlaceIff(list: seq<Ref>, fds: seq<int>, k: nat)
    requires |fds| == |list| && k < |list| && Distinct(list) && IndexOf(fds, fds[k]) < |list|
    ensures Without(list, IndexOf(fds, fds[k])) == Without(list, k) <==> forall j :: 0 <= j < k ==> fds[j] != fds[k]
  {
    var i := IndexOf(fds, fds[k]);
    assert fds[k] !in fds[..i];
    assert forall j :: 0 <= j < i ==> fds[..i][j] == fds[j];
    if i < k {
      WithoutEffect(list, i);
      WithoutEffect(list, k);
      assert list[k] in Without(list, i) && list[k] !in Without(list, k);
    } else {
      assert forall j :: 0 <= j < k ==> fds[..i][j] == fds[j];
    }
  }

  /** In every reachable state a visit takes the UNIX socket off the list if and only if it is a
      client not kept, on a list that is not full, over the UNIX socket's own number. */
  lemma UnixLeavesListIff(ds: seq<Dispatcher>, n: nat, v: Visit)
    requires IsRun(ds) && n < |ds| && ds[n].phase == Serving && ds[n].cursor < |ds[n].out| && VisitOk(v)
    requires ds[n].out[ds[n].cursor] != UNIX_REF && UNIX_REF in ds[n].list
    ensures ds[n].out[ds[n].cursor] in ds[n].proc.objs && ds[n].out[ds[n].cursor] in ds[n].traces
    ensures UNIX_REF in ds[n].proc.objs && forall q :: q in ds[n].list ==> q in ds[n].proc.objs
    ensures
      var d, r := Advance(ds[n]), ds[n].out[ds[n].cursor];
      UNIX_REF !in ServeClient(d, r, v).list <==>
        && !VisitClient(d.proc.objs[r].revents, d.proc.objs[r].status, v).keep
        && |d.list| != CAPACITY && d.proc.objs[r].fd == d.proc.objs[UNIX_REF].fd
  {
    hide Owned, Balanced, Orderly, VisitClient, StatusFits, Linked, Init, ServeClient;
    RunSound(ds, n);
    RunSessions(ds, n);
    var d, r := ds[n], ds[n].out[ds[n].cursor];
    assert Referenced(d, r) && Referenced(d, UNIX_REF) && forall q :: q in d.list ==> Referenced(d, q);
    assert Courtesy(d, r);
    HeadLeavesIff(Advance(d), r, v);
  }

  lemma HeadLeavesIff(d: Dispatcher, r: Ref, v: Visit)
    requires r in d.proc.objs && r in d.traces && VisitOk(v) && forall q :: q in d.list ==> q in d.proc.objs
    requires d.list != [] && Distinct(d.list)
    ensures d.list[0] !in ServeClient(d, r, v).list <==>
      && !VisitClient(d.proc.objs[r].revents, d.proc.objs[r].status, v).keep
      && |d.list| != CAPACITY && d.proc.objs[r].fd == d.proc.objs[d.list[0]].fd
  {
    hide VisitClient, History, Release;
    var fds, fd := Fds(d.proc.objs, d.list), d.proc.objs[r].fd;
    if Deletes(fds, CAPACITY, fd) {
      DeletedPlace(fds, fd);
      WithoutEffect(d.list, IndexOf(fds, fd));
      assert IndexOf(fds, fd) == 0 <==> fds[0] == fd;
    }
    assert fds[0] == d.proc.objs[d.list[0]].fd;
  }

  /** After any poll outcome, timeout, interruption and error included, no listed socket has a requested event left. */
  lemma PollEmptiesInterest(ds: seq<Dispatcher>, n: nat, poll: Poll)
    requires IsRun(ds) && n < |ds| && ds[n].phase == Between && |poll.answers| == |ds[n].list|
    ensures forall r :: r in ds[n].out ==> r in ds[n].proc.objs
    ensures
      var d' := BeginRound(ds[n], poll);
      forall r :: r in d'.list ==> r in d'.proc.objs && d'.proc.objs[r].events == NO_EVENTS
  {
    hide Balanced, Owned, Orderly, Distinct, Selected, PutAll;
    RunSound(ds, n);
    var d := ds[n];
    ClearedEffect(d);
    RoundObjects(Cleared(d).objs, d.list, BeginRound(d, poll).answers);
  }

  /** For every client and every run: the replies are none, only Byes, or one Hello, Echos, then
      Byes, and they number at most one more than the non-empty reads. Unless a stale number was
      taken or a removal was refused there is at most one Bye, it is last, and the client is no longer listed. */
  lemma SessionsAreOrderly(ds: seq<Dispatcher>, n: nat, r: Ref)
    requires IsRun(ds) && n < |ds| && r in ds[n].traces
    ensures
      var t := ds[n].traces[r];
      && Polite(t.replies)
      && |t.replies| <= t.readCount + 1
      && (ds[n].stale == 0 && t.refusals == 0 && Bye in t.replies ==> ByeLast(t.replies) && r !in ds[n].list)
  {
    hide Balanced, Owned, Orderly, Polite, Courtesy, ByeLast, Objects, Lists;
    RunSessions(ds, n);
    RunSound(ds, n);
    var d := ds[n];
    assert d.phase != Gone && d.stale == 0 ==> NoByeYet(d, r);
  }

  /** A client not kept leaves the list, alone and wherever it stands, unless the list is full;
      then the list stays and the refusal is counted. */
  ghost predicate LeavesExactly(d: Dispatcher, r: Ref, keep: bool, d': Dispatcher) {
    && r in d.traces && r in d'.traces
    && (exists k :: 0 < k < |d.list| && d.list[k] == r
          && d'.list == if !keep && |d.list| != CAPACITY then Without(d.list, k) else d.list)
    && d'.traces[r].refusals == d.traces[r].refusals + if !keep && |d.list| == CAPACITY then 1 else 0
  }

  lemma VisitLeaves(d: Dispatcher, r: Ref, v: Visit, k: nat, d': Dispatcher)
    requires 0 < k < |d.list| && d.list[k] == r && r in d.proc.objs && r in d.traces && VisitOk(v)
    requires VisitEffect(d, r, v, k, d')
    ensures LeavesExactly(d, r, VisitClient(d.proc.objs[r].revents, d.proc.objs[r].status, v).keep, d')
  {
  }

  /** The visit to a polled client in any reachable state without a stale number. */
  lemma DroppedClientLeaves(ds: seq<Dispatcher>, n: nat, v: Visit)
    requires IsRun(ds) && n < |ds| && ds[n].phase == Serving && ds[n].cursor < |ds[n].out| && VisitOk(v)
    requires ds[n].out[ds[n].cursor] != UNIX_REF && ds[n].stale == 0
    ensures ds[n].out[ds[n].cursor] in ds[n].proc.objs && ds[n].out[ds[n].cursor] in ds[n].traces
    ensures forall q :: q in ds[n].list ==> q in ds[n].proc.objs
    ensures
      var d, r := Advance(ds[n]), ds[n].out[ds[n].cursor];
      LeavesExactly(d, r, VisitClient(d.proc.objs[r].revents, d.proc.objs[r].status, v).keep, ServeClient(d, r, v))
  {
    hide Accounted, OpenIsOwned, ObjectsLive, DescriptorsApart, LeavesExactly, VisitEffect, VisitClient, Balanced,
         ServeClient, Orderly, Lists;
    RunSound(ds, n);
    RunSessions(ds, n);
    var d, r := ds[n], ds[n].out[ds[n].cursor];
    assert Referenced(d, r);
    assert Courtesy(d, r);
    var k := ClientCases(d, v);
    VisitLeaves(Advance(d), r, v, k, ServeClient(Advance(d), r, v));
  }

  // ----- a client that is neither listed nor to be served is never served or listed again

  ghost predicate Outside(d: Dispatcher, r: Ref) {
    r in d.traces && r !in d.list && !Unserved(d, r)
  }

  ghost predicate LeftAlone(d: Dispatcher, d': Dispatcher, r: Ref) {
    Outside(d', r) && r in d.traces && d'.traces[r] == d.traces[r]
  }

  lemma UnixLeavesAlone(d: Dispatcher, chan: seq<Unit>, u: UnixInput, d': Dispatcher, r: Ref)
    requires UnixEffect(d, chan, u, d') && PastSessions(d) && Outside(d, r)
    ensures LeftAlone(d, d', r)
  {
    hide ReceivedProcess, Courteous, ByeLast;
    assert SslRef(d.proc) !in d.traces;
  }

  lemma AdvanceOutside(d: Dispatcher, r: Ref)
    requires Outside(d, r) && d.cursor < |d.out| && d.phase == Serving
    ensures Outside(Advance(d), r) && r != d.out[d.cursor]
  {
    assert d.out[d.cursor..] == [d.out[d.cursor]] + d.out[d.cursor + 1..];
  }

  lemma VisitLeavesAlone(d: Dispatcher, s: Ref, v: Visit, d': Dispatcher, r: Ref)
    requires s in d.proc.objs && s in d.traces && VisitOk(v) && VisitShape(d, s, v, d') && Outside(d, r) && r != s
    ensures LeftAlone(d, d', r)
  {
    hide VisitShape, VisitClient, History;
    var _ := ShapeKeeps(d, s, v, d');
  }

  lemma ServeLeavesAlone(d: Dispatcher, chan: seq<Unit>, u: UnixInput, v: Visit, r: Ref)
    requires Objects(d) && PastSessions(d) && d.phase == Serving && d.cursor < |d.out|
    requires ServeOk(d, chan, u, v) && Outside(d, r)
    ensures LeftAlone(d, Serve(d, chan, u, v).d, r)
  {
    hide Serve, ServeUnix, ServeClient, UnixEffect, VisitShape, Outside, Courteous, ByeLast;
    ServeDispatches(d, chan, u, v);
    AdvanceOutside(d, r);
    FreshNames(d);
    if d.out[d.cursor] == UNIX_REF {
      UnixCases(Advance(d), chan, u);
      UnixLeavesAlone(Advance(d), chan, u, ServeUnix(Advance(d), chan, u).d, r);
    } else {
      ClientShape(d, v);
      VisitLeavesAlone(Advance(d), d.out[d.cursor], v, ServeClient(Advance(d), d.out[d.cursor], v), r);
    }
  }

  /** The round's output list comes from the socket list. */
  lemma RoundLeavesAlone(d: Dispatcher, poll: Poll, r: Ref)
    requires Lists(d) && (forall q :: q in d.out ==> q in d.proc.objs) && |poll.answers| == |d.list| && Outside(d, r)
    ensures LeftAlone(d, BeginRound(d, poll), r)
  {
    hide Selected, PutAll, Release, Distinct;
    RoundLists(d, Cleared(d), poll);
  }

  lemma StepAfterRemoval(d: Dispatcher, chan: seq<Unit>, i: Input, r: Ref)
    requires Sound(d) && PastSessions(d) && StepOk(d, chan, i) && Outside(d, r)
    ensures LeftAlone(d, Step(d, chan, i).d, r)
  {
    hide Owned, Balanced, Orderly, Serve, BeginRound, Exit, PastSessions;
    match i
    case Round(poll) => RoundLeavesAlone(d, poll, r);
    case Handle(u, v) => ServeLeavesAlone(d, chan, u, v, r);
    case Finish =>
    case Leave => ExitLeavesAlone(d, r);
  }

  lemma ExitLeavesAlone(d: Dispatcher, r: Ref)
    requires Exit.requires(d) && Outside(d, r)
    ensures LeftAlone(d, Exit(d), r)
  {
    hide Release, Destroy;
  }

  lemma NextAfterRemoval(d: Dispatcher, d': Dispatcher, r: Ref)
    requires Sound(d) && PastSessions(d) && Next(d, d') && Outside(d, r)
    ensures LeftAlone(d, d', r)
  {
    hide Sound, PastSessions, Outside, LeftAlone;
    var chan: seq<Unit>, i: Input :| StepOk(d, chan, i) && Step(d, chan, i).d == d';
    StepAfterRemoval(d, chan, i, r);
  }

  lemma RunAfterRemoval(ds: seq<Dispatcher>, n: nat, r: Ref)
    requires IsRun(ds) && n + 1 < |ds| && Outside(ds[n], r)
    ensures LeftAlone(ds[n], ds[n + 1], r)
  {
    hide Sound, PastSessions, LiveSessions, Outside, LeftAlone, Next, Init;
    RunSound(ds, n);
    RunSessions(ds, n);
    assert Linked(ds, n + 1);
    NextAfterRemoval(ds[n], ds[n + 1], r);
  }

  /** In every run, stale numbers or not: a client that is neither listed nor still to be served in
      this round is never served or listed again. */
  lemma {:induction false} HistoryEnds(ds: seq<Dispatcher>, m: nat, n: nat, r: Ref)
    requires IsRun(ds) && m <= n < |ds| && Outside(ds[m], r)
    ensures Outside(ds[n], r) && ds[n].traces[r] == ds[m].traces[r]
  {
    hide Linked, Init, Unserved;
    if m == n {
    } else {
      HistoryEnds(ds, m, n - 1, r);
      RunAfterRemoval(ds, n - 1, r);
    }
  }

  lemma UnlistedIsOutside(d: Dispatcher, r: Ref)
    requires d.phase != Gone ==> Lists(d) && Orderly(d)
    requires r in d.traces && r !in d.list
    ensures Outside(d, r)
  {
    if d.phase == Serving {
      var rest := d.out[d.cursor..];
      assert forall i :: 0 <= i < |rest| ==> rest[i] == d.out[d.cursor + i];
    }
  }

  /** After a Bye whose removal was not refused nothing follows, ever, even if a stale number is taken later. */
  lemma NothingFollowsBye(ds: seq<Dispatcher>, m: nat, n: nat, r: Ref)
    requires IsRun(ds) && m <= n < |ds| && r in ds[m].traces && ds[m].stale == 0
    requires ds[m].traces[r].refusals == 0 && Bye in ds[m].traces[r].replies
    ensures r in ds[n].traces && ds[n].traces[r] == ds[m].traces[r]
  {
    hide Owned, Balanced, Polite, ByeLast, Objects, Lists, Orderly, Unserved;
    SessionsAreOrderly(ds, m, r);
    RunSound(ds, m);
    UnlistedIsOutside(ds[m], r);
    HistoryEnds(ds, m, n, r);
  }

  // ----- a client received in a round waits for a later one

  /** Only reception lists a socket, and it comes before any client of the round is served. */
  ghost predicate Arrival(d: Dispatcher, d': Dispatcher, r: Ref) {
    && d.phase == Serving && d.cursor == 0 && |d.out| > 0 && d.out[0] == UNIX_REF
    && d'.out == d.out && r !in d'.out
  }

  lemma UnixArrival(d: Dispatcher, chan: seq<Unit>, u: UnixInput, d': Dispatcher, r: Ref)
    requires FreshIn(d) && UnixEffect(d, chan, u, d') && r in d'.list && r !in d.list
    ensures d'.out == d.out && r !in d'.out
  {
    hide ReceivedProcess;
  }

  lemma ServeUnixArrival(d: Dispatcher, chan: seq<Unit>, u: UnixInput, r: Ref)
    requires Objects(d) && UNIX_REF in d.proc.objs && UnixInputOk(d, chan, u)
    requires r in ServeUnix(Advance(d), chan, u).d.list && r !in d.list
    ensures ServeUnix(Advance(d), chan, u).d.out == d.out && r !in d.out
  {
    hide ServeUnix, UnixEffect;
    FreshNames(d);
    UnixCases(Advance(d), chan, u);
    UnixArrival(Advance(d), chan, u, ServeUnix(Advance(d), chan, u).d, r);
  }

  /** A visit lists nobody. */
  lemma ServeClientNoArrival(d: Dispatcher, v: Visit, r: Ref)
    requires Objects(d) && d.cursor < |d.out| && VisitOk(v) && d.out[d.cursor] in d.traces && r !in d.list
    ensures d.out[d.cursor] in d.proc.objs && forall q :: q in d.list ==> q in d.proc.objs
    ensures r !in ServeClient(Advance(d), d.out[d.cursor], v).list
  {
    hide VisitShape, ServeClient, VisitClient, History;
    ClientShape(d, v);
    var _ := ShapeKeeps(Advance(d), d.out[d.cursor], v, ServeClient(Advance(d), d.out[d.cursor], v));
  }

  lemma ServeArrival(d: Dispatcher, chan: seq<Unit>, u: UnixInput, v: Visit, r: Ref)
    requires Lists(d) && Objects(d) && d.phase == Serving && d.cursor < |d.out| && ServeOk(d, chan, u, v)
    requires r in Serve(d, chan, u, v).d.list && r !in d.list
    ensures Arrival(d, Serve(d, chan, u, v).d, r)
  {
    hide Serve, ServeUnix, ServeClient;
    ServeDispatches(d, chan, u, v);
    if d.out[d.cursor] == UNIX_REF {
      ServeUnixArrival(d, chan, u, r);
    } else {
      ServeClientNoArrival(d, v, r);
    }
  }

  lemma NextArrival(d: Dispatcher, d': Dispatcher, r: Ref)
    requires Sound(d) && Next(d, d') && r in d'.list && r !in d.list
    ensures Arrival(d, d', r)
  {
    hide Arrival, Serve, Owned, Balanced, Orderly;
    var chan: seq<Unit>, i: Input :| StepOk(d, chan, i) && Step(d, chan, i).d == d';
    if i.Handle? {
      ServeArrival(d, chan, i.unix, i.visit, r);
    }
  }

  lemma NextServing(d: Dispatcher, d': Dispatcher)
    requires Sound(d) && Next(d, d') && d.phase == Serving
    ensures d'.out == d.out
  {
    hide Serve, Owned, Balanced, Orderly, Lists;
    var chan: seq<Unit>, i: Input :| StepOk(d, chan, i) && Step(d, chan, i).d == d';
    if i.Handle? {
      ServeKeepsOut(d, chan, i.unix, i.visit);
    }
  }

  lemma UnixKeepsOut(d: Dispatcher, chan: seq<Unit>, u: UnixInput, d': Dispatcher)
    requires UnixEffect(d, chan, u, d')
    ensures d'.out == d.out && d'.cursor == d.cursor && (|d.list| == CAPACITY ==> d'.list == d.list)
  {
    hide ReceivedProcess;
  }

  lemma ServeKeepsOut(d: Dispatcher, chan: seq<Unit>, u: UnixInput, v: Visit)
    requires Objects(d) && d.cursor < |d.out| && ServeOk(d, chan, u, v)
    ensures Serve(d, chan, u, v).d.out == d.out
  {
    hide Serve, ServeUnix, ServeClient, UnixEffect;
    ServeDispatches(d, chan, u, v);
    if d.out[d.cursor] == UNIX_REF {
      FreshNames(d);
      UnixCases(Advance(d), chan, u);
      UnixKeepsOut(Advance(d), chan, u, ServeUnix(Advance(d), chan, u).d);
    } else {
      ClientCursor(d, v);
    }
  }

  /** In every run a client is received only at the start of a round, before any client is served,
      and for as long as that round lasts it is not among the sockets served. */
  lemma {:induction false} ArrivalWaits(ds: seq<Dispatcher>, m: nat, n: nat, r: Ref)
    requires IsRun(ds) && m < n < |ds| && r in ds[m + 1].list && r !in ds[m].list
    requires forall k :: m <= k < n ==> ds[k].phase == Serving
    ensures Arrival(ds[m], ds[m + 1], r) && r !in ds[n].out
  {
    hide Sound, Next, Init;
    if m + 1 == n {
      RunSound(ds, m);
      assert Linked(ds, m + 1);
      NextArrival(ds[m], ds[m + 1], r);
    } else {
      ArrivalWaits(ds, m, n - 1, r);
      assert Linked(ds, n);
      RunSound(ds, n - 1);
      NextServing(ds[n - 1], ds[n]);
    }
  }

  // ----- the full list

  lemma ServeWhenFull(d: Dispatcher, chan: seq<Unit>, u: UnixInput, v: Visit)
    requires Objects(d) && d.cursor < |d.out| && ServeOk(d, chan, u, v) && |d.list| == CAPACITY
    ensures Serve(d, chan, u, v).d.list == d.list
  {
    hide Serve, ServeUnix, ServeClient, UnixEffect;
    ServeDispatches(d, chan, u, v);
    if d.out[d.cursor] == UNIX_REF {
      FreshNames(d);
      UnixCases(Advance(d), chan, u);
      UnixKeepsOut(Advance(d), chan, u, ServeUnix(Advance(d), chan, u).d);
    } else {
      VisitWhenFull(Advance(d), d.out[d.cursor], v);
    }
  }

  lemma VisitWhenFull(d: Dispatcher, r: Ref, v: Visit)
    requires r in d.proc.objs && r in d.traces && VisitOk(v) && (forall q :: q in d.list ==> q in d.proc.objs)
    requires |d.list| == CAPACITY
    ensures ServeClient(d, r, v).list == d.list
  {
    hide VisitClient, History, Unlist;
  }

  lemma StepWhenFull(d: Dispatcher, chan: seq<Unit>, i: Input)
    requires Sound(d) && StepOk(d, chan, i)
    ensures d.phase != Gone
    ensures |d.list| == CAPACITY && Step(d, chan, i).d.phase != Gone ==> Step(d, chan, i).d.list == d.list
  {
    hide Serve, Owned, Balanced, Orderly, Lists;
    if i.Handle? && |d.list| == CAPACITY {
      ServeWhenFull(d, chan, i.unix, i.visit);
    }
  }

  lemma NextWhenFull(d: Dispatcher, d': Dispatcher)
    requires Sound(d) && Next(d, d') && d'.phase != Gone
    ensures d.phase != Gone
    ensures |d.list| == CAPACITY ==> d'.list == d.list
  {
    hide Sound;
    var chan: seq<Unit>, i: Input :| StepOk(d, chan, i) && Step(d, chan, i).d == d';
    StepWhenFull(d, chan, i);
  }

  /** Once the list is full it holds the same ten sockets in the same order for the rest of the loop. */
  lemma {:induction false} FullForever(ds: seq<Dispatcher>, m: nat, n: nat)
    requires IsRun(ds) && m <= n < |ds| && |ds[m].list| == CAPACITY && ds[n].phase != Gone
    ensures ds[n].list == ds[m].list && ds[m].phase != Gone
  {
    hide Sound, Next, Init;
    if m == n {
    } else {
      RunSound(ds, n - 1);
      assert Linked(ds, n);
      NextWhenFull(ds[n - 1], ds[n]);
      FullForever(ds, m, n - 1);
    }
  }

  /** And so every listed client lives on to the exit and, unless a stale number is taken, is not
      closed, however often it is dropped or takes its leave. */
  lemma FullKeepsClientsOpen(ds: seq<Dispatcher>, m: nat, n: nat, r: Ref)
    requires IsRun(ds) && m <= n < |ds| && |ds[m].list| == CAPACITY && ds[n].phase != Gone && r in ds[m].list
    ensures r in ds[n].proc.objs
    ensures ds[n].stale == 0 ==> ds[n].proc.objs[r].inst !in ds[n].proc.closed
  {
    hide Lists, Orderly, Balanced, OnceOpen, OpenIsOwned, DescriptorsApart;
    FullForever(ds, m, n);
    RunSound(ds, n);
    assert Referenced(ds[n], r);
  }

  // ----- fates

  /** Unless a stale number was taken, each client received is exactly one of: listed, refused as
      busy and closed, removed after having been listed (its descriptor closed, or held open by the
      output list until the next round), lost because its descriptor got number 0, or the last one, whose
      message brought no descriptor and made the loop end. */
  lemma EveryReceivedClientIsAccountedFor(ds: seq<Dispatcher>, n: nat, k: nat)
    requires IsRun(ds) && n < |ds| && ds[n].phase != Gone && ds[n].stale == 0 && 1 <= k <= |ds[n].received|
    ensures
      var d := ds[n];
      && (Listed(d, k) || k in d.refused || k in d.removed || k in d.proc.leaked || NeverCame(d, k))
      && (Listed(d, k) ==> k !in d.refused && k !in d.removed && k !in d.proc.leaked && k !in d.proc.closed)
      && (k in d.refused ==> k !in d.removed && k !in d.proc.leaked && k in d.proc.closed)
      && (k in d.removed ==> k !in d.proc.leaked && (k in d.proc.closed <==> !Lingering(d, k)))
      && (NeverCame(d, k) ==> k == |d.received| && d.phase == Broken
                              && !Listed(d, k) && k !in d.refused && k !in d.removed && k !in d.proc.leaked)
  {
    hide Lists, Objects, Balanced, Fates, Owned, Listed, Lingering;
    RunSound(ds, n);
    RunFates(ds, n);
    FateOf(ds[n], k);
  }

  /** The k-th client received has no instance. */
  ghost predicate NeverCame(d: Dispatcher, k: nat) {
    k >= d.proc.born
  }

  lemma FateOf(d: Dispatcher, k: nat)
    requires Fates(d) && Owned(d.proc) && Orderly(d) && 1 <= k <= |d.received|
    ensures
      && (Listed(d, k) || k in d.refused || k in d.removed || k in d.proc.leaked || NeverCame(d, k))
      && (Listed(d, k) ==> k !in d.refused && k !in d.removed && k !in d.proc.leaked && k !in d.proc.closed)
      && (k in d.refused ==> k !in d.removed && k !in d.proc.leaked && k in d.proc.closed)
      && (k in d.removed ==> k !in d.proc.leaked && (k in d.proc.closed <==> !Lingering(d, k)))
      && (NeverCame(d, k) ==> k == |d.received| && d.phase == Broken
                              && !Listed(d, k) && k !in d.refused && k !in d.removed && k !in d.proc.leaked)
  {
    hide OpenIsOwned, DescriptorsApart, OnceOpen;
    if Listed(d, k) {
      var r :| r in d.list && r != UNIX_REF && r in d.proc.objs && d.proc.objs[r].inst == k;
      assert d.proc.open[d.proc.objs[r].fd] == k;
    }
    if Lingering(d, k) {
      var r :| r in d.out && r !in d.list && r in d.proc.objs && d.proc.objs[r].inst == k;
      assert d.proc.open[d.proc.objs[r].fd] == k;
    }
  }
}
