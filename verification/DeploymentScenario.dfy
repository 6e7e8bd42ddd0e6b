/** An interleaving in which a client gets all the way: a dispatcher connects and is configured, a
    client is accepted and fanned out, and the dispatcher reads both. */
module DeploymentScenario {
  import opened Sockets
  import opened Polling
  import opened DescriptorPassing
  import opened Configuration
  import opened Ownership
  import opened Channel
  import opened Rounds
  import opened Deployment
  import LM = ListenerMain
  import DS = DispatcherSteps
  import S = DispatcherScenarios

  ghost function Last(ss: seq<System>): System
    requires |ss| > 0
  {
    ss[|ss| - 1]
  }

  lemma Extend(ss: seq<System>, s: System)
    requires IsRun(ss) && Next(Last(ss), s)
    ensures IsRun(ss + [s]) && Last(ss + [s]) == s
  {
    hide Next, Init;
    var ss' := ss + [s];
    forall n | 0 < n < |ss'| ensures Linked(ss', n) {
      if n < |ss| {
        assert Linked(ss, n);
      }
    }
  }

  // ----- the listener's part

  /** The listener's step reaches no connection. */
  lemma ListenerQuietly(ss: seq<System>, i: L.Input) returns (ss': seq<System>)
    requires IsRun(ss) && L.StepOk(Last(ss).listener, i)
    requires L.Step(Last(ss).listener, i).conns == Last(ss).listener.conns
    ensures IsRun(ss') && Last(ss') == Last(ss).(listener := L.Step(Last(ss).listener, i))
  {
    hide L.Step, L.StepOk, Linked, Init, Pipe, Piped, ListenerReachable;
    var s, none: Option<D.Dispatcher> := Last(ss), None;
    var l' := L.Step(s.listener, i);
    RunInv(ss, |ss| - 1);
    assert s.chans.Keys == s.listener.conns.Keys;
    NothingNew(s, l', none);
    ss' := ListenerGoes(ss, i, none);
  }

  lemma NothingNew(s: System, l': L.Listener, newcomer: Option<D.Dispatcher>)
    requires l'.conns == s.listener.conns && s.chans.Keys == s.listener.conns.Keys
    ensures AfterListener(s, l', newcomer) == s.(listener := l')
  {
    forall r | r in l'.conns ensures s.chans[r] + Units(News(s.listener, l', r)) == s.chans[r] {
      assert News(s.listener, l', r) == [];
    }
    assert AfterListener(s, l', newcomer).chans == s.chans;
    assert AfterListener(s, l', newcomer).dispatchers == s.dispatchers;
  }

  /** The listener of a reachable system is in a state its invariant describes. */
  lemma ListenerSound(ss: seq<System>)
    requires IsRun(ss)
    ensures LT.Inv(Last(ss).listener) && Last(ss).chans.Keys == Last(ss).listener.conns.Keys
  {
    hide LT.Inv, LT.Linked, L.Init, Linked, Init, Piped;
    RunInv(ss, |ss| - 1);
    var ls: seq<L.Listener> :| LT.IsRun(ls) && ls[|ls| - 1] == Last(ss).listener;
    LT.RunInv(ls, |ls| - 1);
  }

  lemma ListenerGoes(ss: seq<System>, i: L.Input, newcomer: Option<D.Dispatcher>) returns (ss': seq<System>)
    requires IsRun(ss) && L.StepOk(Last(ss).listener, i) && (newcomer.Some? ==> Newcomer(newcomer.value))
    ensures IsRun(ss') && Last(ss') == AfterListener(Last(ss), L.Step(Last(ss).listener, i), newcomer)
  {
    hide L.Step, L.StepOk, Linked, Init, AfterListener, Newcomer;
    var s' := AfterListener(Last(ss), L.Step(Last(ss).listener, i), newcomer);
    assert ListenerMoves(Last(ss), s');
    Extend(ss, s');
    ss' := ss + [s'];
  }

  ghost function ReadableAt(l: L.Listener, k: nat): L.Input {
    L.Round(Poll(1, false, S.OnlyReadable(|l.list|, k)), L.NotYet, false)
  }

  /** A round in which only the socket at place `k` is readable. */
  ghost predicate Begun(l: L.Listener, k: nat, l': L.Listener) {
    && k < |l.list|
    && l' == l.(proc := l'.proc, phase := L.Processing, cursor := 0, out := [l.list[k]], answers := l'.answers)
    && l'.proc.next == l.proc.next
    && l.list[k] in l.proc.objs && l.list[k] in l'.proc.objs
    && l'.proc.objs[l.list[k]] == l.proc.objs[l.list[k]].(events := NO_EVENTS, revents := {POLLIN})
    && (forall fd :: fd in l'.proc.open ==> fd in l.proc.open)
    && (forall i :: 0 <= i < |l.list| ==>
          && l.list[i] in l.proc.objs && l.list[i] in l'.proc.objs
          && S.Repolled(l.proc.objs[l.list[i]], l'.proc.objs[l.list[i]]))
  }

  lemma RoundEnabled(l: L.Listener, k: nat)
    requires LI.Structure(l) && l.phase == L.Between && k < |l.list|
    ensures L.StepOk(l, ReadableAt(l, k))
  {
    hide LI.Structure, L.Interested, L.Cleared;
    LM.AllAsked(l);
  }

  lemma RoundEffect(l: L.Listener, k: nat)
    requires LI.Structure(l) && k < |l.list|
    ensures forall r :: r in l.out ==> r in l.proc.objs
    ensures Begun(l, k, L.BeginRound(l, Poll(1, false, S.OnlyReadable(|l.list|, k)), L.NotYet, false))
  {
    hide LI.Structure, L.BeginRound, Selected;
    var poll := Poll(1, false, S.OnlyReadable(|l.list|, k));
    LM.RoundRest(l, poll, L.NotYet, false);
    LM.AllLooks(l, poll, L.NotYet, false);
    S.OnlySelected(l.list, poll.answers, k);
    RoundPhase(l, poll);
    RoundTable(l, poll);
  }

  lemma RoundBegins(l: L.Listener, k: nat)
    requires LT.Inv(l) && l.phase == L.Between && k < |l.list|
    ensures L.StepOk(l, ReadableAt(l, k)) && Begun(l, k, L.Step(l, ReadableAt(l, k)))
  {
    hide LI.Conns, L.BeginRound, LI.Structure, Begun;
    RoundEnabled(l, k);
    RoundEffect(l, k);
  }

  lemma RoundPhase(l: L.Listener, poll: Poll)
    requires |poll.answers| == |l.list| && poll.ret == 1 && forall r :: r in l.out ==> r in l.proc.objs
    ensures L.BeginRound(l, poll, L.NotYet, false).phase == L.Processing
  {
    hide Selected, PutAll, Release;
  }

  lemma RoundTable(l: L.Listener, poll: Poll)
    requires |poll.answers| == |l.list| && forall r :: r in l.out ==> r in l.proc.objs
    ensures forall fd :: fd in L.BeginRound(l, poll, L.NotYet, false).proc.open ==> fd in l.proc.open
  {
    hide Selected, PutAll, Release;
    ReleasedTable(l.proc, l.out, Elements(l.list) + L.PINNED);
  }

  lemma {:induction false} ReleasedTable(p: Process, xs: seq<Ref>, held: set<Ref>)
    requires forall x :: x in xs ==> x in p.objs
    ensures forall fd :: fd in Release(p, xs, held).open ==> fd in p.open
    decreases |xs|
  {
    if xs == [] {
    } else if xs[0] in held || xs[0] in xs[1..] {
      ReleasedTable(p, xs[1..], held);
    } else {
      ReleasedTable(Destroy(p, xs[0]), xs[1..], held);
    }
  }

  /** The only polled socket, a readable listening one, has its turn. */
  ghost predicate Polled(l: L.Listener, r: Ref) {
    && l.phase == L.Processing && l.cursor == 0 && l.out == [r]
    && r in l.proc.objs && l.proc.objs[r].revents == {POLLIN} && l.proc.objs[r].listening
  }

  lemma HandleEnabled(ls: L.Listener, r: Ref, ev: L.Event)
    requires LT.Inv(ls) && Polled(ls, r) && L.AcceptOk(ls.proc, ev.accept)
    ensures L.StepOk(ls, L.Handle(ev)) && LT.Inv(LT.Advance(ls))
    ensures forall q :: q in ls.list ==> q in ls.proc.objs && q < ls.proc.next
    ensures ls.proc.objs[r].kind == UNIX ==>
      L.Step(ls, L.Handle(ev)) == L.AcceptDispatcher(LT.Advance(ls), ev.accept, ev.labelOk, ev.bodyOk)
    ensures ls.proc.objs[r].kind == TCP ==>
      L.Step(ls, L.Handle(ev)) == L.AcceptClient(LT.Advance(ls), ev.accept, ev.delivered)
  {
    hide Owned, L.AcceptDispatcher, L.AcceptClient;
    LM.ListedConns(ls);
    LT.AdvanceInv(ls);
  }

  /** A dispatcher is accepted and written its configuration. */
  lemma DispatcherJoins(ss: seq<System>, fd: int, d: D.Dispatcher) returns (ss': seq<System>)
    requires IsRun(ss) && Polled(Last(ss).listener, L.UNIX_REF) && |Last(ss).listener.list| < L.CAPACITY
    requires L.AcceptOk(Last(ss).listener.proc, L.Accepted(fd)) && Newcomer(d)
    requires Last(ss).listener.proc.objs[L.UNIX_REF].kind == UNIX
    ensures IsRun(ss')
    ensures
      var l, s' := Last(ss).listener, Last(ss');
      && s'.listener.list == l.list + [l.proc.next] && s'.listener.phase == L.Processing
      && s'.listener.cursor == |s'.listener.out| && s'.listener.accepted == l.accepted
      && s'.listener.pid == l.pid && s'.listener.names == l.names
      && (forall q :: q in s'.listener.proc.open ==> q in l.proc.open || q == fd)
      && l.proc.next in s'.dispatchers && s'.dispatchers[l.proc.next] == d
      && l.proc.next in s'.chans && s'.chans[l.proc.next] == [ConfigUnit(PrintConfig(l.pid, l.names))]
      && L.TCP_REF in l.proc.objs && L.TCP_REF in s'.listener.proc.objs
      && s'.listener.proc.objs[L.TCP_REF] == l.proc.objs[L.TCP_REF]
  {
    hide LT.Inv, L.AcceptDispatcher, Newcomer, Owned, LI.Conns, PrintConfig, Linked, Init;
    var s, l, r := Last(ss), Last(ss).listener, Last(ss).listener.proc.next;
    var ev := L.Event(L.Accepted(fd), {}, true, true);
    ListenerSound(ss);
    HandleEnabled(l, L.UNIX_REF, ev);
    var n := LT.Advance(l);
    LM.JoinLeaves(n, fd, true, true);
    var l' := L.AcceptDispatcher(n, L.Accepted(fd), true, true);
    ss' := ListenerGoes(ss, L.Handle(ev), Some(d));
    JoinNews(l, l', r);
    PinnedLives(l);
    JoinTable(n, fd);
  }

  lemma PinnedLives(l: L.Listener)
    requires LT.Inv(l) && l.phase == L.Processing
    ensures L.TCP_REF in l.proc.objs && L.TCP_REF < l.proc.next && L.TCP_REF != l.proc.next
  {
    hide Owned, LI.Conns;
    assert LI.Referenced(l, L.TCP_REF);
  }

  lemma JoinTable(l: L.Listener, fd: int)
    requires |l.list| < L.CAPACITY
    ensures forall q :: q in L.AcceptDispatcher(l, L.Accepted(fd), true, true).proc.open ==> q in l.proc.open || q == fd
  {
  }

  lemma JoinNews(l: L.Listener, l': L.Listener, r: Ref)
    requires r !in l.conns && r in l'.conns && l'.conns[r].written == L.ConfigMessages(l.pid, l.names, true, true)
    ensures Units(News(l, l', r)) == [ConfigUnit(PrintConfig(l.pid, l.names))]
  {
    hide PrintConfig;
    var ms := News(l, l', r);
    assert ms == [L.Label, L.Body(PrintConfig(l.pid, l.names))];
    assert ms[2..] == [];
  }

  /** A client is accepted and its descriptor reaches the connection `r`. */
  lemma ClientIsPassed(ss: seq<System>, fd: int, r: Ref) returns (ss': seq<System>)
    requires IsRun(ss) && Polled(Last(ss).listener, L.TCP_REF) && L.AcceptOk(Last(ss).listener.proc, L.Accepted(fd))
    requires r in Last(ss).listener.list && r !in L.PINNED && r in Last(ss).chans && r in Last(ss).dispatchers
    requires Last(ss).listener.proc.objs[L.TCP_REF].kind == TCP
    ensures IsRun(ss')
    ensures
      var s, s' := Last(ss), Last(ss');
      && r in s'.chans && s'.chans[r] == s.chans[r] + [DescriptorUnit(fd, s.listener.accepted)]
      && r in s'.dispatchers && s'.dispatchers[r] == s.dispatchers[r]
  {
    hide LT.Inv, L.AcceptClient, LI.Conns, Accounted, OpenIsOwned, ObjectsLive, DescriptorsApart, Linked, Init;
    var s, l := Last(ss), Last(ss).listener;
    var ev := L.Event(L.Accepted(fd), {r}, true, true);
    ListenerSound(ss);
    HandleEnabled(l, L.TCP_REF, ev);
    var n := LT.Advance(l);
    AcceptReaches(n, fd, r);
    ss' := ListenerGoes(ss, L.Handle(ev), None);
    PassNews(l, L.AcceptClient(n, L.Accepted(fd), {r}), r, fd);
  }

  lemma AcceptReaches(l: L.Listener, fd: int, r: Ref)
    requires LT.Inv(l) && l.phase == L.Processing && L.AcceptOk(l.proc, L.Accepted(fd)) && r in l.list && r !in L.PINNED
    ensures forall q :: q in l.list ==> q in l.proc.objs && q < l.proc.next
    ensures
      var l' := L.AcceptClient(l, L.Accepted(fd), {r});
      && r in l.conns && l'.conns.Keys == l.conns.Keys
      && l'.conns[r].written == l.conns[r].written + [L.Pass(fd, l.accepted)]
  {
    hide L.AcceptClient, Accounted, OpenIsOwned, ObjectsLive, DescriptorsApart;
    LM.ListedConns(l);
    LT.FreshNames(l);
    LI.AcceptClientEffect(l, fd, {r});
  }

  lemma PassNews(l: L.Listener, l': L.Listener, r: Ref, fd: int)
    requires r in l.conns && r in l'.conns && l'.conns[r].written == l.conns[r].written + [L.Pass(fd, l.accepted)]
    ensures Units(News(l, l', r)) == [DescriptorUnit(fd, l.accepted)]
  {
    var ms := News(l, l', r);
    assert ms == [L.Pass(fd, l.accepted)];
    assert ms[1..] == [];
  }

  // ----- the dispatcher's part

  lemma DispatcherGoes(ss: seq<System>, r: Ref, i: D.Input) returns (ss': seq<System>)
    requires IsRun(ss) && r in Last(ss).dispatchers && r in Last(ss).chans
    requires D.StepOk(Last(ss).dispatchers[r], Last(ss).chans[r], i)
    ensures IsRun(ss')
    ensures Last(ss') == AfterDispatcher(Last(ss), r, D.Step(Last(ss).dispatchers[r], Last(ss).chans[r], i))
  {
    hide D.Step, D.StepOk, Linked, Init;
    var s' := AfterDispatcher(Last(ss), r, D.Step(Last(ss).dispatchers[r], Last(ss).chans[r], i));
    assert DispatcherMoves(Last(ss), s');
    Extend(ss, s');
    ss' := ss + [s'];
  }

  lemma ReachableSound(d: D.Dispatcher)
    requires DispatcherReachable(d) && d.phase != D.Gone
    ensures DI.Structure(d)
  {
    hide DI.Structure, DS.Departed, DT.Linked, D.Init;
    var ds: seq<D.Dispatcher> :| DT.IsRun(ds) && ds[|ds| - 1] == d;
    DT.RunSound(ds, |ds| - 1);
  }

  lemma DispatcherSound(ss: seq<System>, r: Ref)
    requires IsRun(ss) && r in Last(ss).dispatchers && Last(ss).dispatchers[r].phase != D.Gone
    ensures DI.Structure(Last(ss).dispatchers[r])
  {
    hide DI.Structure, DispatcherReachable, ListenerReachable, Linked, Init;
    ProcessesStayReachable(ss, |ss| - 1);
    ReachableSound(Last(ss).dispatchers[r]);
  }

  /** A round of the dispatcher in which its UNIX socket alone is readable has begun. */
  lemma DispatcherPolls(ss: seq<System>, r: Ref) returns (ss': seq<System>)
    requires IsRun(ss) && r in Last(ss).dispatchers && r in Last(ss).chans && S.AtRest(Last(ss).dispatchers[r])
    ensures IsRun(ss') && r in Last(ss').dispatchers && r in Last(ss').chans && Last(ss').chans[r] == Last(ss).chans[r]
    ensures S.Begun(Last(ss).dispatchers[r], 0, Last(ss').dispatchers[r])
    ensures Last(ss').dispatchers[r].out == [D.UNIX_REF]
  {
    hide S.Begun, D.Step, D.BeginRound, DI.Objects, DI.Lists, Owned, Balanced, Linked, Init;
    var d := Last(ss).dispatchers[r];
    var poll := S.ReadablePoll(d, 0);
    DispatcherSound(ss, r);
    S.BeginEnabled(d, 0);
    DI.ClearedEffect(d);
    S.BeginEffect(d, D.Cleared(d), 0);
    RoundStep(d, Last(ss).chans[r], poll);
    ss' := DispatcherGoes(ss, r, D.Round(poll));
    BegunOut(d, Last(ss').dispatchers[r]);
  }

  lemma BegunOut(d: D.Dispatcher, d': D.Dispatcher)
    requires S.Begun(d, 0, d') && |d.list| > 0 && d.list[0] == D.UNIX_REF
    ensures d'.out == [D.UNIX_REF]
  {
  }

  lemma RoundStep(d: D.Dispatcher, chan: seq<Unit>, poll: Poll)
    requires D.StepOk(d, [], D.Round(poll))
    ensures D.StepOk(d, chan, D.Round(poll))
    ensures D.Step(d, chan, D.Round(poll)) == D.Served(D.PollRound(d, D.Cleared(d), poll), chan)
  {
  }

  /** The UNIX socket's turn reads the configuration, and the round is finished. */
  lemma ReadsConfiguration(ss: seq<System>, r: Ref) returns (ss': seq<System>)
    requires IsRun(ss) && r in Last(ss).dispatchers && r in Last(ss).chans && S.AtRest(Last(ss).dispatchers[r])
    requires Last(ss).chans[r] != [] && Last(ss).chans[r][0].ConfigUnit? && UnitOk(Last(ss).chans[r][0])
    ensures IsRun(ss') && r in Last(ss').dispatchers && r in Last(ss').chans
    ensures
      var d, d' := Last(ss).dispatchers[r], Last(ss').dispatchers[r];
      && Last(ss').chans[r] == Last(ss).chans[r][1..] && S.AtRest(d') && d'.received == d.received
      && d'.settings == Parse(d.settings, Lines(Wire(Last(ss).chans[r][0])))
      && d'.list == d.list && d'.control == d.control
      && (forall fd :: fd in d'.proc.open ==> fd in d.proc.open)
  {
    hide D.Step, D.StepOk, DI.Structure, Parse, Lines, UnitOk, S.Repolled, Linked, Init;
    var ss1 := DispatcherPolls(ss, r);
    DispatcherSound(ss1, r);
    var b, chan := Last(ss1).dispatchers[r], Last(ss1).chans[r];
    S.HandleConfiguring(b, chan);
    var ss2 := DispatcherGoes(ss1, r, D.Handle(S.Quiescent(None), S.IDLE));
    ss' := DispatcherRests(ss2, r);
  }

  lemma DispatcherRests(ss: seq<System>, r: Ref) returns (ss': seq<System>)
    requires IsRun(ss) && r in Last(ss).dispatchers && r in Last(ss).chans
    requires Last(ss).dispatchers[r].phase == D.Serving
    requires Last(ss).dispatchers[r].cursor == |Last(ss).dispatchers[r].out|
    ensures IsRun(ss')
    ensures Last(ss') ==
      AfterDispatcher(Last(ss), r, D.Served(Last(ss).dispatchers[r].(phase := D.Between), Last(ss).chans[r]))
  {
    hide Linked, Init;
    ss' := DispatcherGoes(ss, r, D.Finish);
  }

  /** The UNIX socket's turn receives the client. */
  lemma ReceivesClient(ss: seq<System>, r: Ref, number: int) returns (ss': seq<System>)
    requires IsRun(ss) && r in Last(ss).dispatchers && r in Last(ss).chans && S.AtRest(Last(ss).dispatchers[r])
    requires Last(ss).chans[r] != [] && Last(ss).chans[r][0].DescriptorUnit? && UnitOk(Last(ss).chans[r][0])
    requires Last(ss).chans[r][0].fd >= 0 && number > 0 && number !in Last(ss).dispatchers[r].proc.open
    ensures IsRun(ss') && r in Last(ss').dispatchers && r in Last(ss').chans
    ensures
      var d, d', u := Last(ss).dispatchers[r], Last(ss').dispatchers[r], Last(ss).chans[r][0];
      && Last(ss').chans[r] == Last(ss).chans[r][1..]
      && d'.received == d.received + [u.client] && d'.settings == d.settings
  {
    hide D.Step, D.StepOk, DI.Structure, D.ReceiveClient, UnitOk, S.Repolled, Linked, Init, DI.ReceivedProcess;
    var ss1 := DispatcherPolls(ss, r);
    DispatcherSound(ss1, r);
    var b, chan := Last(ss1).dispatchers[r], Last(ss1).chans[r];
    S.HandlePassing(b, chan, Some(number));
    ss' := DispatcherGoes(ss1, r, D.Handle(S.Quiescent(Some(number)), S.IDLE));
    ReceptionRecords(b, chan[0], Some(number));
  }

  lemma ReceptionRecords(d: D.Dispatcher, u: Unit, attached: Option<int>)
    requires DI.Structure(d) && DI.Receivable(d, u, attached) && u.fd >= 0
    ensures
      var d' := D.ReceiveClient(DI.Advance(d), u, attached);
      d'.received == d.received + [u.client] && d'.settings == d.settings
  {
    hide D.ReceiveClient, DI.ReceivedProcess, Owned, Balanced, DI.Orderly;
    DI.ReceiveCases(DI.Advance(d), u, attached);
  }

  // ----- the whole way

  lemma FirstState(pid: nat, names: Settings)
    requires Printable(L.Started(10, 11, true, pid, names))
    ensures
      var l := L.Started(10, 11, true, pid, names);
      && IsRun([System(l, map[], map[])]) && LT.Inv(l) && l.phase == L.Between && l.list == [L.TCP_REF, L.UNIX_REF]
      && l.proc.next == 2 && l.accepted == 0 && l.conns == map[] && l.pid == pid && l.names == names
      && l.proc.open.Keys == {10, 11}
      && L.UNIX_REF in l.proc.objs && l.proc.objs[L.UNIX_REF].kind == UNIX && l.proc.objs[L.UNIX_REF].listening
      && L.TCP_REF in l.proc.objs && l.proc.objs[L.TCP_REF].kind == TCP && l.proc.objs[L.TCP_REF].listening
  {
    hide LT.Inv, Printable;
    LT.StartedInv(10, 11, true, pid, names);
  }

  lemma FirstDispatcher()
    ensures Newcomer(D.Started(3, 0)) && S.AtRest(D.Started(3, 0))
  {
    S.FirstState(3, 0);
    var ds := [D.Started(3, 0)];
    assert DT.IsRun(ds) && ds[|ds| - 1] == D.Started(3, 0);
  }

  /** The listener as the scenario leaves it between its rounds, with a dispatcher listed. */
  ghost predicate Listening(s: System, pid: nat, names: Settings) {
    && s.listener.phase == L.Between && s.listener.list == [L.TCP_REF, L.UNIX_REF, 2] && s.listener.accepted == 0
    && (forall fd :: fd in s.listener.proc.open ==> fd <= 12)
    && L.TCP_REF in s.listener.proc.objs
    && s.listener.proc.objs[L.TCP_REF].kind == TCP && s.listener.proc.objs[L.TCP_REF].listening
    && 2 in s.dispatchers && s.dispatchers[2] == D.Started(3, 0)
    && 2 in s.chans && s.chans[2] == [ConfigUnit(PrintConfig(pid, names))]
  }

  /** The listener accepts a dispatcher. */
  lemma ListenersFirstRound(pid: nat, names: Settings) returns (ss: seq<System>)
    requires Printable(L.Started(10, 11, true, pid, names))
    ensures IsRun(ss) && Listening(Last(ss), pid, names)
  {
    hide Printable, Newcomer, LT.Inv, PrintConfig, Linked, Init, D.Started, L.Started;
    var l0 := L.Started(10, 11, true, pid, names);
    FirstState(pid, names);
    FirstDispatcher();
    var ss0 := [System(l0, map[], map[])];
    var ss1 := ListenerPolls(ss0, 1);
    assert l0.list[0] == L.TCP_REF && l0.list[1] == L.UNIX_REF;
    var ss2 := DispatcherJoins(ss1, 12, D.Started(3, 0));
    ss := ListenerQuietly(ss2, L.Finish);
  }

  /** A round of the listener in which one socket alone is readable has begun. */
  lemma ListenerPolls(ss: seq<System>, k: nat) returns (ss': seq<System>)
    requires IsRun(ss) && Last(ss).listener.phase == L.Between && k < |Last(ss).listener.list|
    ensures IsRun(ss') && Last(ss') == Last(ss).(listener := Last(ss').listener)
    ensures Begun(Last(ss).listener, k, Last(ss').listener)
  {
    hide LT.Inv, L.Step, L.StepOk, Linked, Init;
    ListenerSound(ss);
    RoundBegins(Last(ss).listener, k);
    ss' := ListenerQuietly(ss, ReadableAt(Last(ss).listener, k));
  }

  /** And then, while nothing else happens, a client. */
  lemma ListenersHalf(pid: nat, names: Settings) returns (ss: seq<System>)
    requires Printable(L.Started(10, 11, true, pid, names))
    ensures IsRun(ss) && 2 in Last(ss).dispatchers && 2 in Last(ss).chans
    ensures Last(ss).dispatchers[2] == D.Started(3, 0)
    ensures Last(ss).chans[2] == [ConfigUnit(PrintConfig(pid, names)), DescriptorUnit(13, 0)]
  {
    hide Printable, PrintConfig, Linked, Init, D.Started, L.Started;
    var ss1 := ListenersFirstRound(pid, names);
    var ss2 := ListenerPolls(ss1, 0);
    assert Last(ss1).listener.list[0] == L.TCP_REF && Last(ss1).listener.list[2] == 2;
    ss := ClientIsPassed(ss2, 13, 2);
  }

  /** In some interleaving, for every configuration that can be carried: a dispatcher has read its
      configuration and received the first client, and its channel is empty. */
  lemma ClientReachesDispatcher(pid: nat, names: Settings) returns (ss: seq<System>)
    requires Printable(L.Started(10, 11, true, pid, names))
    ensures IsRun(ss) && 2 in Last(ss).dispatchers && 2 in Last(ss).chans
    ensures
      var d := Last(ss).dispatchers[2];
      d.received == [0] && d.settings == names && Last(ss).chans[2] == []
  {
    hide PrintConfig, Lines, Parse, LinesFit, Linked, Init, AllClean;
    var ss0 := ListenersHalf(pid, names);
    PrintFits(pid, names);
    var ss1 := ReadsConfiguration(ss0, 2);
    CleanRoundTrip(UNSET, pid, names);
    ss := ReceivesClient(ss1, 2, 4);
  }
}
