/** Every step of the dispatcher keeps its invariants, one group at a time. */
module DispatcherSteps {
  import opened Sockets
  import opened SocketLists
  import opened DescriptorPassing
  import opened ClientSession
  import opened Ownership
  import opened Channel
  import opened Rounds
  import opened DispatcherLoop
  import opened DispatcherInvariants

  /** After the exit no object is left, and unless a stale number was taken every instance is
      closed, once, but the leaked ones. */
  ghost predicate Departed(d: Dispatcher) {
    && d.proc.objs == map[] && d.list == [] && d.out == []
    && Balanced(d.proc, d.stale)
    && (d.stale == 0 ==> Accounted(d.proc) && forall fd :: fd in d.proc.open ==> d.proc.open[fd] in d.proc.leaked)
  }

  ghost predicate Sound(d: Dispatcher) {
    if d.phase == Gone then Departed(d) else Structure(d)
  }

  ghost predicate FatesKept(d: Dispatcher) {
    d.phase != Gone && d.stale == 0 ==> Fates(d)
  }

  ghost predicate SessionsKept(d: Dispatcher) {
    PastSessions(d) && (d.phase != Gone ==> LiveSessions(d))
  }

  ghost predicate AnswersKept(d: Dispatcher) {
    d.phase != Gone ==> AnswersFresh(d)
  }

  // ----- what the two kinds of handler do

  /** A handler that changes nothing but the settings and perhaps leaves the loop. */
  ghost predicate Quiet(d: Dispatcher, d': Dispatcher) {
    d' == d.(phase := d'.phase, settings := d'.settings) && (d'.phase == d.phase || d'.phase == Broken)
  }

  ghost predicate UnixEffect(d: Dispatcher, chan: seq<Unit>, u: UnixInput, d': Dispatcher) {
    || Quiet(d, d')
    || (chan != [] && Receivable(d, chan[0], u.attached) && ReceiveEffect(d, chan[0], u.attached, d'))
  }

  lemma UnixCases(d: Dispatcher, chan: seq<Unit>, u: UnixInput)
    requires FreshIn(d) && UNIX_REF in d.proc.objs && UnixInputOk(d, chan, u)
    ensures UnixEffect(d, chan, u, ServeUnix(d, chan, u).d)
  {
    hide ReceiveClient, ReceiveEffect;
    if !IsDropped(d.proc.objs[UNIX_REF].revents) && Classify(PeekSize(chan, u), PeekMemory(chan, u)) == Passing {
      ReceiveCases(d, chan[0], u.attached);
    }
  }

  /** Whether the activity takes no stale number can be told from the count. */
  lemma StaleIsCounted(d: Dispatcher, u: Unit, attached: Option<int>, d': Dispatcher)
    requires u.DescriptorUnit? && ReceiveEffect(d, u, attached, d')
    ensures d'.stale == d.stale + if TakesStale(d, u, attached) then 1 else 0
  {
  }

  lemma UnixOwned(d: Dispatcher, chan: seq<Unit>, u: UnixInput)
    requires Owned(d.proc) && FreshIn(d) && UNIX_REF in d.proc.objs && UnixInputOk(d, chan, u)
    ensures ServeUnix(d, chan, u).d.stale == d.stale ==> Owned(ServeUnix(d, chan, u).d.proc)
  {
    hide ReceiveClient, ReceiveEffect, Owned;
    if !IsDropped(d.proc.objs[UNIX_REF].revents) && Classify(PeekSize(chan, u), PeekMemory(chan, u)) == Passing {
      ReceiveCases(d, chan[0], u.attached);
      StaleIsCounted(d, chan[0], u.attached, ReceiveClient(d, chan[0], u.attached));
      if !TakesStale(d, chan[0], u.attached) {
        ReceiveOwned(d, chan[0], u.attached);
      }
    }
  }

  /** The client at the cursor of a sound state is listed, behind the head, and will not be served again this round. */
  ghost predicate Current(d: Dispatcher, r: Ref, k: nat) {
    && d.phase == Serving && d.cursor < |d.out| && r == d.out[d.cursor] && r != UNIX_REF
    && 0 < k < |d.list| && d.list[k] == r
    && Distinct(d.list) && Distinct(d.out)
    && r in d.proc.objs && r in d.traces
  }

  /** The client at the cursor is visited, whatever state this is. */
  lemma ClientShape(d: Dispatcher, v: Visit)
    requires Objects(d) && d.cursor < |d.out| && VisitOk(v) && d.out[d.cursor] in d.traces
    ensures d.out[d.cursor] in d.proc.objs && forall q :: q in d.list ==> q in d.proc.objs
    ensures VisitShape(Advance(d), d.out[d.cursor], v, ServeClient(Advance(d), d.out[d.cursor], v))
  {
    hide VisitShape, ServeClient;
    assert Referenced(d, d.out[d.cursor]);
    assert forall q :: q in d.list ==> Referenced(d, q);
    VisitCases(Advance(d), d.out[d.cursor], v);
  }

  lemma ClientCases(d: Dispatcher, v: Visit) returns (k: nat)
    requires Lists(d) && Objects(d) && Orderly(d) && DescriptorsApart(d.proc)
    requires d.phase == Serving && d.cursor < |d.out| && VisitOk(v)
    requires d.out[d.cursor] != UNIX_REF && d.out[d.cursor] in d.traces
    ensures d.out[d.cursor] in d.proc.objs && forall q :: q in d.list ==> q in d.proc.objs
    ensures Current(d, d.out[d.cursor], k)
    ensures VisitEffect(Advance(d), d.out[d.cursor], v, k, ServeClient(Advance(d), d.out[d.cursor], v))
  {
    hide VisitEffect, ServeClient, DescriptorsApart;
    var r := d.out[d.cursor];
    assert r in d.list;
    k :| 0 <= k < |d.list| && d.list[k] == r;
    assert forall q :: q in d.list ==> Referenced(d, q);
    RemovalIsExact(Advance(d), r, v, k);
  }

  // ----- the structure is kept

  lemma QuietStructure(d: Dispatcher, d': Dispatcher)
    requires Lists(d) && Objects(d) && Quiet(d, d')
    ensures Lists(d') && Objects(d') && (Orderly(d) && d.phase == Serving ==> Orderly(d'))
  {
    assert forall r :: Referenced(d', r) <==> Referenced(d, r);
  }

  lemma AdvanceStructure(d: Dispatcher)
    requires Lists(d) && Objects(d) && d.cursor < |d.out|
    ensures Lists(Advance(d)) && Objects(Advance(d)) && (Orderly(d) ==> Orderly(Advance(d)))
  {
    assert forall r :: Referenced(Advance(d), r) <==> Referenced(d, r);
  }

  lemma UnixStructure(d: Dispatcher, chan: seq<Unit>, u: UnixInput, d': Dispatcher)
    requires Lists(d) && Objects(d) && FreshIn(d) && UnixEffect(d, chan, u, d') && d.phase == Serving
    requires Balanced(d.proc, d.stale)
    ensures Lists(d') && Objects(d') && Balanced(d'.proc, d'.stale) && d'.stale >= d.stale
    ensures Orderly(d) && d'.stale == d.stale ==> Orderly(d')
  {
    hide Lists, Objects, Balanced, Orderly, ReceiveEffect;
    if Quiet(d, d') {
      QuietStructure(d, d');
    } else {
      var att := u.attached;
      ReceiveLists(d, chan[0], att, d');
      ReceiveObjects(d, chan[0], att, d');
      ReceiveBalanced(d, chan[0], att, d');
      StaleIsCounted(d, chan[0], att, d');
      if Orderly(d) && !TakesStale(d, chan[0], att) {
        ReceiveOrderly(d, chan[0], att, d');
      }
    }
  }

  lemma ServeUnixStructure(d: Dispatcher, chan: seq<Unit>, u: UnixInput)
    requires Structure(d) && d.phase == Serving && d.cursor < |d.out| && UNIX_REF in d.proc.objs
    requires UnixInputOk(d, chan, u)
    ensures Structure(ServeUnix(Advance(d), chan, u).d)
  {
    hide Lists, Objects, Balanced, Orderly, Owned, ServeUnix, UnixEffect, FreshIn;
    var n := Advance(d);
    AdvanceStructure(d);
    FreshNames(n);
    UnixCases(n, chan, u);
    UnixStructure(n, chan, u, ServeUnix(n, chan, u).d);
    if d.stale == 0 {
      UnixOwned(n, chan, u);
    }
  }

  lemma ClientStructure(d: Dispatcher, r: Ref, v: Visit, k: nat, d': Dispatcher)
    requires Orderly(d) && Current(d, r, k) && VisitOk(v) && VisitEffect(Advance(d), r, v, k, d')
    ensures Orderly(d')
  {
    hide VisitEffect;
    var n := Advance(d);
    assert r !in n.out[n.cursor..];
    VisitOrderly(n, r, v, k, d');
  }

  lemma ServeClientStructure(d: Dispatcher, v: Visit)
    requires Structure(d) && d.phase == Serving && d.cursor < |d.out| && VisitOk(v)
    requires d.out[d.cursor] != UNIX_REF && d.out[d.cursor] in d.traces
    ensures d.out[d.cursor] in d.proc.objs && forall q :: q in d.list ==> q in d.proc.objs
    ensures Structure(ServeClient(Advance(d), d.out[d.cursor], v))
  {
    hide Lists, Objects, Balanced, Orderly, ServeClient, VisitShape, VisitEffect, Accounted, OpenIsOwned,
         ObjectsLive, DescriptorsApart;
    var r := d.out[d.cursor];
    ClientShape(d, v);
    var d' := ServeClient(Advance(d), r, v);
    AdvanceStructure(d);
    VisitStructure(Advance(d), r, v, d');
    if d.stale == 0 {
      var k := ClientCases(d, v);
      ClientStructure(d, r, v, k, d');
      VisitOwned(Advance(d), r, v, k, d');
    }
  }

  /** Which handler the socket at the cursor gets. */
  lemma ServeDispatches(d: Dispatcher, chan: seq<Unit>, u: UnixInput, v: Visit)
    requires Objects(d) && d.cursor < |d.out| && ServeOk(d, chan, u, v)
    ensures d.out[d.cursor] == UNIX_REF ==> Serve(d, chan, u, v) == ServeUnix(Advance(d), chan, u)
    ensures d.out[d.cursor] != UNIX_REF ==>
      && d.out[d.cursor] in d.traces
      && Serve(d, chan, u, v) == Served(ServeClient(Advance(d), d.out[d.cursor], v), chan)
  {
    hide ServeUnix, ServeClient;
  }

  lemma UnixPhase(d: Dispatcher, chan: seq<Unit>, u: UnixInput)
    requires UNIX_REF in d.proc.objs && UnixInputOk(d, chan, u) && d.phase == Serving
    ensures ServeUnix(d, chan, u).d.phase != Gone
  {
    hide Greeted, Destroy, Installed, Classify;
  }

  lemma ServePhase(d: Dispatcher, chan: seq<Unit>, u: UnixInput, v: Visit)
    requires Objects(d) && d.cursor < |d.out| && ServeOk(d, chan, u, v) && d.phase == Serving
    ensures Serve(d, chan, u, v).d.phase != Gone
  {
    hide Serve, ServeUnix, ServeClient, Objects;
    ServeDispatches(d, chan, u, v);
    if d.out[d.cursor] == UNIX_REF {
      UnixPhase(Advance(d), chan, u);
    } else {
      ClientCursor(d, v);
    }
  }

  lemma ServeStructure(d: Dispatcher, chan: seq<Unit>, u: UnixInput, v: Visit)
    requires Structure(d) && d.phase == Serving && d.cursor < |d.out| && ServeOk(d, chan, u, v)
    ensures Structure(Serve(d, chan, u, v).d)
  {
    hide Lists, Objects, Balanced, Orderly, Owned, ServeUnix, ServeClient, Serve;
    ServeDispatches(d, chan, u, v);
    if d.out[d.cursor] == UNIX_REF {
      ServeUnixStructure(d, chan, u);
    } else {
      ServeClientStructure(d, v);
    }
  }

  // ----- the exit

  lemma OnlyUnixLeft(p: Process, list: seq<Ref>, stale: nat)
    requires Balanced(p, stale) && Unprotected(p) && (forall r :: r in p.objs <==> r in list || r == UNIX_REF)
    ensures
      var q := Release(p, list, {UNIX_REF});
      Balanced(q, stale) && Unprotected(q) && (forall r :: r in q.objs <==> r == UNIX_REF) && q.next == p.next
  {
    hide Release, Balanced;
    ReleaseBalanced(p, list, {UNIX_REF}, stale);
    assert forall r :: Dies(list, {UNIX_REF}, r) <==> r in list && r != UNIX_REF;
  }

  lemma ReleaseTheRest(p: Process, list: seq<Ref>, stale: nat)
    requires Balanced(p, stale) && Unprotected(p) && (forall r :: r in p.objs <==> r in list || r == UNIX_REF)
    ensures UNIX_REF in Release(p, list, {UNIX_REF}).objs
    ensures
      var e := Destroy(Release(p, list, {UNIX_REF}), UNIX_REF);
      Balanced(e, stale) && e.objs == map[] && e.next == p.next
  {
    hide Release, Balanced;
    OnlyUnixLeft(p, list, stale);
    var q := Release(p, list, {UNIX_REF});
    DestroyBalanced(q, UNIX_REF, stale);
    assert Destroy(q, UNIX_REF).objs == q.objs - {UNIX_REF};
    assert forall r :: r !in Destroy(q, UNIX_REF).objs;
  }

  lemma RestOwned(p: Process, list: seq<Ref>)
    requires Owned(p) && forall r :: r in list ==> r in p.objs
    requires UNIX_REF in Release(p, list, {UNIX_REF}).objs
    ensures Owned(Destroy(Release(p, list, {UNIX_REF}), UNIX_REF))
  {
    hide Release;
    ReleaseOwned(p, list, {UNIX_REF});
    DestroyOwned(Release(p, list, {UNIX_REF}), UNIX_REF);
  }

  lemma NoOwnerLeft(p: Process)
    requires OpenIsOwned(p) && p.objs == map[]
    ensures forall fd :: fd in p.open ==> p.open[fd] in p.leaked
  {
    assert forall r, fd :: !Owner(p, r, fd);
  }

  lemma ExitEnabled(d: Dispatcher)
    requires Lists(d) && Objects(d) && Balanced(d.proc, d.stale)
    ensures Exit.requires(d)
    ensures
      var e := Exit(d).proc;
      Balanced(e, d.stale) && e.objs == map[] && e.next == d.proc.next
  {
    hide Release, Balanced, Destroy, Distinct;
    ClearedEffect(d);
    assert forall r :: r in d.list || r == UNIX_REF ==> Referenced(d, r);
    assert Unprotected(Cleared(d));
    ReleaseTheRest(Cleared(d), d.list, d.stale);
  }

  /** The exit is always possible once the loop is left, and closes everything that is still owned. */
  lemma ExitSound(d: Dispatcher)
    requires Structure(d)
    ensures Exit.requires(d) && Departed(Exit(d)) && Exit(d).proc.next == d.proc.next
  {
    hide Lists, Objects, Balanced, Orderly, Accounted, ObjectsLive, DescriptorsApart, OpenIsOwned, Release, Destroy;
    ExitEnabled(d);
    if d.stale == 0 {
      ClearedOwned(d);
      RestOwned(Cleared(d), d.list);
      NoOwnerLeft(Exit(d).proc);
    }
  }

  lemma FinishStructure(d: Dispatcher)
    requires Structure(d) && d.phase == Serving
    ensures Structure(d.(phase := Between))
  {
    hide Owned, Balanced;
    var d' := d.(phase := Between);
    assert forall r :: Referenced(d', r) <==> Referenced(d, r);
  }

  lemma StepSound(d: Dispatcher, chan: seq<Unit>, i: Input)
    requires Sound(d) && StepOk(d, chan, i)
    ensures Sound(Step(d, chan, i).d)
  {
    hide Lists, Objects, Balanced, Orderly, Owned, Departed, Serve, BeginRound, Exit;
    match i
    case Round(poll) => RoundStructure(d, poll); RoundPhase(d, poll);
    case Handle(u, v) => ServeStructure(d, chan, u, v); ServePhase(d, chan, u, v);
    case Finish => FinishStructure(d);
    case Leave => ExitSound(d); ExitPhase(d);
  }

  lemma RoundPhase(d: Dispatcher, poll: Poll)
    requires (forall r :: r in d.out ==> r in d.proc.objs) && |poll.answers| == |d.list|
    ensures BeginRound(d, poll).phase != Gone && BeginRound(d, poll).stale == d.stale
  {
  }

  lemma ExitPhase(d: Dispatcher)
    requires Exit.requires(d)
    ensures Exit(d).phase == Gone && Exit(d).stale == d.stale && Exit(d).traces == d.traces
  {
  }

  // ----- the fates are kept

  lemma SameFates(d: Dispatcher, d': Dispatcher)
    requires Fates(d) && d'.proc == d.proc && d'.list == d.list && d'.out == d.out && d'.refused == d.refused
    requires d'.removed == d.removed
    ensures Fates(d')
  {
    forall i ensures Listed(d', i) <==> Listed(d, i) {
    }
    forall i ensures Lingering(d', i) <==> Lingering(d, i) {
    }
  }

  lemma RoundKeepsFates(d: Dispatcher, poll: Poll)
    requires Structure(d) && d.stale == 0 && Fates(d) && |poll.answers| == |d.list|
    ensures forall r :: r in d.out ==> r in d.proc.objs
    ensures Fates(BeginRound(d, poll))
  {
    hide Fates, Released, Owned, Balanced, Distinct;
    ClearedEffect(d);
    ClearedOwned(d);
    assert UNIX_REF == d.list[0];
    RoundFates(d, Cleared(d), poll);
  }

  lemma InstancesBorn(p: Process)
    requires ObjectsLive(p) && Accounted(p)
    ensures forall r :: r in p.objs ==> p.objs[r].inst < p.born
  {
    hide OnceOpen;
  }

  lemma UnixFates(d: Dispatcher, chan: seq<Unit>, u: UnixInput, d': Dispatcher)
    requires Fates(d) && FreshIn(d) && UnixEffect(d, chan, u, d') && d.proc.born >= 1
    requires forall r :: r in d.proc.objs ==> d.proc.objs[r].inst < d.proc.born
    ensures d'.stale == d.stale ==> Fates(d')
  {
    hide Fates, ReceiveEffect;
    if Quiet(d, d') {
      SameFates(d, d');
    } else {
      StaleIsCounted(d, chan[0], u.attached, d');
      if !TakesStale(d, chan[0], u.attached) {
        ReceiveFates(d, chan[0], u.attached, d');
      }
    }
  }

  lemma ServeUnixFates(d: Dispatcher, chan: seq<Unit>, u: UnixInput)
    requires Structure(d) && d.stale == 0 && Fates(d) && d.phase == Serving && UNIX_REF in d.proc.objs
    requires UnixInputOk(d, chan, u)
    ensures ServeUnix(Advance(d), chan, u).d.stale == 0 ==> Fates(ServeUnix(Advance(d), chan, u).d)
  {
    hide Fates, ServeUnix, UnixEffect, Accounted, ObjectsLive, DescriptorsApart, OpenIsOwned, Balanced, Lists;
    FreshNames(d);
    UnixCases(Advance(d), chan, u);
    SameFates(d, Advance(d));
    InstancesBorn(d.proc);
    UnixFates(Advance(d), chan, u, ServeUnix(Advance(d), chan, u).d);
  }

  lemma ClientFates(d: Dispatcher, r: Ref, v: Visit, k: nat, d': Dispatcher)
    requires Fates(d) && Current(d, r, k) && VisitOk(v) && VisitEffect(Advance(d), r, v, k, d')
    requires d.proc.objs[r].inst < d.proc.born
    requires forall q :: q in d.proc.objs && q != r ==> d.proc.objs[q].inst != d.proc.objs[r].inst
    ensures Fates(d')
  {
    hide Fates, VisitEffect;
    SameFates(d, Advance(d));
    VisitFates(Advance(d), r, v, k, d');
  }

  lemma ServeClientFates(d: Dispatcher, v: Visit)
    requires Structure(d) && d.stale == 0 && Fates(d) && d.phase == Serving && d.cursor < |d.out| && VisitOk(v)
    requires d.out[d.cursor] != UNIX_REF && d.out[d.cursor] in d.traces
    ensures d.out[d.cursor] in d.proc.objs && forall q :: q in d.list ==> q in d.proc.objs
    ensures Fates(ServeClient(Advance(d), d.out[d.cursor], v))
  {
    hide Fates, Accounted, ObjectsLive, DescriptorsApart, OpenIsOwned, Balanced, Lists, Objects, Orderly,
         ServeClient, VisitEffect;
    var r := d.out[d.cursor];
    var k := ClientCases(d, v);
    InstancesApart(d.proc);
    InstancesBorn(d.proc);
    ClientFates(d, r, v, k, ServeClient(Advance(d), r, v));
  }

  /** The count of stale numbers never falls. */
  lemma StaleOnlyGrows(d: Dispatcher, chan: seq<Unit>, i: Input)
    requires Sound(d) && StepOk(d, chan, i)
    ensures Step(d, chan, i).d.stale >= d.stale
  {
    hide Balanced, Owned, Lists, Orderly, Serve, BeginRound, Exit;
    match i
    case Round(poll) => RoundPhase(d, poll);
    case Handle(u, v) =>
      ServeDispatches(d, chan, u, v);
      if d.out[d.cursor] == UNIX_REF {
        UnixStale(d, chan, u);
      } else {
        ClientStale(d, v);
      }
    case Finish =>
    case Leave => ExitPhase(d);
  }

  lemma UnixStale(d: Dispatcher, chan: seq<Unit>, u: UnixInput)
    requires UNIX_REF in d.proc.objs && UnixInputOk(d, chan, u)
    ensures ServeUnix(Advance(d), chan, u).d.stale >= d.stale
  {
    hide Greeted, Destroy;
  }

  lemma ClientStale(d: Dispatcher, v: Visit)
    requires Objects(d) && d.cursor < |d.out| && VisitOk(v) && d.out[d.cursor] in d.traces
    ensures d.out[d.cursor] in d.proc.objs && forall q :: q in d.list ==> q in d.proc.objs
    ensures ServeClient(Advance(d), d.out[d.cursor], v).stale == d.stale
  {
    hide VisitShape, ServeClient, VisitClient, History;
    ClientShape(d, v);
    var _ := ShapeKeeps(Advance(d), d.out[d.cursor], v, ServeClient(Advance(d), d.out[d.cursor], v));
  }

  lemma StepFates(d: Dispatcher, chan: seq<Unit>, i: Input)
    requires Sound(d) && FatesKept(d) && StepOk(d, chan, i)
    ensures FatesKept(Step(d, chan, i).d)
  {
    hide Fates, Owned, Balanced, Lists, Orderly, Serve, BeginRound, Exit, ServeUnix, ServeClient;
    StaleOnlyGrows(d, chan, i);
    if d.stale == 0 {
      match i
      case Round(poll) => RoundKeepsFates(d, poll);
      case Handle(u, v) =>
        ServeDispatches(d, chan, u, v);
        if d.out[d.cursor] == UNIX_REF {
          ServeUnixFates(d, chan, u);
        } else {
          ServeClientFates(d, v);
        }
      case Finish => SameFates(d, d.(phase := Between));
      case Leave => ExitPhase(d);
    }
  }

  // ----- the sessions are kept

  /** Fewer sockets still to be served, and nothing else changed, keeps the sessions. */
  lemma SameSessions(d: Dispatcher, d': Dispatcher)
    requires LiveSessions(d) && d'.proc == d.proc && d'.list == d.list && d'.out == d.out
    requires d'.traces == d.traces && d'.stale == d.stale
    requires d.cursor <= d'.cursor <= |d'.out| && (d'.phase == Serving ==> d.phase == Serving)
    ensures LiveSessions(d')
  {
    hide StatusFits;
    assert d.out[d.cursor..] == d.out[d.cursor..d'.cursor] + d'.out[d'.cursor..];
    forall r | r in d'.proc.objs && r != UNIX_REF ensures Courtesy(d', r) {
      assert Courtesy(d, r);
    }
    forall r | r in d'.traces ensures d'.stale == 0 ==> NoByeYet(d', r) {
      assert d.stale == 0 ==> NoByeYet(d, r);
    }
  }

  lemma RoundKeepsSessions(d: Dispatcher, poll: Poll)
    requires Structure(d) && LiveSessions(d) && PastSessions(d) && d.phase == Between
    requires forall r :: r in d.out ==> r in d.proc.objs
    requires PollOk(d.list, Interested(Cleared(d).objs, d.list), poll.answers)
    ensures LiveSessions(BeginRound(d, poll)) && PastSessions(BeginRound(d, poll))
  {
    hide LiveSessions, Owned, Balanced, Orderly, Distinct, Courteous;
    ClearedEffect(d);
    RoundSessions(d, Cleared(d), poll);
  }

  lemma UnixSessions(d: Dispatcher, chan: seq<Unit>, u: UnixInput, d': Dispatcher)
    requires LiveSessions(d) && PastSessions(d) && FreshIn(d) && UnixEffect(d, chan, u, d')
    ensures LiveSessions(d') && PastSessions(d')
  {
    hide ReceiveEffect, Courtesy, NoByeYet, Courteous;
    if Quiet(d, d') {
      SameSessions(d, d');
    } else {
      ReceiveSessions(d, chan[0], u.attached, d');
      ReceivePast(d, chan[0], u.attached, d');
    }
  }

  lemma ServeUnixSessions(d: Dispatcher, chan: seq<Unit>, u: UnixInput)
    requires Objects(d) && LiveSessions(d) && PastSessions(d) && d.cursor < |d.out| && UNIX_REF in d.proc.objs
    requires UnixInputOk(d, chan, u)
    ensures LiveSessions(ServeUnix(Advance(d), chan, u).d) && PastSessions(ServeUnix(Advance(d), chan, u).d)
  {
    hide LiveSessions, UnixEffect, ServeUnix, Courteous;
    FreshNames(d);
    UnixCases(Advance(d), chan, u);
    SameSessions(d, Advance(d));
    UnixSessions(Advance(d), chan, u, ServeUnix(Advance(d), chan, u).d);
  }

  lemma ServeClientSessions(d: Dispatcher, v: Visit)
    requires Structure(d) && LiveSessions(d) && PastSessions(d) && d.phase == Serving && d.cursor < |d.out|
    requires VisitOk(v)
    requires d.out[d.cursor] != UNIX_REF && d.out[d.cursor] in d.traces
    ensures d.out[d.cursor] in d.proc.objs && forall q :: q in d.list ==> q in d.proc.objs
    ensures
      var d' := ServeClient(Advance(d), d.out[d.cursor], v);
      LiveSessions(d') && PastSessions(d')
  {
    hide Courtesy, NoByeYet, Courteous, ByeLast, ServeClient, VisitShape, VisitEffect, Objects, Orderly, Balanced,
         Accounted, ObjectsLive, DescriptorsApart, OpenIsOwned, Distinct;
    var r := d.out[d.cursor];
    ClientShape(d, v);
    ClientStale(d, v);
    var d' := ServeClient(Advance(d), r, v);
    ClientCursor(d, v);
    VisitSessions(d, r, v, d');
    if d.stale == 0 {
      var k := ClientCases(d, v);
      VisitByes(d, r, v, k, d');
    }
  }

  lemma ClientCursor(d: Dispatcher, v: Visit)
    requires Objects(d) && d.cursor < |d.out| && VisitOk(v) && d.out[d.cursor] in d.traces
    ensures d.out[d.cursor] in d.proc.objs && forall q :: q in d.list ==> q in d.proc.objs
    ensures
      var d' := ServeClient(Advance(d), d.out[d.cursor], v);
      d'.out == d.out && d'.cursor == d.cursor + 1 && d'.phase == d.phase
  {
    hide VisitShape, ServeClient, VisitClient, History;
    ClientShape(d, v);
    var _ := ShapeKeeps(Advance(d), d.out[d.cursor], v, ServeClient(Advance(d), d.out[d.cursor], v));
  }

  lemma StepSessions(d: Dispatcher, chan: seq<Unit>, i: Input)
    requires Sound(d) && SessionsKept(d) && StepOk(d, chan, i)
    ensures SessionsKept(Step(d, chan, i).d)
  {
    hide LiveSessions, Owned, Balanced, Orderly, Serve, BeginRound, ServeUnix, ServeClient, Courteous, Exit;
    match i
    case Round(poll) => RoundKeepsSessions(d, poll);
    case Handle(u, v) =>
      ServeDispatches(d, chan, u, v);
      if d.out[d.cursor] == UNIX_REF {
        ServeUnixSessions(d, chan, u);
      } else {
        ServeClientSessions(d, v);
      }
    case Finish => SameSessions(d, d.(phase := Between)); CursorInside(d);
    case Leave => ExitSound(d); ExitPhase(d);
  }

  lemma CursorInside(d: Dispatcher)
    requires LiveSessions(d)
    ensures d.cursor <= |d.out|
  {
  }

  // ----- the answers stay this round's

  lemma RoundKeepsAnswers(d: Dispatcher, poll: Poll)
    requires Structure(d) && |poll.answers| == |d.list|
    ensures forall r :: r in d.out ==> r in d.proc.objs
    ensures AnswersFresh(BeginRound(d, poll))
  {
    hide AnswersFresh, Owned, Balanced, Orderly;
    ClearedEffect(d);
    RoundAnswers(d, Cleared(d), poll);
  }

  lemma ServeUnixAnswers(d: Dispatcher, chan: seq<Unit>, u: UnixInput)
    requires Objects(d) && AnswersFresh(d) && UNIX_REF in d.proc.objs && UnixInputOk(d, chan, u)
    ensures AnswersFresh(ServeUnix(Advance(d), chan, u).d)
  {
    hide ReceiveEffect, ServeUnix;
    var n := Advance(d);
    FreshNames(d);
    UnixCases(n, chan, u);
    var d' := ServeUnix(n, chan, u).d;
    if !Quiet(n, d') {
      ReceiveAnswers(n, chan[0], u.attached, d');
    }
  }

  lemma ServeClientAnswers(d: Dispatcher, v: Visit)
    requires Structure(d) && AnswersFresh(d) && d.phase == Serving && d.cursor < |d.out| && VisitOk(v)
    requires d.out[d.cursor] != UNIX_REF && d.out[d.cursor] in d.traces
    ensures d.out[d.cursor] in d.proc.objs && forall q :: q in d.list ==> q in d.proc.objs
    ensures AnswersFresh(ServeClient(Advance(d), d.out[d.cursor], v))
  {
    hide AnswersFresh, Objects, Balanced, Orderly, Owned, ServeClient, VisitShape, Distinct;
    var r := d.out[d.cursor];
    ClientShape(d, v);
    var d' := ServeClient(Advance(d), r, v);
    AdvanceStructure(d);
    VisitStructure(Advance(d), r, v, d');
    VisitAnswers(d, r, v, d');
  }

  lemma StepAnswers(d: Dispatcher, chan: seq<Unit>, i: Input)
    requires Sound(d) && AnswersKept(d) && StepOk(d, chan, i)
    ensures AnswersKept(Step(d, chan, i).d)
  {
    hide AnswersFresh, Owned, Balanced, Orderly, Serve, BeginRound, ServeUnix, ServeClient, Exit;
    match i
    case Round(poll) => RoundKeepsAnswers(d, poll);
    case Handle(u, v) =>
      ServeDispatches(d, chan, u, v);
      if d.out[d.cursor] == UNIX_REF {
        ServeUnixAnswers(d, chan, u);
      } else {
        ServeClientAnswers(d, v);
      }
    case Finish => BetweenAnswers(d.(phase := Between));
    case Leave => ExitPhase(d);
  }

  lemma BetweenAnswers(d: Dispatcher)
    requires d.phase == Between
    ensures AnswersFresh(d)
  {
  }
}
