/** SocketsPoller.cpp: one poll round over a socket list. */
module Polling {
  import opened Sockets
  import opened SocketLists

  const MAX_SOCKETS_TO_POLL: nat := 1024

  datatype ErrorType = ERROR | INTERRUPTED | TIMEOUT | NONE

  datatype PollFd = PollFd(fd: int, events: Events, revents: Events)

  /** The elements whose slot holds a non-zero answer, in list order. */
  function Selected<T>(xs: seq<T>, answers: seq<Events>): (r: seq<T>)
    requires |answers| == |xs|
    ensures |r| <= |xs|
    ensures forall x :: x in r ==> x in xs
  {
    if xs == [] then []
    else
      var n := |xs| - 1;
      Selected(xs[..n], answers[..n]) + if answers[n] != NO_EVENTS then [xs[n]] else []
  }

  /** The last non-zero answer given to a slot that holds `x`, or zero. */
  function LastAnswer<T(==)>(xs: seq<T>, answers: seq<Events>, x: T): (r: Events)
    requires |answers| == |xs|
    ensures x !in xs ==> r == NO_EVENTS
    ensures r != NO_EVENTS <==> exists i :: 0 <= i < |xs| && xs[i] == x && answers[i] != NO_EVENTS
  {
    if xs == [] then NO_EVENTS
    else
      var n := |xs| - 1;
      if xs[n] == x && answers[n] != NO_EVENTS then answers[n] else LastAnswer(xs[..n], answers[..n], x)
  }

  /** Put a sequence of elements one after the other into a bounded list. */
  function PutAll<T>(xs: seq<T>, capacity: nat, ys: seq<T>): (r: seq<T>)
    decreases |ys|
  {
    if ys == [] then xs
    else Put(PutAll(xs, capacity, ys[..|ys| - 1]), capacity, ys[|ys| - 1])
  }

  /** The positions with a non-zero answer, ascending. */
  function Positions(answers: seq<Events>): (ps: seq<nat>)
    ensures forall k :: 0 <= k < |ps| ==> ps[k] < |answers| && answers[ps[k]] != NO_EVENTS
    ensures forall j, k :: 0 <= j < k < |ps| ==> ps[j] < ps[k]
  {
    if answers == [] then []
    else
      var n := |answers| - 1;
      Positions(answers[..n]) + if answers[n] != NO_EVENTS then [n] else []
  }

  /** No position with a non-zero answer is missed. */
  lemma {:induction false} PositionsComplete(answers: seq<Events>, i: nat)
    requires i < |answers| && answers[i] != NO_EVENTS
    ensures i in Positions(answers)
    decreases |answers|
  {
    var n := |answers| - 1;
    if i < n {
      assert answers[..n][i] == answers[i];
      PositionsComplete(answers[..n], i);
    } else {
      assert Positions(answers)[|Positions(answers[..n])|] == n;
    }
  }

  lemma {:induction false} SelectedLength<T>(xs: seq<T>, answers: seq<Events>)
    requires |answers| == |xs|
    ensures |Selected(xs, answers)| == |Positions(answers)|
    decreases |xs|
  {
    if xs == [] {
    } else {
      SelectedLength(xs[..|xs| - 1], answers[..|xs| - 1]);
    }
  }

  lemma {:induction false} SelectedAt<T>(xs: seq<T>, answers: seq<Events>, k: nat)
    requires |answers| == |xs| && k < |Positions(answers)| == |Selected(xs, answers)|
    ensures Selected(xs, answers)[k] == xs[Positions(answers)[k]]
    decreases |xs|
  {
    var n := |xs| - 1;
    SelectedLength(xs[..n], answers[..n]);
    if k < |Positions(answers[..n])| {
      SelectedAt(xs[..n], answers[..n], k);
    }
  }

  /** The output is the order-preserving filter of the input: its k-th element is the input's
      element at the k-th position with a non-zero answer, and no such position is missed. */
  lemma SelectedIsTheFilter<T>(xs: seq<T>, answers: seq<Events>)
    requires |answers| == |xs|
    ensures |Selected(xs, answers)| == |Positions(answers)|
    ensures forall k :: 0 <= k < |Positions(answers)| ==> Selected(xs, answers)[k] == xs[Positions(answers)[k]]
    ensures forall i :: 0 <= i < |xs| && answers[i] != NO_EVENTS ==> i in Positions(answers)
  {
    SelectedLength(xs, answers);
    forall i | 0 <= i < |xs| && answers[i] != NO_EVENTS ensures i in Positions(answers) {
      PositionsComplete(answers, i);
    }
    forall k | 0 <= k < |Positions(answers)|
      ensures Selected(xs, answers)[k] == xs[Positions(answers)[k]]
    {
      SelectedAt(xs, answers, k);
    }
  }

  /** A list without repetitions yields an output without repetitions, each socket reading the
      bits of its own slot. */
  lemma DistinctInput<T>(xs: seq<T>, answers: seq<Events>)
    requires |answers| == |xs| && Distinct(xs)
    ensures Distinct(Selected(xs, answers))
    ensures forall i :: 0 <= i < |xs| ==> LastAnswer(xs, answers, xs[i]) == answers[i]
  {
    SelectedIsTheFilter(xs, answers);
    forall i | 0 <= i < |xs|
      ensures LastAnswer(xs, answers, xs[i]) == answers[i]
    {
      OwnSlot(xs, answers, i);
    }
  }

  lemma {:induction false} OwnSlot<T>(xs: seq<T>, answers: seq<Events>, i: nat)
    requires |answers| == |xs| && Distinct(xs) && i < |xs|
    ensures LastAnswer(xs, answers, xs[i]) == answers[i]
    decreases |xs|
  {
    var n := |xs| - 1;
    if i < n {
      assert xs[..n][i] == xs[i] && answers[..n][i] == answers[i];
      OwnSlot(xs[..n], answers[..n], i);
    } else if answers[n] == NO_EVENTS {
      assert xs[n] !in xs[..n];
    }
  }

  /** A cleared output at least as large as the input refuses no put. */
  lemma {:induction false} NoPutRefused<T>(capacity: nat, ys: seq<T>)
    requires |ys| <= capacity
    ensures PutAll([], capacity, ys) == ys
    decreases |ys|
  {
    if ys == [] {
    } else {
      NoPutRefused(capacity, ys[..|ys| - 1]);
    }
  }

  /** What the return value of poll and errno come to. */
  function Outcome(ret: int, interrupted: bool): (e: ErrorType)
    ensures e.INTERRUPTED? <==> ret == -1 && interrupted
    ensures e.ERROR? <==> ret == -1 && !interrupted
    ensures e.TIMEOUT? <==> ret == 0
  {
    if ret == -1 then (if interrupted then INTERRUPTED else ERROR)
    else if ret == 0 then TIMEOUT
    else ErrorType.NONE
  }

  /** `ret`, `interrupted` and `answers` are the kernel's: the return value of poll, whether errno
      is EINTR, and the revents it wrote. The call hands the kernel one entry per list
      element, and whatever the kernel says it leaves every requested-events field empty. */
  method PollSockets(input: SocketsList, output: SocketsList, ret: int, interrupted: bool, answers: seq<Events>)
    returns (e: ErrorType, requested: seq<PollFd>)
    requires |input.sockets| <= MAX_SOCKETS_TO_POLL
    requires |answers| == |input.sockets|
    requires input != output
    modifies output, input.sockets
    ensures e == Outcome(ret, interrupted)
    ensures e.INTERRUPTED? <==> ret == -1 && interrupted
    ensures e.ERROR? <==> ret == -1 && !interrupted
    ensures e.TIMEOUT? <==> ret == 0
    ensures |requested| == |input.sockets|
    ensures forall i :: 0 <= i < |requested| ==> requested[i].fd == input.sockets[i].descriptor
    ensures forall i :: 0 <= i < |requested| ==>
      requested[i].events == if SeenBefore(input.sockets, i) then NO_EVENTS else old(input.sockets[i].events)
    ensures forall s :: s in input.sockets ==> s.events == NO_EVENTS
    ensures forall s :: s in input.sockets ==>
      s.revents == if e.NONE? then LastAnswer(input.sockets, answers, s) else NO_EVENTS
    ensures forall s :: s in input.sockets ==>
      s.clientStatus == old(s.clientStatus) && s.protectDescriptor == old(s.protectDescriptor)
    ensures output.sockets == if e.NONE?
      then PutAll(old(output.sockets), output.maxSize, Selected(input.sockets, answers))
      else old(output.sockets)
  {
    var pollInfo := new PollFd[MAX_SOCKETS_TO_POLL];
    Request(input, pollInfo);
    requested := pollInfo[..|input.sockets|];
    e := Outcome(ret, interrupted);
    if e.NONE? {
      Gather(input, output, pollInfo, answers);
    }
  }

  /** The object already stands at an earlier place of the list. */
  ghost predicate SeenBefore(sockets: seq<Socket>, i: nat)
    requires i < |sockets|
  {
    exists j :: 0 <= j < i && sockets[j] == sockets[i]
  }

  /** The first pass fills the array and empties the events and revents of every listed socket. */
  method Request(input: SocketsList, pollInfo: array<PollFd>)
    requires |input.sockets| <= pollInfo.Length
    modifies input.sockets`events, input.sockets`revents, pollInfo
    ensures forall i :: 0 <= i < |input.sockets| ==> pollInfo[i].fd == input.sockets[i].descriptor
    ensures forall i :: 0 <= i < |input.sockets| ==>
      pollInfo[i].events == if SeenBefore(input.sockets, i) then NO_EVENTS else old(input.sockets[i].events)
    ensures forall s :: s in input.sockets ==> s.events == NO_EVENTS && s.revents == NO_EVENTS
  {
    var sockets := input.sockets;
    var index := 0;
    while index < |sockets|
      invariant 0 <= index <= |sockets|
      invariant input.sockets == sockets
      invariant forall k :: 0 <= k < index ==> pollInfo[k].fd == sockets[k].descriptor
      invariant forall k :: 0 <= k < index ==>
        pollInfo[k].events == if SeenBefore(sockets, k) then NO_EVENTS else old(sockets[k].events)
      invariant forall k :: 0 <= k < index ==> sockets[k].events == NO_EVENTS && sockets[k].revents == NO_EVENTS
      invariant forall k :: index <= k < |sockets| ==>
        (exists j :: 0 <= j < index && sockets[j] == sockets[k]) || sockets[k].events == old(sockets[k].events)
    {
      var socket := sockets[index];
      pollInfo[index] := PollFd(socket.descriptor, socket.events, NO_EVENTS);
      socket.events := NO_EVENTS;
      socket.revents := NO_EVENTS;
      index := index + 1;
    }
  }

  lemma SelectedStep<T>(xs: seq<T>, answers: seq<Events>, n: nat)
    requires |answers| == |xs| && n < |xs|
    ensures Selected(xs[..n + 1], answers[..n + 1]) ==
      if answers[n] != NO_EVENTS then Selected(xs[..n], answers[..n]) + [xs[n]] else Selected(xs[..n], answers[..n])
  {
    assert xs[..n + 1][..n] == xs[..n] && answers[..n + 1][..n] == answers[..n];
  }

  lemma LastAnswerStep<T>(xs: seq<T>, answers: seq<Events>, n: nat, x: T)
    requires |answers| == |xs| && n < |xs|
    ensures LastAnswer(xs[..n + 1], answers[..n + 1], x) ==
      if xs[n] == x && answers[n] != NO_EVENTS then answers[n] else LastAnswer(xs[..n], answers[..n], x)
  {
    assert xs[..n + 1][..n] == xs[..n] && answers[..n + 1][..n] == answers[..n];
  }

  lemma PutAllStep<T>(xs: seq<T>, capacity: nat, ys: seq<T>, y: T)
    ensures PutAll(xs, capacity, ys + [y]) == Put(PutAll(xs, capacity, ys), capacity, y)
  {
    assert (ys + [y])[..|ys|] == ys;
  }

  lemma NothingGathered<T>(xs: seq<T>, capacity: nat, ys: seq<T>)
    ensures PutAll(xs, capacity, Selected(ys[..0], [])) == xs
    ensures forall y :: y in ys ==> LastAnswer(ys[..0], [], y) == NO_EVENTS
  {
  }

  /** The second pass: the kernel's answers stand in the array, aligned with the list. */
  method Gather(input: SocketsList, output: SocketsList, pollInfo: array<PollFd>, answers: seq<Events>)
    requires |answers| == |input.sockets| <= pollInfo.Length
    requires input != output
    requires forall s :: s in input.sockets ==> s.revents == NO_EVENTS
    modifies output, input.sockets`revents, pollInfo
    ensures forall s :: s in input.sockets ==> s.revents == LastAnswer(input.sockets, answers, s)
    ensures output.sockets == PutAll(old(output.sockets), output.maxSize, Selected(input.sockets, answers))
  {
    hide Selected, LastAnswer, PutAll;
    var sockets := input.sockets;
    NothingGathered(old(output.sockets), output.maxSize, sockets);
    forall k | 0 <= k < |sockets| {
      pollInfo[k] := pollInfo[k].(revents := answers[k]);
    }
    var index := 0;
    while index < |sockets|
      invariant 0 <= index <= |sockets| == |answers|
      invariant input.sockets == sockets
      invariant forall k :: 0 <= k < |sockets| ==> pollInfo[k].revents == answers[k]
      invariant forall s :: s in sockets ==> s.revents == LastAnswer(sockets[..index], answers[..index], s)
      invariant output.sockets ==
          PutAll(old(output.sockets), output.maxSize, Selected(sockets[..index], answers[..index]))
    {
      SelectedStep(sockets, answers, index);
      forall s | s in sockets {
        LastAnswerStep(sockets, answers, index, s);
      }
      if pollInfo[index].revents == NO_EVENTS {
        index := index + 1;
        continue;
      }
      var socket := sockets[index];
      PutAllStep(old(output.sockets), output.maxSize, Selected(sockets[..index], answers[..index]), socket);
      socket.revents := pollInfo[index].revents;
      index := index + 1;
      var _ := output.PutSocket(socket);
    }
    assert sockets[..index] == sockets && answers[..index] == answers;
  }

  /** The poll as both programs call it, into a cleared output of at least the input's size: no
      object is asked for twice, no put is refused, and every object reads its own slot. */
  method PollOnce(input: SocketsList, output: SocketsList, ret: int, interrupted: bool, answers: seq<Events>)
    returns (e: ErrorType, requested: seq<PollFd>)
    requires |input.sockets| <= output.maxSize <= MAX_SOCKETS_TO_POLL && Distinct(input.sockets)
    requires |answers| == |input.sockets| && input != output && output.sockets == []
    modifies output, input.sockets
    ensures e == Outcome(ret, interrupted)
    ensures e.INTERRUPTED? <==> ret == -1 && interrupted
    ensures e.ERROR? <==> ret == -1 && !interrupted
    ensures e.TIMEOUT? <==> ret == 0
    ensures |requested| == |input.sockets|
    ensures forall i :: 0 <= i < |requested| ==>
      requested[i].fd == input.sockets[i].descriptor && requested[i].events == old(input.sockets[i].events)
    ensures forall i :: 0 <= i < |input.sockets| ==>
      && input.sockets[i].events == NO_EVENTS
      && input.sockets[i].revents == (if e.NONE? then answers[i] else NO_EVENTS)
      && input.sockets[i].clientStatus == old(input.sockets[i].clientStatus)
    ensures output.sockets == if e.NONE? then Selected(input.sockets, answers) else []
  {
    e, requested := PollSockets(input, output, ret, interrupted, answers);
    DistinctInput(input.sockets, answers);
    assert forall i :: 0 <= i < |input.sockets| ==> !SeenBefore(input.sockets, i);
    NoPutRefused(output.maxSize, Selected(input.sockets, answers));
  }
}
