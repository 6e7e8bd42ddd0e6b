/** One poll round over socket objects and the lists that refer to them, shared by the two main loops. */
module Rounds {
  import opened Sockets
  import opened SocketLists
  import opened Polling
  import opened Ownership

  function Elements(xs: seq<Ref>): set<Ref> {
    set x | x in xs
  }

  function Fds(objs: map<Ref, Sock>, list: seq<Ref>): (fds: seq<int>)
    requires forall r :: r in list ==> r in objs
    ensures |fds| == |list| && forall i :: 0 <= i < |list| ==> fds[i] == objs[list[i]].fd
  {
    seq(|list|, i requires 0 <= i < |list| => objs[list[i]].fd)
  }

  /** The result bits pollSockets gives to each listed socket. */
  function Bits(list: seq<Ref>, answers: seq<Events>, e: ErrorType): (bits: map<Ref, Events>)
    requires |answers| == |list|
    ensures forall r :: r in bits <==> r in list
  {
    map r | r in list :: if e.NONE? then LastAnswer(list, answers, r) else NO_EVENTS
  }

  /** What pollSockets leaves in the socket objects, whatever the kernel answers. */
  function Polled(objs: map<Ref, Sock>, bits: map<Ref, Events>): (r: map<Ref, Sock>)
    ensures r.Keys == objs.Keys
  {
    map r | r in objs ::
      if r in bits then objs[r].(events := NO_EVENTS, revents := bits[r]) else objs[r]
  }

  datatype Poll = Poll(ret: int, interrupted: bool, answers: seq<Events>)

  /** The kernel's answers obey the poll contract, given the interest asked with. */
  ghost predicate PollOk(list: seq<Ref>, asking: map<Ref, Sock>, answers: seq<Events>) {
    && |answers| == |list|
    && forall i :: 0 <= i < |list| ==> list[i] in asking && PollContract(asking[list[i]].events, answers[i])
  }

  lemma DistinctFds(objs: map<Ref, Sock>, list: seq<Ref>)
    requires Distinct(list) && forall r :: r in list ==> r in objs
    requires forall r, q :: r in objs && q in objs && r != q ==> objs[r].fd != objs[q].fd
    ensures Distinct(Fds(objs, list))
  {
    var fds := Fds(objs, list);
    forall i, j | 0 <= i < j < |fds|
      ensures fds[i] != fds[j]
    {
      assert list[i] != list[j] && list[i] in list && list[j] in list;
    }
  }

  function Without(list: seq<Ref>, k: nat): (r: seq<Ref>)
    requires k < |list|
  {
    list[..k] + list[k + 1..]
  }

  lemma WithoutEffect(list: seq<Ref>, k: nat)
    requires k < |list| && Distinct(list)
    ensures Distinct(Without(list, k))
    ensures forall r :: r in Without(list, k) <==> r in list && r != list[k]
    ensures k > 0 ==> |Without(list, k)| > 0 && Without(list, k)[0] == list[0]
  {
    var w := Without(list, k);
    assert forall i :: 0 <= i < |w| ==> w[i] == if i < k then list[i] else list[i + 1];
    forall r | r in list && r != list[k]
      ensures r in w
    {
      var i :| 0 <= i < |list| && list[i] == r;
      assert r == if i < k then w[i] else w[i - 1];
    }
  }

  lemma BitsAreAnswers(list: seq<Ref>, answers: seq<Events>, e: ErrorType, i: nat)
    requires |answers| == |list| && Distinct(list) && i < |list|
    ensures Bits(list, answers, e)[list[i]] == if e.NONE? then answers[i] else NO_EVENTS
  {
    OwnSlot(list, answers, i);
  }
}
