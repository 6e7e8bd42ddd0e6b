/** Who closes which descriptor (Socket.cpp, SslSocket.cpp): the live socket objects of one
    process, its descriptor table, and the history of what was closed. A descriptor number may be
    reused once closed, so every descriptor handed out is an instance of its own. */
module Ownership {
  import opened Sockets

  type Ref = nat
  type Instance = int

  /** What a number that is not open names. */
  const NO_INSTANCE: Instance := -1

  /** A socket object; `inst` is the instance its descriptor named when the object was made. */
  datatype Sock = Sock(
    fd: int, inst: Instance, kind: SocketKind, listening: bool,
    protect: bool, events: Events, revents: Events, status: ClientStatus)

  /** `open` is the descriptor table, `born` counts the instances ever handed out, `closed` lists
      the instances closed, `stray` the close calls on a number that was not open, and `leaked`
      the instances for which the program made no object. */
  datatype Process = Process(
    objs: map<Ref, Sock>, next: Ref,
    open: map<int, Instance>, born: nat,
    closed: seq<Instance>, stray: seq<int>, leaked: set<Instance>)

  /** The kernel hands out a descriptor. */
  function Obtain(p: Process, fd: int): Process {
    p.(open := p.open[fd := p.born], born := p.born + 1)
  }

  function InstanceAt(p: Process, fd: int): Instance {
    if fd in p.open then p.open[fd] else NO_INSTANCE
  }

  /** A socket object is constructed over a number, open or not; its reference is the old `next`. */
  function Construct(p: Process, fd: int, kind: SocketKind, listening: bool): Process {
    p.(objs := p.objs[p.next := Sock(fd, InstanceAt(p, fd), kind, listening, false, NO_EVENTS, NO_EVENTS, NONE)],
       next := p.next + 1)
  }

  function Protect(p: Process, r: Ref): Process
    requires r in p.objs
  {
    p.(objs := p.objs[r := p.objs[r].(protect := true)])
  }

  /** close(): whatever instance the number names at that moment is closed. */
  function Close(p: Process, fd: int): Process {
    if fd in p.open then p.(open := p.open - {fd}, closed := p.closed + [p.open[fd]])
    else p.(stray := p.stray + [fd])
  }

  /** The destructor closes the descriptor unless it is protected. */
  function Destroy(p: Process, r: Ref): Process
    requires r in p.objs
  {
    var q := p.(objs := p.objs - {r});
    if p.objs[r].protect then q else Close(q, p.objs[r].fd)
  }

  /** SslSocket(Socket::Ptr): a second object over the same descriptor, the first one protected and then destroyed. */
  function HandOver(p: Process, r: Ref): Process
    requires r in p.objs && r < p.next
  {
    Destroy(Protect(Construct(p, p.objs[r].fd, SSL, false), r), r)
  }

  /** A descriptor for which no object is made. */
  function Lose(p: Process, fd: int): Process
    requires fd in p.open
  {
    p.(leaked := p.leaked + {p.open[fd]})
  }

  /** Dropping the references in a list: an object dies with its last reference; `held` are those
      referenced elsewhere. */
  function Release(p: Process, xs: seq<Ref>, held: set<Ref>): Process
    requires forall x :: x in xs ==> x in p.objs
    decreases |xs|
  {
    if xs == [] then p
    else if xs[0] in held || xs[0] in xs[1..] then Release(p, xs[1..], held)
    else Release(Destroy(p, xs[0]), xs[1..], held)
  }

  lemma ReleaseOne(p: Process, x: Ref, held: set<Ref>)
    requires x in p.objs
    ensures Release(p, [x], held) == if x in held then p else Destroy(p, x)
  {
    assert [x][1..] == [];
    if x in held {
      assert Release(p, [x], held) == Release(p, [], held);
    } else {
      assert Release(p, [x], held) == Release(Destroy(p, x), [], held);
    }
  }

  ghost predicate Owner(p: Process, r: Ref, fd: int) {
    r in p.objs && !p.objs[r].protect && p.objs[r].fd == fd
  }

  /** Every live object is unprotected and its descriptor still names the instance it was made for. */
  ghost predicate ObjectsLive(p: Process) {
    forall r :: r in p.objs ==>
      && r < p.next && !p.objs[r].protect
      && p.objs[r].fd in p.open && p.open[p.objs[r].fd] == p.objs[r].inst
      && p.objs[r].inst !in p.leaked
  }

  ghost predicate DescriptorsApart(p: Process) {
    forall r, q :: r in p.objs && q in p.objs && r != q ==> p.objs[r].fd != p.objs[q].fd
  }

  /** Every open descriptor that was not leaked has an unprotected owner. */
  ghost predicate OpenIsOwned(p: Process) {
    forall fd :: fd in p.open ==> p.open[fd] in p.leaked || exists r :: Owner(p, r, fd)
  }

  ghost predicate OnceOpen(p: Process, i: Instance) {
    exists fd :: fd in p.open && p.open[fd] == i
  }

  /** Every instance ever handed out is open or closed, none is both, none is open under two
      numbers, none was closed twice, none leaked was closed, and no close missed. */
  ghost predicate Accounted(p: Process) {
    && (forall fd :: fd in p.open ==> 0 <= p.open[fd] < p.born && p.open[fd] !in p.closed)
    && (forall f, g :: f in p.open && g in p.open && f != g ==> p.open[f] != p.open[g])
    && (forall i :: 0 <= i < p.born ==> i in p.closed || OnceOpen(p, i))
    && (forall i :: 0 <= i < |p.closed| ==> 0 <= p.closed[i] < p.born)
    && (forall i, j :: 0 <= i < j < |p.closed| ==> p.closed[i] != p.closed[j])
    && (forall i :: i in p.leaked ==> 0 <= i < p.born && i !in p.closed)
    && p.stray == []
  }

  ghost predicate Owned(p: Process) {
    ObjectsLive(p) && DescriptorsApart(p) && OpenIsOwned(p) && Accounted(p)
  }

  /** The statement the invariant is for: between handler calls an open descriptor that was not
      leaked has exactly one live unprotected owner. */
  lemma ExactlyOneOwner(p: Process, fd: int)
    requires Owned(p) && fd in p.open && p.open[fd] !in p.leaked
    ensures exists r :: Owner(p, r, fd) && forall q :: Owner(p, q, fd) ==> q == r
  {
    var r :| Owner(p, r, fd);
    assert forall q :: Owner(p, q, fd) ==> q == r;
  }

  // ----- each operation keeps the invariant

  lemma ObtainAccounted(p: Process, fd: int)
    requires Accounted(p) && fd !in p.open
    ensures Accounted(Obtain(p, fd))
  {
    var q := Obtain(p, fd);
    forall i | 0 <= i < q.born ensures i in q.closed || OnceOpen(q, i) {
      if i == p.born {
        assert q.open[fd] == i;
      } else if i !in p.closed {
        var f :| f in p.open && p.open[f] == i;
        assert q.open[f] == i;
      }
    }
    assert p.born !in p.closed;
  }

  lemma ConstructObjects(p: Process, fd: int, kind: SocketKind, listening: bool)
    requires ObjectsLive(p) && DescriptorsApart(p) && fd !in p.open && p.born !in p.leaked
    ensures var q := Construct(Obtain(p, fd), fd, kind, listening); ObjectsLive(q) && DescriptorsApart(q)
  {
  }

  lemma ConstructOpen(p: Process, fd: int, kind: SocketKind, listening: bool)
    requires OpenIsOwned(p) && (forall r :: r in p.objs ==> r < p.next)
    ensures OpenIsOwned(Construct(Obtain(p, fd), fd, kind, listening))
  {
    var q := Construct(Obtain(p, fd), fd, kind, listening);
    assert Owner(q, p.next, fd);
    forall f | f in q.open && f != fd && p.open[f] !in p.leaked ensures exists r :: Owner(q, r, f) {
      var r :| Owner(p, r, f);
      assert Owner(q, r, f);
    }
  }

  /** A fresh descriptor wrapped in an object keeps the invariant. */
  lemma ObtainConstructOwned(p: Process, fd: int, kind: SocketKind, listening: bool)
    requires Owned(p) && fd !in p.open && p.born !in p.leaked
    ensures Owned(Construct(Obtain(p, fd), fd, kind, listening))
  {
    ConstructObjects(p, fd, kind, listening);
    ConstructOpen(p, fd, kind, listening);
    ObtainAccounted(p, fd);
    AccountedFrame(Obtain(p, fd), Construct(Obtain(p, fd), fd, kind, listening));
  }

  /** The accounting depends on the descriptor table and the histories alone. */
  lemma AccountedFrame(p: Process, q: Process)
    requires Accounted(p)
    requires q.open == p.open && q.born == p.born && q.closed == p.closed && q.stray == p.stray
    requires forall i :: i in q.leaked ==> 0 <= i < q.born && i !in q.closed
    ensures Accounted(q)
  {
    forall i | 0 <= i < q.born ensures i in q.closed || OnceOpen(q, i) {
      if i !in p.closed {
        assert OnceOpen(p, i);
      }
    }
  }

  lemma LoseOpen(p: Process, fd: int)
    requires OpenIsOwned(p) && fd !in p.open
    ensures OpenIsOwned(Lose(Obtain(p, fd), fd))
  {
    var q := Lose(Obtain(p, fd), fd);
    forall f | f in q.open ensures q.open[f] in q.leaked || exists r :: Owner(q, r, f) {
      if f != fd && p.open[f] !in p.leaked {
        var r :| Owner(p, r, f);
        assert Owner(q, r, f);
      }
    }
  }

  lemma LoseObjects(p: Process, fd: int)
    requires ObjectsLive(p) && DescriptorsApart(p) && fd !in p.open && p.born !in Named(p.objs)
    ensures ObjectsLive(Lose(Obtain(p, fd), fd)) && DescriptorsApart(Lose(Obtain(p, fd), fd))
  {
  }

  /** A fresh descriptor for which no object is made keeps the invariant, counted as leaked. */
  lemma LoseOwned(p: Process, fd: int)
    requires Owned(p) && fd !in p.open
    ensures Owned(Lose(Obtain(p, fd), fd))
  {
    hide OpenIsOwned, OnceOpen;
    NamedAreOpen(p);
    LoseObjects(p, fd);
    LoseOpen(p, fd);
    ObtainAccounted(p, fd);
    AccountedFrame(Obtain(p, fd), Lose(Obtain(p, fd), fd));
  }

  lemma CloseAccounted(p: Process, fd: int)
    requires Accounted(p) && fd in p.open && p.open[fd] !in p.leaked
    ensures Accounted(Close(p, fd))
  {
    var q := Close(p, fd);
    forall i | 0 <= i < q.born ensures i in q.closed || OnceOpen(q, i) {
      if i !in q.closed {
        assert i !in p.closed;
        var f :| f in p.open && p.open[f] == i;
        assert f != fd by {
          assert q.closed[|p.closed|] == p.open[fd];
        }
        assert f in q.open && q.open[f] == i;
      }
    }
  }

  lemma DestroyObjects(p: Process, r: Ref)
    requires ObjectsLive(p) && DescriptorsApart(p) && r in p.objs
    ensures
      var q := Destroy(p, r);
      && ObjectsLive(q) && DescriptorsApart(q)
      && q.objs == p.objs - {r} && q.closed == p.closed + [p.objs[r].inst]
  {
  }

  lemma DestroyOpen(p: Process, r: Ref)
    requires ObjectsLive(p) && OpenIsOwned(p) && r in p.objs
    ensures OpenIsOwned(Destroy(p, r))
  {
    var q := Destroy(p, r);
    forall f | f in q.open && q.open[f] !in q.leaked ensures exists s :: Owner(q, s, f) {
      var s :| Owner(p, s, f);
      assert Owner(q, s, f);
    }
  }

  /** Destroying a live object closes its own instance and nothing else. */
  lemma DestroyOwned(p: Process, r: Ref)
    requires Owned(p) && r in p.objs
    ensures
      var q := Destroy(p, r);
      Owned(q) && q.objs == p.objs - {r} && q.closed == p.closed + [p.objs[r].inst]
  {
    var m := p.(objs := p.objs - {r});
    DestroyObjects(p, r);
    DestroyOpen(p, r);
    AccountedFrame(p, m);
    CloseAccounted(m, p.objs[r].fd);
  }

  /** The objects with an SSL object over the same instance in the place of one of them. */
  function Replaced(p: Process, r: Ref): map<Ref, Sock>
    requires r in p.objs
  {
    (p.objs - {r})[p.next := Sock(p.objs[r].fd, p.objs[r].inst, SSL, false, false, NO_EVENTS, NO_EVENTS, NONE)]
  }

  lemma HandOverValue(p: Process, r: Ref)
    requires r in p.objs && p.objs[r].inst == InstanceAt(p, p.objs[r].fd) && r < p.next
    ensures HandOver(p, r) == p.(objs := Replaced(p, r), next := p.next + 1)
  {
    var c := Construct(p, p.objs[r].fd, SSL, false);
    assert c.objs[r] == p.objs[r];
    assert HandOver(p, r).objs == Replaced(p, r);
  }

  lemma HandOverOpen(p: Process, r: Ref, q: Process)
    requires OpenIsOwned(p) && r in p.objs && (forall s :: s in p.objs ==> s < p.next)
    requires q.open == p.open && q.leaked == p.leaked
    requires q.objs == Replaced(p, r)
    ensures OpenIsOwned(q)
  {
    assert Owner(q, p.next, p.objs[r].fd);
    forall f | f in q.open && q.open[f] !in q.leaked ensures exists s :: Owner(q, s, f) {
      var s :| Owner(p, s, f);
      assert s == r || Owner(q, s, f);
    }
  }

  lemma HandOverObjects(p: Process, r: Ref, q: Process)
    requires ObjectsLive(p) && DescriptorsApart(p) && r in p.objs
    requires q.open == p.open && q.leaked == p.leaked && q.next == p.next + 1
    requires q.objs == Replaced(p, r)
    ensures ObjectsLive(q) && DescriptorsApart(q)
  {
  }

  /** The hand-over closes nothing: the SSL object takes the received object's place, under a new
      reference, over the same instance. */
  lemma HandOverOwned(p: Process, r: Ref)
    requires Owned(p) && r in p.objs
    ensures
      var q := HandOver(p, r);
      && Owned(q)
      && q == p.(objs := Replaced(p, r), next := p.next + 1)
  {
    HandOverValue(p, r);
    HandOverObjects(p, r, HandOver(p, r));
    HandOverOpen(p, r, HandOver(p, r));
    AccountedFrame(p, HandOver(p, r));
  }

  /** Changing the poll bits or the client status of objects keeps the invariant. */
  lemma FieldsOwned(p: Process, q: Process)
    requires Owned(p) && q.(objs := p.objs) == p && q.objs.Keys == p.objs.Keys
    requires forall r :: r in p.objs ==>
      q.objs[r].fd == p.objs[r].fd && q.objs[r].inst == p.objs[r].inst && q.objs[r].protect == p.objs[r].protect
    ensures Owned(q)
  {
    AccountedFrame(p, q);
    forall f | f in q.open ensures q.open[f] in q.leaked || exists s :: Owner(q, s, f) {
      if p.open[f] !in p.leaked {
        var s :| Owner(p, s, f);
        assert Owner(q, s, f);
      }
    }
  }

  ghost predicate Dies(xs: seq<Ref>, held: set<Ref>, r: Ref) {
    r in xs && r !in held
  }

  /** What releasing a list comes to: exactly the objects no longer referenced are gone, exactly
      their instances are newly closed, and all else is as before. */
  ghost predicate Released(p: Process, q: Process, xs: seq<Ref>, held: set<Ref>) {
    && (forall r :: r in q.objs <==> r in p.objs && !Dies(xs, held, r))
    && (forall r :: r in q.objs ==> q.objs[r] == p.objs[r])
    && q.next == p.next && q.born == p.born && q.leaked == p.leaked
    && p.closed <= q.closed
    && (forall r :: r in p.objs && Dies(xs, held, r) ==> p.objs[r].inst in q.closed)
    && (forall i :: i in q.closed && i !in p.closed ==>
         exists r :: Dies(xs, held, r) && r in p.objs && p.objs[r].inst == i)
  }

  lemma ReleasedFirst(p: Process, m: Process, q: Process, xs: seq<Ref>, held: set<Ref>)
    requires xs != [] && xs[0] !in held && xs[0] !in xs[1..] && xs[0] in p.objs
    requires m.objs == p.objs - {xs[0]} && m.closed == p.closed + [p.objs[xs[0]].inst]
    requires m.next == p.next && m.born == p.born && m.leaked == p.leaked
    requires Released(m, q, xs[1..], held)
    ensures Released(p, q, xs, held)
  {
    var x, rest := xs[0], xs[1..];
    assert forall r :: Dies(xs, held, r) <==> r == x || Dies(rest, held, r);
    assert p.objs[x].inst in q.closed by {
      assert q.closed[|p.closed|] == m.closed[|p.closed|];
    }
    forall i | i in q.closed && i !in p.closed
      ensures exists r :: Dies(xs, held, r) && r in p.objs && p.objs[r].inst == i
    {
      if i == p.objs[x].inst {
        assert Dies(xs, held, x);
      } else {
        var r :| Dies(rest, held, r) && r in m.objs && m.objs[r].inst == i;
        assert Dies(xs, held, r) && p.objs[r].inst == i;
      }
    }
  }

  /** Releasing a list closes exactly the instances of the objects no longer referenced, each once,
      and keeps the invariant. */
  lemma {:induction false} ReleaseOwned(p: Process, xs: seq<Ref>, held: set<Ref>)
    requires Owned(p) && forall x :: x in xs ==> x in p.objs
    ensures Owned(Release(p, xs, held)) && Released(p, Release(p, xs, held), xs, held)
    decreases |xs|
  {
    if xs == [] {
    } else {
      var x, rest := xs[0], xs[1..];
      if x in held || x in rest {
        ReleaseOwned(p, rest, held);
        assert forall r :: Dies(xs, held, r) <==> Dies(rest, held, r);
      } else {
        DestroyOwned(p, x);
        ReleaseOwned(Destroy(p, x), rest, held);
        ReleasedFirst(p, Destroy(p, x), Release(p, xs, held), xs, held);
      }
    }
  }

  // ----- the balance of objects and close calls

  ghost predicate Unprotected(p: Process) {
    forall r :: r in p.objs ==> !p.objs[r].protect
  }

  /** Live objects, close calls and leaks together are the instances handed out and, beyond them,
      the `extra` objects made over a number that was not handed out for them. */
  ghost predicate Balanced(p: Process, extra: nat) {
    |p.objs| + |p.closed| + |p.stray| + |p.leaked| == p.born + extra
  }

  lemma FewerObjects(objs: map<Ref, Sock>, r: Ref)
    requires r in objs
    ensures |objs - {r}| == |objs| - 1
  {
    assert (objs - {r}).Keys == objs.Keys - {r};
    assert |objs.Keys| == |objs| && |(objs - {r}).Keys| == |objs - {r}|;
  }

  /** Destroying an unprotected object makes one close call. */
  lemma DestroyBalanced(p: Process, r: Ref, extra: nat)
    requires Balanced(p, extra) && r in p.objs && !p.objs[r].protect
    ensures Balanced(Destroy(p, r), extra)
  {
    FewerObjects(p.objs, r);
  }

  /** Releasing a list ends exactly the objects no longer referenced and keeps the balance, whoever owns what. */
  lemma {:induction false} ReleaseBalanced(p: Process, xs: seq<Ref>, held: set<Ref>, extra: nat)
    requires Balanced(p, extra) && Unprotected(p) && forall x :: x in xs ==> x in p.objs
    ensures
      var q := Release(p, xs, held);
      && Balanced(q, extra)
      && (forall r :: r in q.objs <==> r in p.objs && !Dies(xs, held, r))
      && (forall r :: r in q.objs ==> q.objs[r] == p.objs[r])
      && q.next == p.next && q.born == p.born && q.leaked == p.leaked
      && (forall fd :: fd in q.open ==> fd in p.open)
    decreases |xs|
  {
    if xs == [] {
    } else {
      var x, rest := xs[0], xs[1..];
      if x in held || x in rest {
        ReleaseBalanced(p, rest, held, extra);
        assert forall r :: Dies(xs, held, r) <==> Dies(rest, held, r);
      } else {
        DestroyBalanced(p, x, extra);
        ReleaseBalanced(Destroy(p, x), rest, held, extra);
        assert forall r :: Dies(xs, held, r) <==> r == x || Dies(rest, held, r);
      }
    }
  }

  function Below(n: nat): (s: set<Instance>)
    ensures |s| == n
    ensures forall i :: i in s <==> 0 <= i < n
  {
    if n == 0 then {} else Below(n - 1) + {n - 1}
  }

  lemma Within(s: set<Instance>, n: nat)
    requires forall i :: i in s ==> 0 <= i < n
    ensures |s| <= n
  {
    assert Below(n) == s + (Below(n) - s);
  }

  lemma {:induction false} ElementsOfDistinct(xs: seq<Instance>)
    requires forall i, j :: 0 <= i < j < |xs| ==> xs[i] != xs[j]
    ensures |set x | x in xs| == |xs|
    decreases |xs|
  {
    if xs == [] {
      assert (set x | x in xs) == {};
    } else {
      ElementsOfDistinct(xs[1..]);
      assert (set x | x in xs) == (set x | x in xs[1..]) + {xs[0]};
      assert xs[0] !in xs[1..];
    }
  }

  /** The instances named by the objects of a process. */
  ghost function Named(objs: map<Ref, Sock>): set<Instance> {
    set r | r in objs :: objs[r].inst
  }

  lemma {:induction false} NamedApart(objs: map<Ref, Sock>)
    requires forall r, q :: r in objs && q in objs && r != q ==> objs[r].inst != objs[q].inst
    ensures |Named(objs)| == |objs|
    decreases |objs|
  {
    if objs.Keys == {} {
      assert Named(objs) == {};
    } else {
      var r :| r in objs.Keys;
      FewerObjects(objs, r);
      NamedApart(objs - {r});
      NamedWithout(objs, r);
    }
  }

  lemma NamedWithout(objs: map<Ref, Sock>, r: Ref)
    requires r in objs && forall q :: q in objs && q != r ==> objs[q].inst != objs[r].inst
    ensures Named(objs) == Named(objs - {r}) + {objs[r].inst} && objs[r].inst !in Named(objs - {r})
  {
    forall i | i in Named(objs) ensures i in Named(objs - {r}) + {objs[r].inst} {
      var q :| q in objs && objs[q].inst == i;
      assert q == r || q in objs - {r};
    }
  }

  lemma InstancesApart(p: Process)
    requires ObjectsLive(p) && DescriptorsApart(p) && Accounted(p)
    ensures forall r, q :: r in p.objs && q in p.objs && r != q ==> p.objs[r].inst != p.objs[q].inst
  {
    forall r, q | r in p.objs && q in p.objs && r != q ensures p.objs[r].inst != p.objs[q].inst {
      assert p.objs[r].fd != p.objs[q].fd;
    }
  }

  /** Where the accounting holds, the closed and the leaked instances are among those handed out. */
  lemma AccountedBound(p: Process)
    requires Accounted(p)
    ensures |p.closed| + |p.leaked| <= p.born
  {
    var closed := set i | i in p.closed;
    ElementsOfDistinct(p.closed);
    assert closed !! p.leaked;
    Within(closed + p.leaked, p.born);
  }

  lemma NamedAreOpen(p: Process)
    requires ObjectsLive(p) && Accounted(p)
    ensures forall i :: i in Named(p.objs) ==> 0 <= i < p.born && i !in p.closed && i !in p.leaked
  {
    hide OnceOpen;
  }

  lemma ThreeWithin(a: set<Instance>, b: set<Instance>, c: set<Instance>, n: nat)
    requires a !! b && a !! c && b !! c && forall i :: i in a || i in b || i in c ==> 0 <= i < n
    ensures |a| + |b| + |c| <= n
  {
    Within(a + b + c, n);
  }

  /** Where ownership holds there is no room for an extra object: live objects, closed and leaked
      instances are different ones of those handed out. */
  lemma OwnedBound(p: Process)
    requires Owned(p)
    ensures |p.objs| + |p.closed| + |p.leaked| <= p.born
  {
    hide ObjectsLive, DescriptorsApart, OpenIsOwned, OnceOpen;
    ElementsOfDistinct(p.closed);
    InstancesApart(p);
    NamedApart(p.objs);
    NamedAreOpen(p);
    var closed := set i | i in p.closed;
    assert forall i :: i in closed ==> 0 <= i < p.born && i !in p.leaked;
    ThreeWithin(Named(p.objs), closed, p.leaked, p.born);
  }
}
