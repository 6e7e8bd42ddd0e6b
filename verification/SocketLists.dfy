/** SocketsList.h: the bounded list of sockets, keyed by descriptor. */
module SocketLists {
  import opened Sockets

  /** Append, refused when the list is full. */
  function Put<T>(xs: seq<T>, capacity: nat, x: T): (r: seq<T>)
    ensures |xs| <= capacity ==> |r| <= capacity
  {
    if |xs| == capacity then xs else xs + [x]
  }

  /** The first position of `key`, or the length when it is absent. */
  function IndexOf(keys: seq<int>, key: int): (i: nat)
    ensures i <= |keys|
    ensures i < |keys| ==> keys[i] == key
    ensures key !in keys[..i]
  {
    if keys == [] then 0
    else if keys[0] == key then 0
    else
      var i := IndexOf(keys[1..], key);
      assert keys[..i + 1] == [keys[0]] + keys[1..][..i];
      i + 1
  }

  /** Deletion happens when the list is not full and the key occurs. */
  predicate Deletes(keys: seq<int>, capacity: nat, key: int) {
    |keys| != capacity && key in keys
  }

  /** Remove the first element whose key is `key`; refused, as the program has it, when the list is full. */
  function Delete<T>(xs: seq<T>, keys: seq<int>, capacity: nat, key: int): (r: seq<T>)
    requires |keys| == |xs|
    ensures !Deletes(keys, capacity, key) ==> r == xs
    ensures Deletes(keys, capacity, key) ==>
      exists k :: 0 <= k < |xs| && keys[k] == key && key !in keys[..k] && r == xs[..k] + xs[k + 1..]
  {
    var i := IndexOf(keys, key);
    if |xs| == capacity || i == |xs| then
      assert i == |xs| ==> keys[..i] == keys;
      xs
    else
      xs[..i] + xs[i + 1..]
  }

  ghost predicate Distinct<T>(xs: seq<T>) {
    forall i, j :: 0 <= i < j < |xs| ==> xs[i] != xs[j]
  }

  /** With pairwise distinct keys, deleting by key on a list that is not full removes exactly
      the element meant, at whatever position it stands, and keeps all others in order. */
  lemma DeleteRemovesTheOneMeant<T>(xs: seq<T>, keys: seq<int>, capacity: nat, k: nat)
    requires |keys| == |xs| != capacity && k < |xs| && Distinct(keys)
    ensures Deletes(keys, capacity, keys[k])
    ensures Delete(xs, keys, capacity, keys[k]) == xs[..k] + xs[k + 1..]
  {
    var i := IndexOf(keys, keys[k]);
    assert i <= k by {
      assert keys[k] in keys[k..];
      assert forall j :: 0 <= j < i ==> keys[..i][j] != keys[k];
    }
  }

  datatype ListOp = PutOp(fd: int) | DeleteOp(fd: int)

  /** A list of descriptors under any sequence of puts and deletes. */
  function Apply(fds: seq<int>, capacity: nat, op: ListOp): (r: seq<int>) {
    match op
    case PutOp(fd) => Put(fds, capacity, fd)
    case DeleteOp(fd) => Delete(fds, fds, capacity, fd)
  }

  function ApplyAll(fds: seq<int>, capacity: nat, ops: seq<ListOp>): (r: seq<int>)
    decreases |ops|
  {
    if ops == [] then fds else ApplyAll(Apply(fds, capacity, ops[0]), capacity, ops[1..])
  }

  lemma {:induction false} SizeNeverExceedsCapacity(fds: seq<int>, capacity: nat, ops: seq<ListOp>)
    requires |fds| <= capacity
    ensures |ApplyAll(fds, capacity, ops)| <= capacity
    decreases |ops|
  {
    if ops == [] {
    } else {
      SizeNeverExceedsCapacity(Apply(fds, capacity, ops[0]), capacity, ops[1..]);
    }
  }

  /** As written, a full list is absorbing: neither put nor delete ever changes it again. */
  lemma {:induction false} FullListIsAbsorbing(fds: seq<int>, capacity: nat, ops: seq<ListOp>)
    requires |fds| == capacity
    ensures ApplyAll(fds, capacity, ops) == fds
    decreases |ops|
  {
    if ops == [] {
    } else {
      FullListIsAbsorbing(Apply(fds, capacity, ops[0]), capacity, ops[1..]);
    }
  }

  ghost function Descriptors(sockets: seq<Socket>): (fds: seq<int>)
    ensures |fds| == |sockets|
    ensures forall i :: 0 <= i < |fds| ==> fds[i] == sockets[i].descriptor
  {
    seq(|sockets|, i requires 0 <= i < |sockets| => sockets[i].descriptor)
  }

  class SocketsList {
    var sockets: seq<Socket>
    const maxSize: nat

    ghost predicate Valid()
      reads this
    {
      |sockets| <= maxSize
    }

    constructor (maxSize: nat)
      ensures Valid() && this.maxSize == maxSize && sockets == []
    {
      this.maxSize := maxSize;
      sockets := [];
    }

    method PutSocket(socket: Socket) returns (ok: bool)
      modifies this
      ensures old(Valid()) ==> Valid()
      ensures sockets == Put(old(sockets), maxSize, socket)
      ensures ok <==> |old(sockets)| != maxSize
    {
      if |sockets| == maxSize {
        return false;
      }
      sockets := sockets + [socket];
      return true;
    }

    method DelSocket(socket: Socket) returns (ok: bool)
      modifies this
      ensures old(Valid()) ==> Valid()
      ensures sockets == Delete(old(sockets), Descriptors(old(sockets)), maxSize, socket.descriptor)
      ensures ok <==> Deletes(Descriptors(old(sockets)), maxSize, socket.descriptor)
    {
      if |sockets| == maxSize {
        return false;
      }
      ghost var fds := Descriptors(sockets);
      var it := 0;
      while it != |sockets|
        invariant 0 <= it <= |sockets|
        invariant sockets == old(sockets)
        invariant socket.descriptor !in fds[..it]
      {
        if sockets[it].descriptor == socket.descriptor {
          sockets := sockets[..it] + sockets[it + 1..];
          assert IndexOf(fds, socket.descriptor) == it;
          return true;
        }
        it := it + 1;
      }
      return false;
    }

    method Clear()
      modifies this
      ensures sockets == []
    {
      sockets := [];
    }
  }
}
