/** Socket objects and the machines' objects: what it means that a program's lists and sockets are
    those of a machine state, and what the list operations keep of it. */
module ObjectMirror {
  import opened Sockets
  import opened SocketLists
  import opened Polling
  import opened Ownership

  /** The socket object has the fields the machine says. */
  ghost predicate Looks(s: Socket, o: Sock)
    reads s
  {
    && s.descriptor == o.fd && s.kind == o.kind && s.listening == o.listening
    && s.events == o.events && s.revents == o.revents && s.clientStatus == o.status
  }

  /** A list of socket objects and the machine's list of references to them. */
  ghost predicate Names(refs: map<Ref, Socket>, list: seq<Ref>, sockets: seq<Socket>) {
    |sockets| == |list| && forall i :: 0 <= i < |list| ==> list[i] in refs && sockets[i] == refs[list[i]]
  }

  ghost predicate Injective(refs: map<Ref, Socket>) {
    forall r, q :: r in refs && q in refs && r != q ==> refs[r] != refs[q]
  }

  lemma NamesDistinct(refs: map<Ref, Socket>, list: seq<Ref>, sockets: seq<Socket>)
    requires Names(refs, list, sockets) && Injective(refs) && Distinct(list)
    ensures Distinct(sockets)
  {
  }

  lemma {:induction false} NamesSelected(refs: map<Ref, Socket>, list: seq<Ref>, sockets: seq<Socket>,
      answers: seq<Events>)
    requires Names(refs, list, sockets) && |answers| == |list|
    ensures Names(refs, Selected(list, answers), Selected(sockets, answers))
    decreases |list|
  {
    if list == [] {
    } else {
      var n := |list| - 1;
      NamesSelected(refs, list[..n], sockets[..n], answers[..n]);
    }
  }

  lemma NamesPut(refs: map<Ref, Socket>, list: seq<Ref>, sockets: seq<Socket>, r: Ref, s: Socket)
    requires Names(refs, list, sockets) && r !in refs
    ensures Names(refs[r := s], list + [r], sockets + [s]) && Names(refs[r := s], list, sockets)
  {
  }

  lemma NamesLength(refs: map<Ref, Socket>, list: seq<Ref>, sockets: seq<Socket>)
    requires Names(refs, list, sockets)
    ensures |sockets| == |list|
  {
  }

  lemma NamesMore(refs: map<Ref, Socket>, list: seq<Ref>, sockets: seq<Socket>, r: Ref, s: Socket)
    requires Names(refs, list, sockets) && r !in refs
    ensures Names(refs[r := s], list, sockets)
  {
  }

  /** An object whose reference is not listed is not listed. */
  lemma NamesOthers(refs: map<Ref, Socket>, list: seq<Ref>, sockets: seq<Socket>)
    requires Names(refs, list, sockets) && Injective(refs)
    ensures forall r :: r in refs && r !in list ==> refs[r] !in sockets
  {
  }

  lemma InjectiveMore(refs: map<Ref, Socket>, r: Ref, s: Socket)
    requires Injective(refs) && s !in refs.Values
    ensures Injective(refs[r := s])
  {
    assert forall q :: q in refs ==> refs[q] in refs.Values;
  }

  lemma NamesDelete(refs: map<Ref, Socket>, list: seq<Ref>, sockets: seq<Socket>, fds: seq<int>, capacity: nat, fd: int)
    requires Names(refs, list, sockets) && |fds| == |list|
    ensures Names(refs, Delete(list, fds, capacity, fd), Delete(sockets, fds, capacity, fd))
  {
  }

  lemma NamesNothing(refs: map<Ref, Socket>)
    ensures Names(refs, [], [])
  {
  }

  lemma NothingDeleted(list: seq<Ref>, fds: seq<int>, capacity: nat, fd: int)
    requires |fds| == |list| && !Deletes(fds, capacity, fd)
    ensures Delete(list, fds, capacity, fd) == list
  {
  }

  lemma InjectiveOthers(refs: map<Ref, Socket>, r: Ref)
    requires Injective(refs) && r in refs
    ensures forall q :: q in refs && q != r ==> refs[q] != refs[r]
  {
  }

  ghost function AnsweredBy(o: Sock, answer: Events): Sock {
    o.(events := NO_EVENTS, revents := answer)
  }

  ghost function Asked(o: Sock): Sock {
    o.(events := o.events + {POLLIN})
  }
}
