/** Socket.h: the socket object, its poll-interest bits and its result bits. */
module Sockets {

  datatype SocketKind = TCP | SSL | UNIX | UNKNOWN

  datatype ClientStatus = HELLO | BYE | ECHO | NONE

  /** The poll() flags the programs use; an events or revents field is a set of them. */
  datatype PollFlag = POLLIN | POLLOUT | POLLERR | POLLHUP | POLLNVAL | POLLRDHUP

  type Events = set<PollFlag>

  const NO_EVENTS: Events := {}

  const FREE_SOCKET: int := -1

  predicate IsReadAvailable(revents: Events) {
    POLLIN in revents
  }

  predicate IsWriteAvailable(revents: Events) {
    POLLOUT in revents
  }

  predicate IsDropped(revents: Events) {
    POLLERR in revents || POLLHUP in revents || POLLNVAL in revents || POLLRDHUP in revents
  }

  /** The poll() contract of IEEE Std 1003.1 (System Interfaces): a result holds requested
      flags, and beyond them only POLLERR, POLLHUP and POLLNVAL. */
  predicate PollContract(requested: Events, result: Events) {
    result <= requested + {POLLERR, POLLHUP, POLLNVAL}
  }

  class Socket {
    const descriptor: int
    const kind: SocketKind
    const listening: bool
    var protectDescriptor: bool
    var events: Events
    var revents: Events
    var clientStatus: ClientStatus

    constructor (descriptor: int, kind: SocketKind, listening: bool)
      requires descriptor != FREE_SOCKET
      ensures this.descriptor == descriptor && this.kind == kind && this.listening == listening
      ensures !protectDescriptor && events == NO_EVENTS && revents == NO_EVENTS && clientStatus == NONE
    {
      this.descriptor, this.kind, this.listening := descriptor, kind, listening;
      protectDescriptor, events, revents, clientStatus := false, NO_EVENTS, NO_EVENTS, NONE;
    }

    method PollForRead()
      modifies this`events
      ensures events == old(events) + {POLLIN}
    {
      events := events + {POLLIN};
    }

    method PollForWrite()
      modifies this`events
      ensures events == old(events) + {POLLOUT}
    {
      events := events + {POLLOUT};
    }
  }
}
