# Listener and dispatchers: a verified model

Two programs share the work of a TLS server. The listener (`mylsnr.cpp`) accepts clients, prints
its configuration to every dispatcher that connects over a UNIX socket, and hands each client's
descriptor to all of them. A dispatcher (`mydisp.cpp`) receives descriptors and configuration,
keeps at most ten sockets in a bounded list, and serves its clients with a small HELLO/ECHO/BYE
session. This project models both event loops, the bounded list and poller they share, the two
codecs between them, and the rules by which socket objects close descriptors. It proves what every
run and every interleaving of the two programs keeps.

## How it is organised

The code that changes things in place is imperative here too, and each method is proved against a
function of its inputs or old state:

| file | contents |
|---|---|
| `Sockets.dfy`, `SocketLists.dfy`, `Polling.dfy` | the socket object, the bounded list, the two-pass poller |
| `DescriptorPassing.dfy` | `sendSocket`, and `createSocket` with its scan under a shrinking bound |
| `Configuration.dfy` | the printed configuration, the line walk over a reused buffer, the option reader |
| `ClientSession.dfy` | one visit to a client |

The properties of whole runs are proved about two state machines on values:

| file | contents |
|---|---|
| `Ownership.dfy` | socket objects, the descriptor table, which close call closes what, and the balance of close calls |
| `Rounds.dfy`, `Channel.dfy` | a poll round on values, and the units of the UNIX connection |
| `DispatcherLoop.dfy`, `DispatcherInvariants.dfy`, `DispatcherSteps.dfy`, `DispatcherTheorems.dfy` | the dispatcher: machine, invariants, each step keeps them, theorems about runs |
| `DispatcherScenarios.dfy` | runs that show what the theorems have to allow for |
| `ListenerLoop.dfy`, `ListenerInvariants.dfy`, `ListenerTheorems.dfy` | the same for the listener |
| `Deployment.dfy` | listener, dispatchers and one FIFO channel per connection, in every interleaving |
| `DeploymentScenario.dfy` | an interleaving in which a client gets all the way |

The two main loops are written once more over the socket objects, and proved to be the machines:

| file | contents |
|---|---|
| `ObjectMirror.dfy` | what it means that a program's lists and sockets are those of a machine state |
| `DispatcherMain.dfy`, `ListenerMain.dfy` | the main loops' rounds and handlers; each object carries the run of its machine, and every method extends it by exactly the machine's steps |

`dafny verify dfyconfig.toml` checks everything.

## What is assumed of the kernel

System calls are inputs of the steps and may answer anything within these limits.

- A poll result holds requested flags and beyond them only POLLERR, POLLHUP and POLLNVAL (the
  `poll()` contract of IEEE Std 1003.1, System Interfaces).
- A descriptor newly handed out is not one that is currently open. Numbers are reused once closed,
  so every descriptor handed out is counted as an instance of its own.
- The control data of a descriptor message may arrive or be lost, and the control buffer holds
  whatever the last message, or the memory it was allocated from, left in it.
- One peek at a UNIX connection sees one message unit, and the configuration label and body arrive
  together as one unit. `DispatcherLoop.BodyAloneIsUnknown` shows why the second half is needed: a body alone would
  never be taken off the channel.
- A peek at a non-empty channel succeeds. One at an empty channel returns zero or less and leaves
  arbitrary memory behind.
- A write or send on a UNIX connection delivers its whole message or nothing.
- `waitpid` reaps only a child that was forked and not yet reaped.
- A dispatcher enters the deployment when its connection is accepted. Until then it may already
  have polled, but nothing was written to it.

The deployment further takes the listener's file names to hold no newline or NUL and their option
lines to fit the 256-byte line buffer; `Configuration.PrintFits` derives from this that the 4096-byte buffers
never truncate.

## Where the code does something unexpected

The model keeps the code as it is.

- When a descriptor message arrives without its control data, `createSocket` logs it and takes the
  number an earlier message left in its static control buffer. If that number is positive a second
  socket is made over it. Ownership is lost by such a reception and by nothing else, for good:
  `DispatcherTheorems.ReceptionKeepsOwnershipIff` for one reception, `DispatcherTheorems.OwnershipHoldsIffNothingStale`
  for whole runs, `DispatcherScenarios.TwoSocketsOverOneDescriptor` for an input. Listed descriptors stop being
  pairwise distinct under a narrower condition, when the number read is a listed socket's and the list has room
  (`DispatcherTheorems.DescriptorsStayDistinctIff`, `DispatcherTheorems.DistinctAllAlongIff`), and deletion by descriptor
  then removes the wrong socket exactly when one listed earlier has the client's number
  (`DispatcherTheorems.RemovalIsExactIff`). What rests on ownership is stated of runs in which it was not lost;
  everything else holds of all runs.
- `delSocket` refuses on a full list. Removal is exact on every list that is not full
  (`DispatcherTheorems.DroppedClientLeaves`), and once the dispatcher's list is full it holds the same ten sockets for
  the rest of the loop, and without a stale number none of its clients is ever closed
  (`DispatcherTheorems.FullForever`, `DispatcherTheorems.FullKeepsClientsOpen`). A full list is reachable (`DispatcherScenarios.FullListIsReachable`).
- A received descriptor with number 0 is taken for a failure: an installed descriptor is recovered
  if and only if its number is positive (`DescriptorPassing.RecoveredIffPositive`). The descriptor is then open
  without an owner; it is counted as leaked.
- A failed TLS handshake in the listener leaves the accepted descriptor open without an owner;
  also counted as leaked.
- The reader's first keyword is `CONFIGPPID=`, which appears in no printed body: it is formed by
  the label running into the first line, `PPID=`.
- A connection whose configuration write fails stays listed and is offered clients all the same.
- The scan for the status byte reads behind the received data, one byte past a full 128-byte
  buffer, if and only if the data's only null byte is its last byte
  (`DescriptorPassing.StaleBytesIgnoredIff`, with `DescriptorPassing.LoneNullReadsBehind` for an input). The model has the byte
  behind the buffer as one more cell of arbitrary content.
- A client may be told BYE more than once, when the removal that should follow is refused
  (`DispatcherScenarios.TwoByes`).

## Model

| member | source | states |
|---|---|---|
| `SocketLists.SocketsList.PutSocket` | SocketsList.h:43-47 | Appends unless full; capacity is kept; the answer says which. |
| `SocketLists.SocketsList.DelSocket` | SocketsList.h:49-60 | The iterator loop deletes the first socket with the descriptor exactly when the list is not full and one occurs. |
| `SocketLists.SocketsList.Clear` | SocketsList.h:62-64 | The list is empty afterwards. |
| `SocketLists.Delete` | SocketsList.h:49-60 | The first element with the key goes and the others stay in order, unless the list is full or the key does not occur; then nothing changes. |
| `SocketLists.DeleteRemovesTheOneMeant` | SocketsList.h:49-60 | With pairwise distinct descriptors, deletion on a list that is not full removes the very element meant and keeps the others in order. |
| `SocketLists.SizeNeverExceedsCapacity` | SocketsList.h:43-60 | No sequence of puts and deletes exceeds the capacity. |
| `SocketLists.FullListIsAbsorbing` | SocketsList.h:43-60 | No sequence of puts and deletes ever changes a full list. |
| `Polling.PollSockets` | SocketsPoller.cpp:40-87 | The kernel is asked for every listed socket; the answer is INTERRUPTED exactly for -1 with EINTR, ERROR exactly for -1 without it, TIMEOUT exactly for 0; afterwards no requested event is left, and on activity every socket carries the last answer of its slots and the output received the filter of the input. |
| `Polling.Outcome` | SocketsPoller.cpp:62-72 | Return value and errno come to INTERRUPTED, ERROR and TIMEOUT exactly for -1 with EINTR, -1 without it, and 0. |
| `Polling.Request` | SocketsPoller.cpp:48-58 | The first pass aligns the array with the list and empties both event fields. |
| `Polling.Gather` | SocketsPoller.cpp:74-84 | The second pass, with its running index, puts exactly the sockets with a non-zero answer. |
| `Polling.SelectedIsTheFilter` | SocketsPoller.cpp:74-84 | The output's k-th socket is the input's at the k-th position with a non-zero answer, positions ascend and none is missed. |
| `Polling.DistinctInput` | SocketsPoller.cpp:74-84 | A list without repetitions gives an output without repetitions, and each socket reads its own slot. |
| `Polling.NoPutRefused` | SocketsPoller.cpp:81-83 | A cleared output at least as large as the input refuses no put. |
| `Polling.PollOnce` | SocketsPoller.cpp:40-87 | As both programs call it: each listed object asked once, no put refused, own slot read, and the three outcomes without activity told apart by return value and errno. |
| `DescriptorPassing.SendSocket` | SocketUtils.cpp:39-75 | A descriptor goes out as two null bytes with that very descriptor attached, a negative value as a null byte and its status with nothing attached; without a control header nothing is sent; success means two bytes sent. |
| `DescriptorPassing.Encode` | SocketUtils.cpp:54-71 | The descriptor attached is the one given, and the status byte is 0 exactly when one is attached. |
| `DescriptorPassing.ErrorStatus` | SocketUtils.cpp:54-59 | A non-zero byte: congruent to the negated value modulo 256, and 1 exactly in place of 0. |
| `DescriptorPassing.ScanBuffer` | ReceivedTcpSocketFactory.cpp:79-94 | The inner loop terminates with the gap between bound and pointer as its measure, and computes the scan. |
| `DescriptorPassing.CreateSocket` | ReceivedTcpSocketFactory.cpp:46-105 | The receive loop over any chunks and failures returns what the recursive receive does, from any stale buffer, and leaves in the control buffer what the last chunk read with a descriptor put there. |
| `DescriptorPassing.FormatErrorIffMalformed` | ReceivedTcpSocketFactory.cpp:79-94 | A format error is logged if and only if the first null byte exists and is not next to last. |
| `DescriptorPassing.StaleBytesIgnoredIff` | ReceivedTcpSocketFactory.cpp:79-94 | The scan depends on the received data alone if and only if the data does not have its only null byte at its end. |
| `DescriptorPassing.LoneNullReadsBehind` | ReceivedTcpSocketFactory.cpp:79-94 | A message of one null byte yields whatever status the byte behind it holds. |
| `DescriptorPassing.ScanFindsStatus` | ReceivedTcpSocketFactory.cpp:79-94 | Null-free text, a null byte and a status: that status is found and nothing is logged. |
| `DescriptorPassing.LastNullDecides` | ReceivedTcpSocketFactory.cpp:79-94 | Each null byte shortens what is scanned by two, and the byte behind the last null byte still inside is the status. |
| `DescriptorPassing.SecondNullIsCutOff` | ReceivedTcpSocketFactory.cpp:79-94 | A data byte, a null byte, 9 and a null byte give status 9: the second null byte is no longer looked at. |
| `DescriptorPassing.EndOfStreamEndsReception` | ReceivedTcpSocketFactory.cpp:58-74 | The end of stream, after any chunks passed over, ends the reception without a socket. |
| `DescriptorPassing.SkippedChunksKeepWaiting` | ReceivedTcpSocketFactory.cpp:58-103 | Failed receives and null-free chunks alone leave the loop waiting. |
| `DescriptorPassing.ReceiveConsumesOneMessage` | ReceivedTcpSocketFactory.cpp:58-103 | After any null-free chunks and failed receives the loop consumes exactly those and the closing chunk, and returns its status without a format error. |
| `DescriptorPassing.CodecRoundTrip` | ReceivedTcpSocketFactory.cpp:81-102 | For every int but the smallest: the status is zero exactly when a descriptor is attached; a message for a descriptor yields the number installed for it, or the stale one if its control data is lost, exactly when that is positive; a negative value yields no socket and its own status. |
| `DescriptorPassing.RecoveredIffPositive` | ReceivedTcpSocketFactory.cpp:96-102 | An installed descriptor is recovered if and only if its number is positive. |
| `Configuration.ApplicationConfig.RetrieveConfigOption` | ApplicationConfig.cpp:60-79 | The prefix comparisons on raw memory depend only on the C string in it, and set at most one option. |
| `Configuration.PrefixSeesOnlyCString` | ApplicationConfig.cpp:66-74 | A keyword matches memory exactly when it matches the C string there, stale bytes or not. |
| `Configuration.CopyLine` | mydisp.cpp:70-71 | After the copy and the terminator the buffer's C string is the line's, whatever earlier lines left. |
| `Configuration.ProcessConfig` | mydisp.cpp:60-83 | The two-pointer loop over a reused buffer refines: split at newlines, discard the tail, fold the option reader. |
| `Configuration.WalkIsParse` | mydisp.cpp:62-75 | From any point of the walk, walking on is parsing the remaining lines, and the lines fit exactly when no copy overruns. |
| `Configuration.LinesAndTail` | mydisp.cpp:62-75 | A text is its lines, each with its newline, followed by a tail without one; the tail is no line. |
| `Configuration.LinesOfTerminated` | mydisp.cpp:62-75 | Conversely, lines without newlines, each terminated, and any such tail split into exactly those lines. |
| `Configuration.LastSettingWins` | ApplicationConfig.cpp:66-74 | For any lines each option ends with the value of the last line that sets it. |
| `Configuration.Decimal` | mylsnr.cpp:100-106 | The digits printed denote the process id, hold no newline or NUL, and are as few as its size allows. |
| `Configuration.PrintedLines` | mylsnr.cpp:93-110 | Label and body together split into exactly the four expected lines. |
| `Configuration.ConfigRoundTrip` | mylsnr.cpp:93-112 | Parsing label and body yields the three names if and only if no name holds a newline or a NUL. |
| `Configuration.CleanRoundTrip` | mydisp.cpp:130-139 | The forward half from any settings whatever. |
| `Configuration.PrintFits` | mylsnr.cpp:99-112 | Option lines that fit the line buffer imply that neither the 4096-byte print nor the read truncates. |
| `ClientSession.ProcessClient` | mydisp.cpp:149-200 | In poll flags and kernel counts alone: a drop flag, a failed read or a failed probe ends the visit; a read beginning with EXIT, and no other, turns the session to BYE; the reply is the status's; the client is kept unless the visit ended, the reply was Bye or its write failed. |
| `ClientSession.VisitLaw` | mydisp.cpp:149-200 | The same of the visit the machine takes. |
| `ClientSession.HelloIsEchoed` | mydisp.cpp:169-181 | A client in its session that sends hello is answered with an echo and kept. |
| `ClientSession.VisitKeepsStatus` | mydisp.cpp:169-188 | Every visit keeps status and replies in agreement. |
| `ClientSession.VisitCredit` | mydisp.cpp:153-182 | A reply without a non-empty read is paid for by a write result of the poll. |
| `ClientSession.VisitTrace` | mydisp.cpp:149-200 | One visit keeps the order of replies and the reply credit, whatever becomes of the removal. |
| `ClientSession.VisitEndsWithBye` | mydisp.cpp:185-188 | After a visit a Bye stands last and the client is not kept, unless a removal was refused. |
| `Ownership.HandOverOwned` | SslSocket.cpp:30-37 | The hand-over closes nothing and puts the SSL object in the received object's place over the same instance. |
| `Ownership.DestroyOwned` | Socket.cpp:24-30 | Destroying a live object closes its own instance and no other. |
| `Ownership.ReleaseOwned` | SocketsList.h:62-64 | Clearing a list closes exactly the instances of the objects nobody else refers to, each once. |
| `Ownership.ExactlyOneOwner` | Socket.cpp:24-30 | An open descriptor that was not leaked has exactly one live unprotected owner. |
| `Ownership.ReleaseBalanced` | SocketsList.h:62-64 | Whoever owns what, clearing a list ends exactly the objects nobody else refers to, with one close call each. |
| `Ownership.OwnedBound` | Socket.cpp:24-30 | Where ownership holds, live objects, closed and leaked instances are different ones of those handed out. |
| `DispatcherLoop.ClassifiesUnits` | mydisp.cpp:108-143 | The peek recognises every unit for what it is, whatever memory lies behind it. |
| `DispatcherLoop.ReceptionIsDecoding` | mydisp.cpp:116-121 | The machine's reception is the receive loop on the message, control data arrived or lost. |
| `DispatcherLoop.BodyAloneIsUnknown` | mydisp.cpp:115-145 | A configuration body without its label is handled by no branch. |
| `DispatcherInvariants.GreetedEffect` | mydisp.cpp:117-129 | Over a newly installed number, reception adds one SSL object over the new instance, asked for writing and set to greet, and keeps ownership. |
| `DispatcherInvariants.RefusedEffect` | mydisp.cpp:122-127 | The busy refusal closes exactly the new instance and leaves all objects as they were. |
| `DispatcherInvariants.ReceiveCases` | mydisp.cpp:116-129 | Reception case by case, stale numbers included: error status, number not positive, full list, listed. |
| `DispatcherInvariants.ReceiveBalanced` | ReceivedTcpSocketFactory.cpp:81-92 | Every reception keeps the balance of objects and close calls, one stale number more counted where one is taken. |
| `DispatcherInvariants.RemovalIsExact` | mydisp.cpp:256-261 | With descriptors apart a visit unlists at most the client visited, and does so exactly when it is not kept and the list is not full. |
| `DispatcherInvariants.UnlistDeletes` | SocketsList.h:49-60 | The machine's erasure is the list's deletion by descriptor. |
| `DispatcherSteps.StepSound` | mydisp.cpp:232-270 | Every step keeps lists, references and the balance of close calls, and ownership too unless it takes a stale number. |
| `DispatcherTheorems.CloseCallsBalance` | Socket.cpp:24-30 | In every run live objects, close calls and leaks together are the descriptors obtained and the stale numbers taken. |
| `DispatcherTheorems.OwnershipHoldsIffNothingStale` | ReceivedTcpSocketFactory.cpp:81-92 | In every reachable state ownership holds if and only if no stale number was ever taken. |
| `DispatcherTheorems.ReceptionKeepsOwnershipIff` | ReceivedTcpSocketFactory.cpp:81-102 | One reception keeps ownership if and only if the control data arrived or the number in the control buffer is not positive. |
| `DispatcherTheorems.ClosedExactlyOnce` | mydisp.cpp:233-263 | In every reachable state without a stale number: one owner per open descriptor, each instance open or closed and not both, none closed twice, no close call on a free number; after the exit only leaked ones are open. |
| `DispatcherTheorems.ListsInOrder` | mydisp.cpp:226-263 | In every reachable state no object is listed twice, the poller's bound holds, the UNIX socket comes first if it is there, and sockets still to be served carry this round's answers; without a stale number the UNIX socket heads the list, listed descriptors are pairwise distinct, and sockets still to be served are listed. |
| `DispatcherTheorems.ReceptionKeepsDistinctIff` | mydisp.cpp:116-129 | One reception keeps the listed descriptors distinct if and only if it lists nobody or reads a number no listed socket has. |
| `DispatcherTheorems.DescriptorsStayDistinctIff` | mydisp.cpp:234-270 | In every reachable state with distinct listed descriptors a step keeps them so if and only if it is not a reception that reads a listed socket's number and finds room; rounds and visits list nobody. |
| `DispatcherTheorems.InstalledNumberIsNew` | ReceivedTcpSocketFactory.cpp:81-92 | Before any stale number was taken an installed number is no listed socket's, so only lost control data can share one. |
| `DispatcherTheorems.DistinctAllAlongIff` | mydisp.cpp:233-263 | Over a whole run listed descriptors were distinct all along if and only if no socket was ever listed over a listed socket's number. |
| `DispatcherTheorems.RemovalIsExactIff` | SocketsList.h:49-60 | In every reachable state a listed client not kept leaves a list that is not full, itself and alone, if and only if no socket listed before it has its descriptor. |
| `DispatcherTheorems.UnixLeavesListIff` | SocketsList.h:49-60 | In every reachable state a visit takes the UNIX socket off the list if and only if a client not kept, on a list that is not full, has the UNIX socket's number. |
| `DispatcherTheorems.DroppedClientLeaves` | mydisp.cpp:256-261 | In every reachable state without a stale number the client not kept leaves a list that is not full, alone; a full list stays and the refusal is counted. |
| `DispatcherTheorems.PollEmptiesInterest` | SocketsPoller.cpp:48-86 | After any poll outcome no listed socket has a requested event. |
| `DispatcherTheorems.SessionsAreOrderly` | mydisp.cpp:149-200 | For every client and run the replies are none, only Byes, or one Hello, Echos, Byes, and at most one more than the non-empty reads; without a stale number or a refused removal there is at most one Bye, last, by a client no longer listed. |
| `DispatcherTheorems.NothingFollowsBye` | mydisp.cpp:185-188 | After a Bye whose removal was not refused the client's history never changes, even if a stale number is taken later. |
| `DispatcherTheorems.HistoryEnds` | mydisp.cpp:254-262 | In every run a client neither listed nor to be served in this round is never served or listed again. |
| `DispatcherTheorems.ArrivalWaits` | mydisp.cpp:246-263 | A client is received only before any client of the round is served, and is not served as long as that round lasts. |
| `DispatcherTheorems.FullForever` | mydisp.cpp:124-127 | Once full the list is the same for the rest of the loop. |
| `DispatcherTheorems.FullKeepsClientsOpen` | mydisp.cpp:256-261 | From then on every listed client lives on to the exit and, without a stale number, is not closed. |
| `DispatcherTheorems.EveryReceivedClientIsAccountedFor` | mydisp.cpp:116-129 | Without a stale number every received client is exactly one of listed, refused and closed, removed, lost to number 0, or the last one, whose message brought nothing; a removed one is closed unless the output list still holds it. |
| `DispatcherTheorems.NeverStuck` | mydisp.cpp:234-270 | In every run no handler and not the exit ever meets a dangling reference. |
| `DispatcherTheorems.RoundLaw` | mydisp.cpp:243-270 | In any state a round's poll leaves the loop exactly for -1 without EINTR, and serves exactly when poll returned neither 0 nor -1. |
| `DispatcherTheorems.UnixTurnLaw` | mydisp.cpp:98-146 | In every reachable state and on any channel the UNIX socket's turn leaves the loop if and only if its result holds a drop flag, the peek is empty, the message is EXIT, the config read or its SSL context fails, or the reception has an error status or yields no positive number. |
| `DispatcherTheorems.UnixTurnReads` | mydisp.cpp:115-139 | Without a drop flag a descriptor message and a readable configuration, and nothing else, are taken off the channel; only the latter changes the settings, to what it spells. |
| `DispatcherTheorems.EmptyTurnLaw` | mydisp.cpp:103-145 | On an empty channel the turn leaves the loop for a drop flag, an empty peek, or stale memory that spells EXIT or a config label whose read or SSL context fails; it lists nobody and sets nothing. |
| `DispatcherTheorems.ReceptionLaw` | mydisp.cpp:116-129 | In every reachable state a positive number received is put over a new SSL socket asked for writing and set to greet, behind the listed ones; a full list of ten stays and the number is closed. |
| `DispatcherTheorems.ArrivalIsAskedToGreet` | mydisp.cpp:235-242 | A round asks for reading from every listed socket besides what the socket asked for itself. |
| `DispatcherTheorems.TurnIsRecorded` | mydisp.cpp:149-200 | A client's turn adds its reply and its non-empty read to the client's own history and to no other. |
| `DispatcherTheorems.HungUpClientLeaves` | mydisp.cpp:150-152 | In every reachable state without a stale number a client polled with an error or hang-up flag leaves a list that is not full, alone and without a reply. |
| `DispatcherScenarios.StaleNumberIsShared` | ReceivedTcpSocketFactory.cpp:81-92 | Whenever the number left in the control buffer is a listed socket's and the list has room, the kernel can make the dispatcher list a second socket over it. |
| `DispatcherScenarios.TwoSocketsOverOneDescriptor` | ReceivedTcpSocketFactory.cpp:81-92 | A run that ends with the listed descriptors 3, 5 and 5. |
| `DispatcherScenarios.FullListIsReachable` | mydisp.cpp:124-127 | A run that fills the list. |
| `DispatcherScenarios.TwoByes` | mydisp.cpp:254-262 | A run in which a client of a full list is told Bye twice and is still listed. |
| `DispatcherMain.Loop.constructor` | mydisp.cpp:226-233 | The program starts in the machine's first state: the UNIX socket alone is listed, nothing is set, and the control buffer holds anything. |
| `DispatcherMain.Loop.AskForRead` | mydisp.cpp:235-242 | Read interest is added for the UNIX socket, listed or not, and for every other listed socket, and for no one else. |
| `DispatcherMain.Loop.BeginRound` | mydisp.cpp:235-250 | Clearing, asking and polling are the machine's poll step; the kernel is asked for reading and what each socket asked for; the loop is left exactly for -1 without EINTR. |
| `DispatcherMain.Loop.DispatcherProcess` | mydisp.cpp:98-146 | The UNIX socket's turn is the machine's handler step, on the program and on the channel; it answers false exactly for a drop flag, an empty peek, an EXIT message, a failed config read or SSL context, or a reception without a positive number. |
| `DispatcherMain.Loop.ReceiveClient` | mydisp.cpp:116-129 | createSocket over the static control buffer, the hand-over and the put are the machine's reception, control data arrived or lost. |
| `DispatcherMain.Loop.MakeClient` | mydisp.cpp:116-129 | The object made has the number received, is an SSL socket asked for writing and set to greet, the TCP object it replaces no longer owns the number, and it is listed exactly when ten are not. |
| `DispatcherMain.Loop.ServeClient` | mydisp.cpp:254-262 | A client's turn, with the deletion by descriptor, is the machine's handler step; keep and reply are the visit's, and the reply is what the client's history grows by. |
| `DispatcherMain.Loop.ServePolled` | mydisp.cpp:246-263 | The loop over the polled sockets is one turn of the machine for each, in order and with the inputs given, cut short only when the UNIX socket's handler fails; the channel left is the machine's. |
| `DispatcherMain.Loop.Round` | mydisp.cpp:234-270 | A whole round is the machine's poll step, its turns with the inputs given and its finish; it leaves the loop, and the channel, exactly as the machine does. |
| `ListenerInvariants.FanOutEffect` | mylsnr.cpp:71-78 | The loop offers the client once to each dispatcher connection among the sockets passed and to no other. |
| `ListenerInvariants.SayGoodbyeEffect` | mylsnr.cpp:142-146 | EXIT goes once to each dispatcher connection it can be written to. |
| `ListenerInvariants.DropIsExact` | mylsnr.cpp:125-129 | A dropped socket is removed exactly when the list is not full, and it is that very socket. |
| `ListenerTheorems.DroppedSocketLeaves` | mylsnr.cpp:125-129 | In every reachable state a dropped socket alone leaves a list that is not full; on a full list nothing changes. |
| `ListenerTheorems.DroppedTurn` | mylsnr.cpp:125-129 | In every reachable state the turn of a socket polled with POLLERR, POLLHUP, POLLNVAL or POLLRDHUP takes it, alone, off a list that is not full; nobody is accepted and nothing written. |
| `ListenerTheorems.KeptTurn` | mylsnr.cpp:124-135 | In every reachable state a turn without any of these flags drops nobody, and does nothing for a connection. |
| `ListenerTheorems.ClientTurn` | mylsnr.cpp:59-80 | In every reachable state the TCP listener's turn without these flags offers an accepted client to every listed connection, writes its own descriptor to those reached and closes it; a failed handshake only leaks. |
| `ListenerTheorems.DispatcherTurn` | mylsnr.cpp:82-118 | In every reachable state the UNIX listener's turn without these flags lists an accepted connection unless a hundred are, and writes it label and configuration as far as the writes succeed. |
| `ListenerTheorems.PassedUnderItsNumber` | mylsnr.cpp:64-78 | In every run each descriptor written to a connection is the number its client was accepted under. |
| `ListenerTheorems.MessagesInOrder` | mylsnr.cpp:59-147 | In every run each connection gets configuration, then descriptors in acceptance order, then at most one EXIT, last and only after the loop. |
| `ListenerTheorems.OfferedExactlyWhileListed` | mylsnr.cpp:64-79 | Over whole runs a connection was offered exactly the clients accepted while it was listed, each once, in order. |
| `ListenerTheorems.FanOutConserves` | mylsnr.cpp:64-79 | The connections holding a client's descriptor are exactly the listed ones whose send succeeded, and the listener's copy is closed. |
| `ListenerTheorems.ListenerOwnsItsDescriptors` | mylsnr.cpp:190-212 | In every reachable state: listed descriptors pairwise distinct, the poller's bound, one owner per open descriptor, nothing closed twice. |
| `ListenerTheorems.EverythingIsClosedAtTheEnd` | mylsnr.cpp:212-216 | After the end no object is left and every descriptor ever obtained is closed, once, but those of failed handshakes. |
| `ListenerTheorems.RoundsAreFresh` | mylsnr.cpp:190-197 | Result bits tested in a handler are this round's, and every poll outcome empties the requested events. |
| `ListenerTheorems.RoundLaw` | mylsnr.cpp:195-209 | In any state a round's poll leaves the loop exactly for -1 without EINTR, and supervises exactly for 0, counting a reaped child and, if the fork succeeds, its replacement. |
| `ListenerTheorems.AtMostOneChild` | mylsnr.cpp:198-203 | Children forked minus reaped is 0 or 1 in every run, failed forks included. |
| `ListenerTheorems.NoChildForever` | mylsnr.cpp:42-57 | Without a child to reap none is ever forked again. |
| `ListenerTheorems.FullForever` | mylsnr.cpp:120-136 | A full list never changes again: dropped dispatchers stay and new ones are turned away. |
| `ListenerTheorems.NeverStuck` | mylsnr.cpp:190-216 | No handler and not the end ever meets a dangling reference. |
| `ListenerMain.Loop.constructor` | mylsnr.cpp:171-186 | The program starts in the machine's first state: the two listening sockets are listed, TCP first, and one child counted if the fork succeeded. |
| `ListenerMain.Loop.BeginRound` | mylsnr.cpp:191-209 | Clearing, asking, polling and supervision are the machine's poll step; the kernel is asked for reading from each socket; the loop is left exactly for -1 without EINTR, and children are counted exactly on a timeout. |
| `ListenerMain.Loop.ProcessClientConnection` | mylsnr.cpp:59-80 | The loop over the list is the machine's fan-out; what each connection is written is taken out of the message sendSocket made. |
| `ListenerMain.Loop.ProcessDispatcherConnection` | mylsnr.cpp:82-118 | The put and the writes, as far as they succeed, are the machine's acceptance of a dispatcher. |
| `ListenerMain.Loop.WriteConfig` | mylsnr.cpp:93-117 | A new connection is written nothing, the label, or label and printed configuration, as its two writes fail or succeed. |
| `ListenerMain.Loop.ProcessSocket` | mylsnr.cpp:124-135 | One polled socket's turn is the machine's handler step; with an error or hang-up flag the socket itself leaves a list short of a hundred and nothing is accepted or written, without one nobody leaves and a client is counted exactly if the TCP listener accepted it. |
| `ListenerMain.Loop.ProcessSockets` | mylsnr.cpp:120-136 | The loop is one handler step of the machine for each polled socket, in order. |
| `ListenerMain.Loop.Round` | mylsnr.cpp:190-210 | A whole round is the machine's poll step, its handler steps and its finish; only a failed poll leaves the loop. |
| `ListenerMain.Loop.SayGoodbyeToAllDispatchers` | mylsnr.cpp:138-147 | The loop is the machine's farewell, on everything written to each connection. |
| `ListenerMain.Loop.Supervise` | mylsnr.cpp:42-57 | A reaped child raises the count of reaped ones by one, and that of forked ones too exactly if the fork succeeds; otherwise neither changes. |
| `Deployment.DescriptorsArriveInOrder` | mylsnr.cpp:59-80 | In every interleaving and on every connection the clients sent are those received followed by those in flight, in acceptance order; and unless a stale number was taken each received one is listed, refused and closed, removed, lost, or the last one, whose message brought nothing. |
| `Deployment.InFlightUnderItsNumber` | SocketUtils.cpp:61-71 | In every interleaving a descriptor message in flight carries the number its client was accepted under. |
| `Deployment.ExitIsInFlight` | mylsnr.cpp:138-147 | In every interleaving EXIT is in flight to a dispatcher exactly if it was written to it, and is the last message in flight. |
| `Deployment.FarewellArrives` | mylsnr.cpp:138-147 | The farewell puts EXIT behind whatever is in flight to each listed dispatcher it reaches, and adds nothing for the others. |
| `Deployment.ExitEndsDispatcher` | mydisp.cpp:140-143 | In every interleaving a dispatcher whose UNIX socket has its turn on a channel headed by EXIT leaves its loop. |
| `DeploymentScenario.ClientReachesDispatcher` | mylsnr.cpp:59-118 | For every configuration that can be carried there is an interleaving in which a dispatcher has read it, has received the first client, and its channel is empty. |
| `Deployment.ConfigurationArrivesFirst` | mydisp.cpp:130-139 | In every interleaving a dispatcher's settings are unset or exactly the listener's names, and are the names before its first client. |
| `Deployment.BodyIsPrinted` | mylsnr.cpp:99-112 | In every listener run a connection to which both config writes succeeded got the configuration printed from the listener's unchanging names. |
| `Deployment.ProcessesStayReachable` | mylsnr.cpp:149-225 | Every interleaving projects to runs of its processes, so their theorems hold in it. |
| `Deployment.UnitsKeepClients` | mylsnr.cpp:93-112 | Reading label and body as one unit loses and reorders no descriptor. |
| `Deployment.LabelSetsNothing` | mydisp.cpp:60-75 | A label whose body was not written sets nothing. |

## Left out

- OpenSSL contexts, handshakes and BIO calls: an unseen library; context creation and the handshake are a success or a failure.
- The bind, listen and connect factories, `getopt` parsing, logging, signal handlers, `sleep` and `myclnt.cpp`: no hard property. SIGINT is a step that leaves the listener's loop.
- Coalescing of messages on the UNIX stream beyond the one-unit assumption, and short writes on it.
- The memory layout of control messages: an attached descriptor is an optional number. Failure to allocate the control header is modelled when sending, not when receiving; the log line for a missing control message is not counted.
- The text written to a client refused as busy: its outcome has no effect on anything.
- Poll bits are sets of the six flags the programs use, not 16-bit words.
- Destruction of objects by reference counting is modelled on values (`Ownership.dfy`): Dafny objects are never destroyed, so the methods over socket objects do not themselves close descriptors; the machine run they carry says when that happens.
- The unbounded repetition of both main loops: the methods over socket objects cover one round, and the machines' runs cover any number of them.
