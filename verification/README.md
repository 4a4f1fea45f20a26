# SQMP in Dafny

SQMP is a chat protocol over QUIC. A client opens one stream, shakes hands (HELLO, HELLO_ACK), logs in
(AUTH_REQ, AUTH_RESP), asks the server for a recipient's public key (KEY_REQ, KEY_RESP) and sends messages
encrypted to that key (CHAT_SEND), which the server forwards (CHAT_DELIVER) without being able to read them.
The server keeps a session per connection, a queue of sessions waiting to be authenticated that many callback
threads feed and one worker empties, and a table of 64 slots for the users that are logged in.

This project models both sides, the packets, the users file and their composition, and proves what holds in
every run.

| file | contents |
|---|---|
| `Bytes.dfy`, `Wire.dfy` | little-endian fields; the codec for all ten packets; buffers filled field by field; forwarding; RECEIVE reassembly |
| `UsersFile.dfy` | the file that sqmp-add-user writes and the server reads, and the map it stands for |
| `Registry.dfy` | the slot array in place, and the partial map of capacity 64 it refines |
| `AuthQueue.dfy` | session objects and the linked queue in place |
| `QueueThreads.dfy` | the same queue under any number of threads, interleaved at each pointer write, mutex and semaphore operation |
| `Phases.dfy`, `ServerSpec.dfy`, `ServerProofs.dfy`, `ServerHistory.dfy` | the server as a state machine; its invariant; theorems over all runs; every session explained by its past, every packet sent by its cause |
| `Server.dfy` | the server's callbacks and worker on objects, each proved to be the corresponding step of `ServerSpec` |
| `Crypto.dfy`, `ClientSpec.dfy`, `ClientProofs.dfy`, `Client.dfy` | key agreement and AEAD by their laws; the client as functions, what any packets make of it, and the client on an object |
| `SystemSpec.dfy`, `SystemLinks.dfy`, `SystemProofs.dfy`, `SystemOrder.dfy`, `SystemTheorems.dfy`, `SystemServer.dfy` | one server, any number of clients, one FIFO channel per direction (section 2.2 of RFC 9000); the inductive invariant; the end-to-end theorems; the server's run inside the system's |
| `SystemShown.dfy`, `SystemCounts.dfy` | everything ever shown, exactly; conservation of packets, posts and waits over runs |
| `SystemKeys.dfy`, `SystemStale.dfy` | the key wait of send_chat: what its semaphore counts, when its key is fresh, and every way in which it is not |
| `SystemPaths.dfy`, `SystemLogin.dfy`, `SystemDelivery.dfy`, `SystemReturns.dfy`, `SystemAccounts.dfy`, `SystemWitness.dfy` | what can happen: logging in or being refused, a message getting through or not, which accounts can log in, and the runs that show where the code goes wrong |

`dafny verify dfyconfig.toml` verifies everything.

## Results

- **End to end** (`SystemTheorems.EndToEnd`, `EndToEndFromReply`): in every run, a forwarded message is taken
  only by the login listed under the recipient's name, and if that login neither left nor was replaced between
  the key reply and the forwarding, its user sees exactly the sender's name and text.
- **Exactly what is read** (`SystemShown.ShownExactly`, `ReadExactlyByKeyHolder`): every entry on every screen of
  every run is the complaint about the state if the answer to that login was lost; else the sender's name and text,
  whole, if the client holds the private half of the key the message was sealed with; else "decrypt failed".
- **At most once, in order** (`ShownOnceInOrder`): no message is shown twice or to two clients, and those of
  one sender appear in the order they were sent.
- **Messages get through** (`SystemAccounts.VerifiedReachesPrompt`, `SystemDelivery.MessageGetsThrough`,
  `AnyTwoUsersCanTalk`): while the server is up, from every reachable state, whatever is queued and however full the
  table, credentials that verify and fit the client's prompt lead to it. From every reachable state in which a sender
  is at the prompt, the recipient is listed with a stream and has not quit, the channels they would use are empty and
  the sender's key semaphore is zero, any text can be brought to the recipient; it appears on the screen unless the
  answer to the recipient's login was lost. So any two users with accounts can talk.
- **Who can log in** (`SystemAccounts.CanGetListedIff`): at any point of any run, a name can ever be registered if
  and only if it is, or the server is up, the name has 1 to 32 bytes without colon, newline and zero byte, and the
  users file has no line for it or one with a field of 64 characters.
- **Agreement and keys** (`ClientServerAgree`, `DeliverPassesStateCheckIff`, `SystemKeys.KeySemaphoreAccount`,
  `FreshKeyUsed`, `CleanKeyUsed`, `SystemStale.AlwaysFreshIff`).
- **Causes** (`ServerHistory.PhaseExplained`, `ErrorsMean`, `ClosedStreamNotUsed`, `ClientProofs.GreetingExplained`,
  `PostsExplained`): the state of a session or client is explained exactly by what arrived, and each error code is sent
  exactly for its cause. `SystemCounts` gives the accounts of both login semaphores, of BYEs and of key requests, and
  `SystemReturns` the ways that end in a refusal.
- **Registry and sessions** (`ServerProofs.RegistryBijection`, `EntrySurvivesOthers`, `OwnershipConserved`,
  `ClosedNeverServed`, `LoginBacked`, `DeliverNamesSender`, `SessionIdsUniqueIff`, `PhaseMonotone`); by
  `SystemServer.RunProjects` they hold of the composed system too, where four of
  them are restated for it.
- **The queue** (`QueueThreads.NoLostWakeups`, `RefinesQueue`, `ComesOutInTurn`, `NeverStuck`).
- **Refinements** to a map (`Registry.TableRefinesMap`, `UsersFile.UsersFileRefinesMap`) and byte-level round
  trips (`Wire.RoundTrip`, `ForwardPreserves`, `ChatPathRoundTrip`, `ReassemblyDispatch`).

Where the code does not do what one would expect, there is a run or an input that shows it, and the condition
under which it does:

- A delivered chat is dropped by the client's state check exactly when the successful AUTH_RESP of that login
  was never put on the stream: the worker registers the user first and ignores a failed send or a closed
  stream (`DeliverPassesStateCheckIff`; `respLost` is that flag). `SystemDelivery.LostAnswerDropsChat` is a run.
- `key_fetch_sem` is shared by key answers and by refused chats, and answers carry nothing that ties them to a
  request. `SystemKeys.FreshKeyUsed`: whatever failed before, the key is the one listed under the named recipient
  during this very call, if at entry no KEY_RESP is on its way down, the semaphore does not count a key already
  received, and every KEY_REQ on its way up is for the same recipient or hopeless: the session is gone or closing, a
  BYE stands before it, or its name can never be registered. `SystemStale.AlwaysFreshIff`: at every prompt of every
  run this is exactly when the key is fresh in everything that can follow. `StaleInFlight` and `StaleCounted` give a
  continuation whose key is from a reply older than the request, `StaleRequest` one whose key is somebody else's,
  wherever in the channel the older request stands. `SystemWitness.LateReplyServesNextRecipient` and
  `RefusedChatShiftsKeys` are runs from the start, for any three users, that end with a message sealed with somebody
  else's key.
- sqmp-add-user accepts names that can never log in. `SystemAccounts.AddedNameCanLogInIff`: an accepted name can
  ever be registered if and only if it has no colon, no newline and at most 32 bytes. Names of 33 to 190 bytes
  verify against the file (`UsersFile.AddedNameVerifiesIff`) but do not fit the AUTH_REQ; 190 because such a record
  fills the 255 characters `fgets` takes, and the newline left over is a line without a colon. The witnesses are a
  name of 33 letters (`LongNameVerifiesButNeverLogsIn`) and a:b (`ColonNameIsAcceptedButFails`).
- A name given to sqmp-add-user need not be the name it adds. Whatever the name, it changes somebody else's result
  exactly when its record, read alone, keys a field of 64 characters by another name that is not in the file yet
  (`UsersFile.ChangesOthersIff`), and makes a reserved name verify exactly when that is such a name
  (`ReservedVerifiesIff`). `ColonAddsChosenLogin`: bob, a colon, 64 hexadecimal digits, a newline and x is one
  accepted name, and then bob verifies with the hash written in it. In closed form (`AddedLogin`,
  `ChangesOthersColonFree`, `ReservedColonFree`), a name without a colon adds its last piece, what is left after the
  lines and 255-byte pieces that `fgets` takes first, if that has at most 190 bytes and is new
  (`NewlineAddsReserved` is the witness).
- Session IDs are unique and non-zero exactly up to 2^32 - 1 accepted HELLOs (`SessionIdsUniqueIff`).

## Assumptions

They appear as `requires` clauses or as guards of steps.

- One callback, one iteration of the auth worker, or what the client's main thread does between two waits is one
  step; the queue alone is modelled at the granularity of single operations.
- One RECEIVE event carries one complete packet with name lengths of at most 32 and a `ciphertext_len` that
  matches (`Wire.Complete`, `Wire.WellFormed`); integers are little-endian.
- A session has at most one AUTH_REQ outstanding. For the server alone this is a guard of the step
  (`ServerSpec.Enabled`); in the composed system it is proved of the clients (`SystemTheorems.StepProjects`).
  `QueueThreads.RelinkingCuts` shows what happens without it.
- Any send may fail. Streams are numbers; nothing claims that a stream in the registry is still open.
- DH(a, pub b) = DH(b, pub a), opening undoes sealing, a tag adds 16 bytes, a public key has 32 bytes and is not
  all zero (`Crypto.Lawful`, section 6.1 of RFC 7748, sections 7.1 and 7.2 of NIST SP 800-38D). Where it is said who
  cannot read a message, also that users with different public keys derive different AEAD keys, and that what is
  sealed under one does not open under another (`Crypto.Separating`, an idealisation).
- The users file is empty or ends in a newline at the start (`UsersFile.Terminated`); the tool keeps it so. Names
  given to the tool are C strings, so they contain no zero byte.

The repository's README says that both sides echo BYE. The server's handler does not
(`src/server/server.c`, lines 103-112); the model follows the code.

## Model

| member | source | states |
|---|---|---|
| SystemTheorems.EndToEnd | src/client/client.c:442-462 | in every run, if the login whose key sealed the message is listed under the recipient's name when the server forwards it and its AUTH_RESP went out, the client that takes it is that login and shows exactly the sender's name and text |
| SystemTheorems.EndToEndFromReply | src/client/client.c:514-546 | the same from the key reply on: it is enough that the login neither says BYE nor disconnects between the reply and the forwarding |
| SystemTheorems.DeliveredToOwner | src/shared/sqmp.c:445-489 | a forwarded message is taken by the login that was listed under the recipient's name at forwarding, by nobody else |
| SystemShown.ShownExactly | src/client/client.c:432-466 | over every run every entry on a screen is, exactly: wrong state if the answer to the login was lost, else the sender's name and text if the client holds the private half of the key used, else decrypt failed |
| SystemShown.ReadExactlyByKeyHolder | src/client/client.c:357-417 | a message is shown as text only with the private half of the key given for its recipient, always to the login that key came from, and as decrypt failed to any other |
| SystemShown.TakeExact | src/client/client.c:426-469 | taking a chat adds exactly that entry |
| SystemTheorems.ShownOnceInOrder | src/client/client.c:426-469 | no message is shown twice or to two clients; messages of one sender are shown in sending order |
| SystemOrder.RunOrder | src/shared/sqmp.c:445-489 | over every run each client's shown and in-flight chats are sent messages, in sending order per sender, and belong to one client only |
| SystemTheorems.ClientServerAgree | src/shared/sqmp.c:353-421 | the client's state is never ahead of its session's; from AUTH on the IDs agree, once established the names too |
| SystemTheorems.DeliverPassesStateCheckIff | src/client/client.c:432-435 | the check on delivery passes if and only if that login's AUTH_RESP was put on the stream |
| SystemTheorems.ReplyWasListed | src/shared/sqmp.c:499-534 | every key reply carries the key registered under that name at the moment of the reply |
| SystemCounts.LoginSemaphoreAccount | src/shared/sqmp.c:403-421 | over every run auth_done is the AUTH_RESPs taken, whatever they say, minus the returns from waiting; login_ready is posted once, on leaving HELLO, and used by the login |
| SystemCounts.ByeAccount | src/client/client.c:222-228 | over every run the BYEs of a client in flight or arrived are those it echoed and those it sent on quitting |
| SystemCounts.KeyRequestAnswered | src/shared/sqmp.c:499-534 | a KEY_REQ from an established session is turned into exactly one answer, a key or "no such user", when the send works |
| SystemCounts.KeyRequestLost | src/shared/sqmp.c:499-534 | when the send fails the request is lost without an answer |
| SystemCounts.RequestsBearSessionId | src/client/client.c:185-200 | over every run each AUTH_REQ, KEY_REQ and CHAT_SEND in flight bears the ID of the client's session |
| SystemKeys.KeySemaphoreAccount | src/client/client.c:501-508 | over every run the semaphore is the number of KEY_RESP and USER_NOT_FOUND packets the client has taken minus the number of its successful waits |
| SystemKeys.CleanAtPrompt | src/client/client.c:485-508 | while no wait failed and no chat was refused, the semaphore is zero and no request or answer is in flight at each entry of send_chat |
| SystemKeys.CleanKeyUsed | src/client/client.c:485-524 | in such runs the key used was listed under the named recipient at a step of the same call |
| SystemKeys.FreshKeyUsed | src/client/client.c:485-524 | whatever failed before: if nothing stale is in flight or counted at entry, the key used was listed under the named recipient at a step of this very call |
| SystemKeys.FreshAlongPath | src/client/client.c:485-524 | the same from any state of the invariant: the reply was given after the request, to this client, for this name |
| SystemKeys.ForeignStays | src/shared/sqmp.c:499-534 | a request that can never be answered with a key stays so: behind a BYE, on a session that is gone or closing, or for a name out of reach |
| SystemStale.AlwaysFreshIff | src/client/client.c:501-524 | at every prompt of every run, every message that can follow is sealed with a fresh key if and only if nothing stale is in flight or counted |
| SystemStale.StaleCounted | src/shared/sqmp.c:543-552 | if a key already received is counted, a continuation seals the message with a reply older than the request |
| SystemStale.StaleInFlight | src/shared/sqmp.c:543-552 | if a KEY_RESP is on its way down, at any place, a continuation seals the message with it |
| SystemStale.StaleRequest | src/shared/sqmp.c:499-534 | if a request for somebody else that is not hopeless is on its way up, at any place, a continuation seals the message with that key |
| SystemWitness.LateReplyServesNextRecipient | src/client/client.c:501-524 | for any three users a run from the start in which, after a timed-out wait, a message is sealed with the previous recipient's key |
| SystemWitness.RefusedChatShiftsKeys | src/client/client.c:248-251 | for any three users a run from the start in which, after a refused chat, the next message is not sent and the one after it is sealed with that recipient's key |
| SystemTheorems.LoginStays | src/shared/sqmp.c:128-140 | in the composed system an entry survives until its own client's BYE or disconnect |
| SystemTheorems.StepProjects | src/server/server.c:172-206 | every step of the system is a step the server's environment is allowed, so no client sends a second AUTH_REQ while one waits |
| SystemServer.RunProjects | src/server/server.c:172-232 | the server's part of every run of the system is a run of the server, step by step |
| SystemServer.LoginBacked | src/server/server.c:288-298 | in the system, each listing goes back to an AUTH_REQ that arrived from its own client and to a worker step that found name and hash in the users file of that moment |
| SystemServer.DeliverNamesSender | src/shared/sqmp.c:449-474 | in the system, every CHAT_DELIVER names the sender that owns the listing of that name |
| SystemServer.ClosedNeverServed | src/server/server.c:282-286 | in the system, a client whose connection is gone is never listed again |
| SystemServer.ClosedNeverAnswered | src/server/server.c:282-286 | and when the worker comes to it nobody is sent anything |
| SystemServer.SessionIdsUniqueIff | src/shared/sqmp.c:309-343 | in the system, IDs are distinct and non-zero if and only if at most 2^32 - 1 HELLOs were accepted |
| SystemTheorems.RegisteredUsersVerify | src/server/server.c:288-298 | everyone registered verifies against the users file as it is now, whatever names the tool has been given since |
| SystemTheorems.RegisteredUsersAreInMap | src/server/server.c:31-66 | when the tool alone wrote the file and no name had a colon, the map of the requests sends everyone registered to the hash they logged in with |
| SystemTheorems.ListedName | src/client/client.c:139-150 | a registered name has no colon, newline or zero byte and 1 to 32 bytes |
| SystemTheorems.InFlightDecodes | src/shared/msquic_wrapper.c:34-49 | every packet in flight in any run decodes to itself from its bytes, however they are split into buffers |
| SystemLogin.GetsListed | src/server/server.c:288-311 | request, queueing and worker in turn end with the session established, the name listed and the answer in flight or lost |
| SystemReturns.RefusedLeaves | src/client/client.c:643-646 | from every reachable state with an empty queue and the server up, a login that cannot succeed is answered, the client leaves, and nothing is listed |
| SystemDelivery.MessageGetsThrough | src/client/client.c:485-551 | every run that ends with the sender at the prompt, the recipient listed and not gone, and their channels empty can go on so that the recipient is next shown the text, or the complaint about its state exactly if its AUTH_RESP was lost |
| SystemDelivery.AnyTwoUsersCanTalk | src/client/client.c:485-551 | for all users files, accounts, keys and texts, a run from the start ends with one user's first message on the other's screen |
| SystemDelivery.LostAnswerDropsChat | src/server/server.c:308-311 | for any two users a run from the start in which the AUTH_RESP is lost and a delivered chat is dropped for state |
| SystemReturns.UnknownNameReturns | src/client/client.c:501-512 | from every prompt with nothing in flight, a message to a name that is not registered leads back to such a prompt with nothing sent |
| SystemReturns.StopTells | src/shared/sqmp.c:225-237 | the shutdown puts a BYE into exactly the channels of listed streams whose send works, and no login is worked on afterwards |
| SystemAccounts.AddedNameCanLogInIff | data/sqmp_add_user.c:31-70 | at any point of any run, while the server is up, an accepted name can ever be registered if and only if it has no colon, no newline and at most 32 bytes |
| SystemAccounts.CanGetListedIff | src/server/server.c:279-312 | at any point of any run, a name can ever be registered if and only if it is, or the server is up, the name fits prompt, packet and file, and the file has no line for it or one with a hash-sized field |
| SystemAccounts.UnobtainableStays | src/server/server.c:31-66 | no step of anyone brings a name within reach that is out of reach |
| SystemAccounts.ListedBeside | src/server/server.c:279-312 | a name within reach can get listed while a given client and its session stay exactly as they are |
| SystemAccounts.VerifiedReachesPrompt | src/client/client.c:620-646 | while the server is up, whatever is queued, however full the table and even if the name is logged in elsewhere, credentials that verify and can be typed lead to the prompt, listed with the public half of the chosen key |
| SystemAccounts.LongNameVerifiesButNeverLogsIn | src/client/client.c:139-150 | a name of 33 letters is accepted and verifies, and no continuation lists it |
| SystemProofs.StepKeeps | src/client/client.c:485-551 | every step of every party keeps the invariant of the composed system |
| SystemProofs.RunInv | src/server/server.c:279-312 | the invariant holds in every reachable state |
| SystemProofs.ChatForwarded | src/shared/sqmp.c:455-481 | forwarding puts into the owner's channel the rewritten packet of a logged message and nothing else changes |
| SystemProofs.ListedKey | src/shared/sqmp.c:389-390 | a registered key is the public half of the private key of the login that owns the entry |
| SystemLinks.WorkMove | src/server/server.c:291-311 | the worker's answer keeps client, session and channels in step whether or not the AUTH_RESP goes out |
| SystemLinks.TakeMove | src/client/client.c:72-106 | every packet the client takes keeps them in step |
| SystemLinks.KeyAnswerMove | src/shared/sqmp.c:499-534 | an answer to a KEY_REQ keeps the accounting of the key semaphore |
| SystemLinks.LoginMove | src/client/client.c:181-213 | logging in establishes that what the server will know as this login's key is the public half of its private key |
| ServerProofs.StepKeeps | src/server/server.c:172-232 | every callback and worker step keeps the server's invariant |
| ServerProofs.RunInv | src/server/server.c:134-147 | the invariant holds in every reachable server state |
| ServerProofs.WorkKeeps | src/server/server.c:279-312 | a worker iteration keeps it: admitted, refused or freed |
| ServerProofs.DisconnectKeeps | src/server/server.c:214-232 | a disconnect keeps it, queued or not |
| ServerProofs.ByeKeeps | src/server/server.c:103-112 | a BYE keeps it |
| ServerProofs.HelloKeeps | src/shared/sqmp.c:307-344 | a HELLO keeps it |
| ServerProofs.AuthReqKeeps | src/shared/sqmp.c:377-394 | an AUTH_REQ keeps it when none is waiting |
| ServerProofs.RegistryBijection | src/server/server.c:291-303 | entries and connected established sessions correspond one to one, with equal names, keys and login streams; at most 64 |
| ServerProofs.EntrySurvivesOthers | src/server/server.c:224-227 | over any run an entry is changed or removed only by its own session's BYE or disconnect |
| ServerProofs.OwnershipConserved | src/server/server.c:214-232 | every session is exactly one of connected, closed but queued, freed; freed once; the queue holds no freed session and only sessions in AUTH |
| ServerProofs.ClosedNeverServed | src/server/server.c:282-286 | a session whose connection closed is never registered and never answered afterwards |
| ServerProofs.LoginBacked | src/server/server.c:288-298 | each entry goes back to an AUTH_REQ of its own session whose name, cut at a zero byte, matched the users file with the submitted hash when it was admitted |
| ServerProofs.DeliverNamesSender | src/shared/sqmp.c:449-474 | every CHAT_DELIVER names as sender the name registered at that moment to the sending session |
| ServerProofs.SessionIdsUniqueIff | src/shared/sqmp.c:309-343 | sessions past HELLO hold distinct non-zero IDs if and only if at most 2^32 - 1 HELLOs were accepted |
| ServerProofs.PhaseMonotone | src/shared/sqmp.c:307-344 | over any run a session's state never moves back and its ID is assigned once |
| ServerHistory.PhaseExplained | src/server/server.c:282-298 | over every run a session is past HELLO exactly if a HELLO offering version 1 arrived in HELLO, past AUTH exactly if the worker admitted it, closing exactly if a BYE arrived while it was established; its answer is lost exactly if the admitting step sent nothing |
| ServerHistory.PendingIsLastRequest | src/shared/sqmp.c:384-391 | over every run what is pending is the last AUTH_REQ that arrived in AUTH: name, hash, stream, and its key if that has 32 bytes, else the key from before |
| ServerHistory.ClosedStreamNotUsed | src/server/server.c:120-126 | over every run, after a stream closes with no AUTH_REQ since, the worker sends nothing for the session, and a listing it makes has no stream |
| ServerHistory.WorkerAnswers | src/server/server.c:76-94 | exactly one AUTH_RESP, on the recorded stream if it is open, with status 0 exactly if the session was admitted and 1 otherwise |
| ServerHistory.ErrorsMean | src/shared/sqmp.c:445-534 | an ERROR of each code is sent if and only if its cause holds, across all handlers |
| ServerHistory.HelloAnswers | src/shared/sqmp.c:307-344 | HELLO_ACK exactly for a HELLO that offers version 1 in HELLO, BYE exactly after a version mismatch, on the same stream and under the session's ID |
| ServerHistory.RequestAnswers | src/server/server.c:172-206 | every other packet is answered by at most one packet, and what that is when nothing is wrong |
| QueueThreads.NoLostWakeups | src/shared/sqmp.c:34-69 | queue length = semaphore + links not posted + tokens held in every reachable state; a dequeue returns NULL if and only if its wait was interrupted |
| QueueThreads.RefinesQueue | src/shared/sqmp.c:39-47 | whatever the interleaving, an enqueue appends its session at one step, a dequeue removes and returns the first at one step, no other step changes the sequence |
| QueueThreads.FirstInFirstOut | src/shared/sqmp.c:34-69 | the k-th session linked in is the k-th taken out |
| QueueThreads.ComesOutInTurn | src/shared/sqmp.c:34-69 | under every interleaving, a session with k others ahead is what dequeue k + 1 takes out and returns |
| QueueThreads.NeverStuck | src/server/server.c:279-279 | while sessions are pending and a thread waits, some thread can go on |
| QueueThreads.MutualExclusion | src/shared/sqmp.c:39-47 | at most one thread is between lock and unlock |
| QueueThreads.StepKeeps | src/shared/sqmp.c:34-69 | every single operation of any thread keeps the queue's invariant |
| QueueThreads.ShapeKept | src/shared/sqmp.c:39-66 | head, tail and next represent the pending sessions up to the writes the thread in the critical section has still to make |
| QueueThreads.RelinkingCuts | src/shared/sqmp.c:59-59 | enqueuing a session that is linked already cuts off those behind it |
| AuthQueue.Queue.Enqueue | src/shared/sqmp.c:57-69 | the pointers represent the old sequence with the session appended |
| AuthQueue.Queue.Dequeue | src/shared/sqmp.c:34-49 | the first session is returned and removed; null exactly on an empty queue |
| Registry.TableRefinesMap | src/shared/sqmp.c:93-140 | after any sequence of operations the slots hold distinct names and are the bounded map |
| Registry.AddRefines | src/shared/sqmp.c:93-119 | add succeeds if and only if the name is absent and a slot is free, and then adds exactly that listing |
| Registry.RemoveRefines | src/shared/sqmp.c:128-140 | remove deletes exactly one key and keeps names distinct |
| Registry.Occupancy | src/shared/sqmp.c:93-119 | the table is full as a map exactly when no slot is free |
| Registry.Table.Add | src/shared/sqmp.c:93-119 | the loop over the slots, against the map: result and new contents |
| Registry.Table.Remove | src/shared/sqmp.c:128-140 | the new contents are the old ones without the name |
| Registry.Table.Find | src/shared/sqmp.c:150-164 | the stream under the name in the map |
| Registry.Table.GetPubkey | src/shared/sqmp.c:175-190 | the key under the name in the map |
| Registry.Table.ByeTargets | src/shared/sqmp.c:225-237 | one BYE for each listing that has a stream, to that stream, and no other |
| ServerImpl.Server.OnStreamRecv | src/server/server.c:172-206 | dispatch on objects is the specified step and keeps the invariant |
| ServerImpl.Server.ProcessHello | src/shared/sqmp.c:307-344 | state, ID counter and packets sent are those of the specified handler |
| ServerImpl.Server.ProcessAuthReq | src/shared/sqmp.c:377-394 | the session is filled in and linked at the tail |
| ServerImpl.Server.ProcessKeyReq | src/shared/sqmp.c:499-534 | the answer of the specified handler |
| ServerImpl.Server.ProcessChatSend | src/shared/sqmp.c:445-489 | the forwarding or the error of the specified handler |
| ServerImpl.Server.ProcessBye | src/server/server.c:103-112 | unlists an established session and closes it, no echo |
| ServerImpl.Server.OnConnected | src/server/server.c:134-147 | a fresh session, the rest unchanged |
| ServerImpl.Server.OnStreamClosed | src/server/server.c:120-126 | only the session's stream is cleared |
| ServerImpl.Server.OnDisconnected | src/server/server.c:214-232 | marked closed when queued, else unlisted if established and freed; keeps the invariant |
| ServerImpl.Server.WorkIteration | src/server/server.c:279-312 | one iteration on linked sessions and slots is the specified step and keeps the invariant |
| ServerImpl.Server.Settle | src/server/server.c:288-311 | credential check, listing, state and answer |
| ServerImpl.Server.OffersV1 | src/shared/sqmp.c:316-319 | the version loop finds a 1 among the first eight announced entries exactly when there is one |
| UsersFile.FileIsMap | src/server/server.c:31-66 | for every file: a login verifies if and only if the field of the first line keyed by its name is its hash; the duplicate scan finds exactly the names |
| UsersFile.FieldsAppend | data/sqmp_add_user.c:60-70 | appending to a newline-terminated file adds what the appended bytes say alone, and earlier lines win |
| UsersFile.AddExtends | data/sqmp_add_user.c:31-70 | any request is refused exactly for empty, reserved and existing names; else the file stays terminated and says what it said and what the record says |
| UsersFile.AddReadsRecord | data/sqmp_add_user.c:60-70 | for any accepted name, a user with an earlier line is unaffected and any other verifies exactly as the record alone says |
| UsersFile.RecordFields | data/sqmp_add_user.c:66-69 | a record whose name has no colon says one thing: the hash, or what the line buffer leaves of it, under the name's last piece |
| UsersFile.AddedLogin | data/sqmp_add_user.c:31-70 | an accepted name without a colon adds a login under its last piece if that has at most 190 bytes and is new; every other result is unchanged |
| UsersFile.ChangesOthersIff | data/sqmp_add_user.c:31-70 | any accepted name, colons included, changes somebody else's result if and only if its record alone keys a hash-sized field by another name that the file does not have |
| UsersFile.ChangesOthersColonFree | data/sqmp_add_user.c:31-70 | without a colon: if and only if the last piece is another, new name of at most 190 bytes |
| UsersFile.ReservedVerifiesIff | data/sqmp_add_user.c:37-41 | while no reserved name is in the file, any accepted name makes one verify if and only if its record alone keys a hash-sized field by it |
| UsersFile.ReservedColonFree | data/sqmp_add_user.c:37-41 | without a colon: if and only if the last piece is reserved |
| UsersFile.ColonAddsChosenLogin | data/sqmp_add_user.c:31-70 | bob, colon, 64 hexadecimal digits, newline, x is accepted, and then bob verifies with the hash written in the name |
| UsersFile.NewlineAddsReserved | data/sqmp_add_user.c:37-41 | the name x, newline, exit is accepted, and then exit verifies |
| UsersFile.AnyRequestsRefineMap | data/sqmp_add_user.c:31-70 | after any requests the file is newline-terminated and is the map that the accepted records make one by one |
| UsersFile.UsersFileRefinesMap | data/sqmp_add_user.c:31-70 | after any requests, a login verifies exactly when the field the map has for its name is its hash, and the tool refuses exactly empty, reserved and existing names |
| UsersFile.ColonFreeRefinesMap | data/sqmp_add_user.c:31-70 | without colons, in closed form: a login verifies exactly when the map of the requests sends its name to its hash |
| UsersFile.GoodRequests | data/sqmp_add_user.c:31-41 | when also no name has a newline or more than 190 bytes, the map's names are exactly those requested that are neither empty nor reserved |
| UsersFile.AddedNameVerifiesIff | src/server/server.c:31-66 | an accepted name verifies with its own hash if and only if it has no colon, no newline and at most 190 bytes |
| UsersFile.ColonNameIsAcceptedButFails | data/sqmp_add_user.c:31-70 | the name a:b is accepted and verifies with no hash |
| UsersFile.VerifyCredentials | src/server/server.c:31-66 | the line loop decides by the first line keyed by the user |
| UsersFile.CompareHash | src/server/server.c:48-62 | trimming, the length test and the hex loop compare the stored hash with the submitted one |
| UsersFile.ScanForDuplicate | data/sqmp_add_user.c:42-56 | the scan finds a line keyed by the name exactly when there is one |
| UsersFile.WriteRecord | data/sqmp_add_user.c:66-69 | the bytes appended for a user |
| UsersFile.AddUserTool | data/sqmp_add_user.c:31-70 | the whole tool: refused, or the extended file |
| UsersFile.UnhexHex | src/server/server.c:55-60 | decoding undoes the tool's hex encoding for every hash |
| UsersFile.ReservedNames | data/sqmp_add_user.c:32-41 | on an empty file the tool refuses exactly the empty name, exit, quit, r and reply |
| UsersFile.RecordText | data/sqmp_add_user.c:66-69 | a record is the name, a colon, the hash and a newline |
| UsersFile.HexText | data/sqmp_add_user.c:67-68 | each byte of the hash is two lower-case hexadecimal digits, high half first |
| UsersFile.AnyLineEnding | src/server/server.c:48-62 | a stored hash followed by any of five line endings, among them none and CR LF, matches exactly itself |
| Wire.RoundTrip | include/sqmp.h:46-150 | every packet any side sends is read back field for field |
| Wire.HeaderLayout | include/sqmp.h:46-70 | version, type, flags, little-endian session ID and reserved bytes at their offsets, and the size of each packet |
| Wire.HandshakeLayout | include/sqmp.h:80-106 | HELLO, HELLO_ACK and AUTH_RESP byte by byte |
| Wire.NameLayout | include/sqmp.h:92-119 | the length, the name and zeros up to 32 bytes |
| Wire.BodyLayout | include/sqmp.h:92-125 | AUTH_REQ, KEY_RESP and ERROR byte by byte |
| Wire.ChatLayout | include/sqmp.h:132-150 | both chat packets byte by byte |
| Wire.ForwardPreserves | src/shared/sqmp.c:462-479 | for every complete CHAT_SEND: same length, same session ID, zero-padded sender, identical bytes from offset 45 on, and it decodes to the rewritten packet |
| Wire.ChatPathRoundTrip | src/client/client.c:526-543 | client packing, server rewriting, client parsing return the same key, nonce and ciphertext |
| Wire.PackChatSend | src/client/client.c:526-543 | the buffer filled in place is the encoding of the CHAT_SEND |
| Wire.PackDeliver | src/shared/sqmp.c:462-479 | the buffer filled in place is the specified rewriting of the received bytes |
| Wire.PackAuthReq | src/client/client.c:185-200 | the buffer filled in place is the encoding of the AUTH_REQ |
| Wire.PackKeyReq | src/client/client.c:489-498 | the buffer filled in place is the encoding of the KEY_REQ |
| Wire.Reassemble | src/shared/msquic_wrapper.c:34-49 | the flattening loop stays in bounds and yields the concatenation and a zero byte |
| Wire.ReassemblyDispatch | src/shared/msquic_wrapper.c:34-49 | dispatch sees the packet that was sent for every split into buffers |
| Crypto.DecryptEncrypt | src/client/client.c:270-417 | what is encrypted to a public key is recovered with its length by the private half |
| Crypto.SealedToRecipient | src/client/client.c:291-317 | the ciphertext is sealed under the secret that the recipient derives from the ephemeral public key |
| Crypto.OnlyRecipientOpens | src/client/client.c:357-417 | of all private keys exactly those whose public half was used open a ciphertext, to the text; any other gets nothing |
| Crypto.LawsAreConsistent | src/client/client.c:270-341 | all laws assumed of the primitives can be met at once |
| ClientProofs.GreetingExplained | src/shared/sqmp.c:353-368 | after any packets: the client left HELLO with the first HELLO_ACK for version 1 and has its ID; it is accepted exactly if a successful AUTH_RESP followed one |
| ClientProofs.PostsExplained | src/shared/sqmp.c:403-421 | after any packets: one post of login_ready for the first welcome, one of auth_done for every AUTH_RESP, one of key_fetch_sem for every answer, and the key of the last |
| ClientProofs.OnlyByeIsAnswered | src/client/client.c:222-228 | nothing but a BYE is answered, and that with a BYE under the client's own ID |
| ClientProofs.DisplayExplained | src/client/client.c:426-469 | for any CHAT_DELIVER, a text is shown exactly if it opens under the derived key, and each complaint exactly for its reason |
| ClientImpl.Client.Login | src/client/client.c:180-213 | key pair and name in the session; the bytes sent are the AUTH_REQ that carries the public half |
| ClientImpl.Client.AskKey | src/client/client.c:489-500 | the bytes of the KEY_REQ for the recipient |
| ClientImpl.Client.FinishSend | src/client/client.c:502-551 | nothing is sent after a failed wait or an all-zero answer; else the bytes of the CHAT_SEND sealed with the fetched key |

## Left out

- Interleavings inside send_chat after its wait: a callback that overwrites `key_fetch_result` between `sem_timedwait` and the read in `encrypt_chat` is not covered, so `SystemKeys.FreshKeyUsed` and the all-zero test hold only without one.
- Interleavings inside one worker iteration: the worker clears `auth_queued` before it is done with the session, so an `on_disconnected` between its statements is not covered.
- Malformed or truncated packets, and several packets in one RECEIVE event: the handlers read whole, well-formed packets, and the model requires them.
- The rest of `src/shared/msquic_wrapper.c` and the vendored headers: thin calls into MsQuic.
- `sqmp_registry_shutdown_connections`: a loop of transport calls without effect on the modelled state.
- OpenSSL internals: the primitives are functions with algebraic laws; that encryption itself may fail is the `sealed` flag of a `Tell` step.
- Readline, the terminal, signals, printing and the parsing of the user's input: recipient and message are inputs. What is displayed is the recovered bytes; the terminal stops at a zero byte.
- File and allocation failures: the users file is a byte sequence, and allocation succeeds.
- Stored hashes that are not hexadecimal: what `sscanf` makes of a pair that is not two hexadecimal digits is the `junk` parameter, on which the closed form for files written by the tool from names without a colon does not depend.
- The wording of error descriptions: it is reproduced, and no theorem depends on it.
- Debug logging, CHAT_ACK and the fragment flags: no code acts on them.
- Liveness under fair scheduling: `QueueThreads.NeverStuck` states that some thread can always go on, not that it is scheduled.
- UsersFile.ColonFreeRefinesMap: the closed form is for names without a colon; for names with one, `UsersFile.UsersFileRefinesMap` and `AddReadsRecord` say what the file means in terms of each record read alone.
