# Verification of P2PTorrenting

A Dafny model of the distributed parts of P2PTorrenting, with proofs over whole runs: the sharded
and replicated keyword index, gossip and Lamport clocks, the heartbeat failure detector, and the
reputation accounting of the client.

    dafny verify dfyconfig.toml

## Layout

| file | what it models |
|---|---|
| `Tokeniser.dfy` | `generateKeywords`: titles to keywords |
| `RingHash.dfy` | the 64-bit keyword hash, the replica window, the forwarding prefix |
| `IndexNode.dfy` | one index node: the meaning of every handler, and the node as an object |
| `IndexLaws.dfy` | what the handlers amount to in terms of their inputs: order of listings, exact messages, what a Give overwrites, keys and size of the gate |
| `Convergence.dfy` | replicas that handle the same KeywordAdds in different orders |
| `IndexSystem.dfy` | N index nodes, the network, pending distributions: soundness and completeness of the index |
| `IndexRequests.dfy` | the duplicate gate over whole runs: forwarding and answers |
| `KeywordAdds.dfy` | KeywordAdds through the gate: what is stored, what is refused, and when search is exact |
| `ForwardedSearch.dfy` | the client's search for a keyword that node 0 does not hold, delivered to the end |
| `Messenger.dfy` | the point-to-point queues that carry index messages |
| `Lamport.dfy` | the clock object, and N nodes that queue, relay, answer, send and process with two threads each |
| `BatchQueue.dfy` | the incoming priority queue, drained in batches of ten |
| `MessageCache.dfy`, `Flood.dfy`, `Spread.dfy` | the bounded duplicate cache and flooding over N nodes |
| `Gossip.dfy` | the gossip node as an object |
| `GossipSteps.dfy` | the gossip node's methods as steps of the clock protocol |
| `Heartbeat.dfy` | the failure detector as an object and as a timed state machine |
| `Reputation.dfy`, `ClientAlerts.dfy` | `PieceTracker` and the piece-tracking branches of the alert loop |

Objects whose methods update fields are classes; every method is tied to a function of the old state,
and the laws are proved about those functions. Systems of several nodes are state machines whose runs
are arbitrary sequences of steps; a step that is not possible leaves the state alone, so each theorem
quantifies over all schedules. `lost`, `accepted`, `asks`, `admitted`, `history`, `lastCheck` and
`addedSince` are history: no step reads them to decide what to do. Where two threads share a clock, what
the other thread does to it between two lock sections is a parameter of the method.

## Where the code does less than its documentation says

- README.md:99-100 and the comment at src/index/index.cpp:236 promise that a query reaching a node that
  is not responsible is passed to one that is, and answered. The reply goes back to the forwarding
  node, because the messenger overwrites the source of every message it sends
  (src/index/messenger.cpp:275-276), and there it is refused, because it carries the request id that
  node has cached. A client is answered only by the node it asked, and only if that node is responsible
  (`AllTraceable`, `ForwardedSearchUnanswered`, `FirstDeliveryAnswers`, `RepliesToForwardersRefused`). The
  program's client asks node 0 (src/client/client.cpp:607-622), so it is answered for the keywords node 0
  holds and for no others: delivered to the end, a search for any other comes to nothing on every ring
  (`SearchComesToNothing`), and every ring of four or more has such a keyword (`LetterOffZero`). On a ring
  of five, the configured size, the title "b" that a client adds is found for it by both nodes that are
  reached and never sent to it (`StoredTitleNotDelivered`).
- Forwarding sends to nodes 0..2 whoever is responsible (src/index/index.cpp:226-237); it reaches a
  replica for every keyword iff the ring has at most five nodes (`ForwardingReachesReplica`).
- KeywordAdds carry no request id (src/index/index.cpp:205-211), so all those of one source share a
  gate key and all but the first are refused until the gate is emptied. The index is complete exactly as
  far as KeywordAdds reach the handler: a search is exact iff every refused entry was brought in
  otherwise (`SearchExact`), and within a cache generation a node takes up at most one entry from each
  other node at which additions were made (`RemoteEntriesBounded`); the client adds at node 0 only.
  Beyond this some accepted title is not found (`TooManyEntriesLost`). On a ring of two, adding the title
  "a b" at node 0 already leaves node 1 without "b" (`SecondKeywordRefused`).
- README.md:35 says messages are ordered by Lamport clocks. Processing is in stamp order over a whole
  history iff no message arrives after one with a larger stamp was processed (`ProcessedInOrderIff`), and
  two messages are enough for it to fail (`LateProcessedOutOfOrder`). A relayed copy can carry a smaller
  stamp than the message it copies (`RelayCanGoBack`; exactly when it does not, `CopyStampedLaterIff`);
  answers always carry a larger one (`AnswerStampedLater`).
- A bootstrap node that timed out once is never listed again on account of its heartbeats
  (`BootstrapNeverReadmits`); index nodes are (`RecentIndexNodeListed`).

## Hypotheses

- The ring of index nodes is a fixed sequence of distinct endpoints, and a node's id is its position.
- Clients send AddTorrent and WantTorrent messages only, from endpoints off the ring; index nodes send
  what the handlers queue. Any client may send to any node, which includes the client's actual choice of
  node 0.
- "Within a generation" means that no step of the run empties a gate (src/index/index.cpp:312-314);
  for flooding, that no cache evicts the id in question.
- Clock results hold for runs with fewer than 2^64 - 1 clock steps, the point where a clock could wrap.
- Characters are bytes in the "C" locale. Times are readings of a monotone clock in nanoseconds.

## Model

| member | source | states |
|---|---|---|
| Tokeniser.GenerateKeywords | src/index/index.cpp:81-123 | The three loops compute `Keywords(title)`, the function the tokeniser laws are about |
| Tokeniser.ExtractWords | src/index/index.cpp:111-115 | Stream extraction is splitting at white space, with no empty words |
| Tokeniser.SeparatorLaw | src/index/index.cpp:86-87 | Each of '_', '.', ' ' and the characters 9 to 13, wherever it stands, cuts the title in two and disappears: keywords of a + [c] + b are those of a, then those of b |
| Tokeniser.CaseBreakLaw | src/index/index.cpp:100-106 | A transition from 'a'..'z' to 'A'..'Z' in the original title cuts it and loses nothing |
| Tokeniser.UncutLaw | src/index/index.cpp:90-115 | A piece with neither is one keyword, lower-cased |
| Tokeniser.TokeniserUnique | src/index/index.cpp:81-115 | Any tokeniser obeying the three laws agrees with this one on every title: it cuts into exactly the maximal segments |
| Tokeniser.KeywordsConserveLetters | src/index/index.cpp:81-115 | Every keyword is non-empty, separator-free and without capitals; put together they are all the other characters of the title in order, 'A'..'Z' replaced by the small letter at the same place in the alphabet |
| Tokeniser.KeywordCharacters | src/index/index.cpp:81-115 | No keyword holds one of the eight separator characters or a character in 'A'..'Z' |
| Tokeniser.SampleCuts | src/index/index.cpp:86-106 | Two non-separators with '_', '.', a space, a tab or a line feed between them are two keywords, and so are a small letter and a capital with nothing between |
| Tokeniser.KeywordsIdempotent | src/index/index.cpp:81-115 | Tokenising the space-joined keywords gives the same keywords |
| RingHash.ResponsibleNodeIndex | src/index/index.cpp:385-395 | The loop computes (5381*33^len + sum of c_i*33^(len-1-i)) modulo 2^64 modulo the ring size, for every keyword |
| RingHash.HashClosedForm | src/index/index.cpp:387-390 | The hash is 5381*33^len + sum of c_i*33^(len-1-i) modulo 2^64, signed characters included |
| RingHash.HashConcat | src/index/index.cpp:387-390 | The hash of a + b is determined by the hash of a, the length of b and b's weighted sum |
| RingHash.PrimaryConcat | src/index/index.cpp:385-395 | The node of a + b follows from the hash of a, the length of b and b's weighted sum |
| RingHash.SampleHashes | src/index/index.cpp:387-395 | Reference values: "dune" hashes to 6385165745 and is node 0's on a ring of five; a byte of 200 counts as -56 |
| RingHash.IsResponsible | src/index/index.cpp:398-408 | The loop decides whether the node lies at ring distance at most 2 after the primary |
| RingHash.ResponsibleIff | src/index/index.cpp:398-408 | A node holds a keyword iff it is number p, p + 1 or p + 2 modulo n, p being the closed form of the hash modulo n |
| RingHash.WriteSetIsReadSet | src/index/index.cpp:149-168 | The nodes a keyword is sent to are exactly those that answer for it |
| RingHash.HolderCount | src/index/index.cpp:398-408 | The number of responsible nodes is min(3, n) |
| RingHash.TwoCrashesSurvived | src/index/index.cpp:152-155 | Any two crashes leave a live responsible node when n >= 3 |
| RingHash.PrefixMeetsWindow | src/index/index.cpp:226-228 | The prefix 0..r meets every cyclic window of r + 1 nodes iff n < 2(r + 1) |
| RingHash.ForwardingNeedsFourNodes | src/index/index.cpp:345-348 | A node that forwards is on a ring of at least four, so indexing nodes 0..2 is in bounds |
| RingHash.ForwardingReachesReplica | src/index/index.cpp:226-240 | Every forwarded query is sent to some responsible node iff n <= 5; beyond that a one-letter keyword is the counterexample |
| IndexNode.Record | src/index/index.cpp:265-285 | Adds exactly one (keyword, title) listing, keeps the magnet first recorded for a title, and keeps the two maps consistent and lists duplicate-free |
| IndexNode.Index.HandleKeywordAdd | src/index/index.cpp:265-285 | The in-place handler changes the maps as `Record` does |
| IndexNode.Index.SearchTorrent | src/index/index.cpp:180-196 | The results are the listed titles in order with their magnets; consistency means the lookup never inserts, so the search is read-only |
| IndexNode.Index.Distribution | src/index/index.cpp:149-168 | The nested loops build the distribution list keyword by keyword, primary before replicas |
| IndexNode.Index.Distribute | src/index/index.cpp:170-177 | Working off the list records this node's share and queues one KeywordAdd for every other element |
| IndexNode.Index.AddTorrent | src/index/index.cpp:126-178 | A known title changes nothing; a new one leaves the maps and messages of `Added` and `AddPackets` |
| IndexNode.Index.SendWant | src/index/index.cpp:216-241 | Queues the unchanged request for nodes 0..2 except this one |
| IndexNode.ForwardsShape | src/index/index.cpp:228-240 | At most three forwards, one for each prefix node other than this one, each carrying the request |
| IndexNode.Index.HandleWant | src/index/index.cpp:341-358 | Either one reply to the last hop with the search results or the forwards; the maps stay as they are |
| IndexNode.Index.HandleGive | src/index/index.cpp:360-382 | Results overwrite magnets in order and list nothing |
| IndexNode.AbsorbedMagnets | src/index/index.cpp:373-381 | After a Give the known titles are the old ones and the results', and every magnet comes from one of the two |
| IndexNode.Index.HandleIndexMessage | src/index/index.cpp:287-339 | The gate and the dispatch: a cached key changes nothing but the gate, a new one runs exactly one handler |
| IndexLaws.ListedInArrivalOrder | src/index/index.cpp:265-285 | After any KeywordAdds a keyword lists the titles that came with it, each once, in the order of their first arrival, and each title has the magnet it first came with |
| IndexLaws.SearchInOrder | src/index/index.cpp:180-196 | An answer has as many results as the list has titles; result i is title i with its magnet |
| IndexLaws.DeliveriesInOrder | src/index/index.cpp:149-168 | Element 3j + i of the distribution list is keyword j for the node i places after its primary |
| IndexLaws.RemotePacketsInOrder | src/index/index.cpp:170-177 | The messages of an addition, in order: for each element that is for another node one KeywordAdd with keyword, title and magnet, no source and no request id |
| IndexLaws.AddedLists | src/index/index.cpp:126-178 | A new title is known with its magnet and listed under exactly those of its keywords this node is responsible for; a known title changes nothing |
| IndexLaws.ForwardsExactly | src/index/index.cpp:226-240 | The forwards of nodes 0, 1, 2 and of any other, written out: the nodes of the prefix in order without the node itself, message unchanged |
| IndexLaws.StampedKeeps | src/index/messenger.cpp:273-280 | Sending changes the source of a message to this node and nothing else |
| IndexLaws.LastResultWins | src/index/index.cpp:373-381 | After a Give each title of its results has the magnet of its last result, every other title the magnet it had |
| IndexLaws.KeyIsRequestId | src/index/index.cpp:291-293 | A request id is the whole key, whoever sends the message, when, and whatever it says |
| IndexLaws.KeyDeterminesSource | src/index/index.cpp:294-303 | Additions without request id, whatever they carry and whenever they come, have the same gate key iff they have the same source (addresses hold no colon) |
| IndexLaws.KeyHasTime | src/index/index.cpp:299-303 | A Want or Give without request id has the same key at two times iff the seconds are the same |
| IndexLaws.GateHoldsTenThousand | src/index/index.cpp:306-315 | Any 10000 different keys are all remembered; the next one empties the gate |
| IndexLaws.DispatchTeaches | src/index/index.cpp:322-338 | Which body changes which map: what each kind of message that passes the gate leaves known and listed, and which kinds send nothing |
| Convergence.RecordAllContents | src/index/index.cpp:265-285 | A replica's listings and titles are exactly those of the KeywordAdds it handled, and every magnet was sent with its title |
| Convergence.ReplicasConverge | src/index/index.cpp:265-285 | Replicas that handled KeywordAdds for the same titles under a keyword, in any order and repetition, list the same titles, each once |
| Convergence.ReplicasAnswerAlike | src/index/index.cpp:180-196 | Such replicas give the same answers when each title was submitted with one magnet |
| IndexSystem.DeliveriesExact | src/index/index.cpp:149-168 | The distribution list holds a (node, keyword) pair iff the keyword is in the title and the node is responsible |
| IndexSystem.SoundNext | src/index/index.cpp:287-382 | Every step keeps soundness: all that is stored, pending or in flight came from an accepted add, under its own keywords, at or on the way to a responsible node |
| IndexSystem.AccountedNext | src/index/index.cpp:125-178 | No step loses track of an entry: stored, in flight, pending or lost before means one of these after |
| IndexSystem.CompleteNext | src/index/index.cpp:125-178 | Every step keeps completeness: each keyword of each accepted title is accounted for at each responsible node |
| IndexSystem.Invariant | src/index/index.cpp:125-382 | Soundness and completeness hold in every reachable state, under every schedule |
| IndexSystem.NoLostKeywords | src/index/index.cpp:125-178 | In every reachable state, each keyword of each title known anywhere is, at each responsible node, stored, in flight, pending, or among the KeywordAdds lost or refused |
| IndexSystem.SearchSound | src/index/index.cpp:180-196 | Under loss, reordering and duplication a search returns only added (title, magnet) pairs whose title has the keyword, each title once |
| IndexSystem.FoundOrLost | src/index/index.cpp:180-196 | Once nothing is under way, a title is found at a responsible node or was lost on the way there iff it was accepted and contains the keyword |
| IndexSystem.SurvivesTwoCrashes | src/index/index.cpp:149-196 | With n >= 3 and nothing under way or lost, any title is found under each of its keywords at a live node after two crashes |
| IndexSystem.AtomicAdd | src/index/index.cpp:126-178 | From any reachable state, the uninterrupted `addTorrent` of the node object is a run of the interleaved system: same maps, same messages, no job left |
| IndexRequests.GatesNext | src/index/index.cpp:306-315 | A step adds one key to the gate of the node it delivers to and touches no other gate, short of a clearing |
| IndexRequests.SecondDeliveryRefused | src/index/index.cpp:306-320 | Within a generation a node handles a gate key at most once: a later delivery changes no map and sends nothing |
| IndexRequests.MeasureNext | src/index/index.cpp:306-358 | Within a generation 4*(nodes that have not cached the request) + (copies in flight) decreases at every delivery or loss of the request and rises only by copies from outside |
| IndexRequests.WantTerminates | src/index/index.cpp:216-241 | A request causes at most 4n deliveries and losses plus one per copy sent or duplicated and four per emptying of a gate; sent once, 4n + 1 within a generation |
| IndexRequests.FirstDeliveryAnswers | src/index/index.cpp:341-358 | The first delivery of a client's search sends that client a reply, with the node's results, iff the node is responsible; otherwise at most three forwards bearing the node as source |
| IndexRequests.AllTraceable | src/index/index.cpp:243-261 | In every reachable state a reply to a client comes from a responsible node that client sent the search to, and its titles have the keyword |
| IndexRequests.ForwardedSearchUnanswered | src/index/index.cpp:345-348 | A client that asked only nodes that had to forward never gets a reply, in any run |
| IndexRequests.RepliesToForwardersRefused | src/index/index.cpp:317-320 | Within a generation every reply to an index node is refused by its gate |
| ForwardedSearch.HoldersAnswerZero | src/index/index.cpp:226-261 | Once a client's search that node 0 must forward has reached the nodes 0, 1 and 2, the network holds exactly the replies of the holders among 1 and 2, addressed to node 0, and the forwards of the others |
| ForwardedSearch.SearchComesToNothing | src/index/index.cpp:226-240 | On every ring and whatever the index holds, all of these are then refused where they arrive, no map has changed and no message is left |
| ForwardedSearch.LetterOffZero | src/index/index.cpp:398-408 | Every ring of four or more has a one-letter keyword node 0 does not hold |
| ForwardedSearch.StoredTitleNotDelivered | src/client/client.cpp:583-627 | On any ring of five a client adds the title "b" and searches for it: the nodes 1 and 2 reply to node 0 with the title, and at the end no message is left |
| KeywordAdds.StoredIsOwnOrRemote | src/index/index.cpp:265-285 | A node lists exactly the entries it made for its own additions and those of KeywordAdds that passed its gate |
| KeywordAdds.KeywordAddPassesIffSourceUnseen | src/index/index.cpp:296-320 | An arriving KeywordAdd is stored iff its source's key is not in the gate, and is otherwise counted as lost |
| KeywordAdds.RemoteEntriesBounded | src/index/index.cpp:294-320 | Within a generation a node takes up at most one entry from each other node at which additions were made, so at most n - 1 |
| KeywordAdds.SearchExact | src/index/index.cpp:180-196 | Once nothing is under way, a search at a responsible node returns exactly the accepted titles with the keyword iff every entry lost or refused was made by the node itself or by a KeywordAdd that passed the gate |
| KeywordAdds.TooManyEntriesLost | src/index/index.cpp:198-214 | If more entries of accepted titles belong at a node than it made itself plus one per other node that made additions, then within a generation, once nothing is under way, one of them was lost and a search for its keyword is not exact |
| KeywordAdds.SecondKeywordRefused | src/index/index.cpp:205-211 | A run on any ring of two, with every message delivered, after which node 1 finds the title "a b" under "a" and not under "b" |
| KeywordAdds.ReplicasAgree | src/index/index.cpp:149-196 | In any run, responsible nodes with nothing under way and losses made good give the same answers, if each accepted title came with one magnet |
| Messenger.Messenger.ProcessOutgoing | src/index/messenger.cpp:258-281 | Sends up to ten packets in queue order, with this node as source and one stamp reading and increment each, whatever the receiving thread does to the clock before and between the two |
| Messenger.NumberedInOrder | src/index/messenger.cpp:270-281 | Short of the wrap the packets of a batch go out as queued, each with a larger stamp than the one before, whatever the receiving thread does to the clock |
| Messenger.Messenger.ProcessIncoming | src/index/messenger.cpp:285-319 | Takes a batch of the smallest stamps, updates the clock for each in that order, whatever the sending thread does to it in between, and hands each to the handler in that order |
| Lamport.LamportClock.constructor | src/gossip/lamport.cpp:5-5 | A clock starts at 1 |
| Lamport.LamportClock.IncrementClock | src/gossip/lamport.cpp:9-12 | One increment of a 64-bit counter |
| Lamport.LamportClock.UpdateClock | src/gossip/lamport.cpp:14-17 | One more than the larger of clock and stamp, in 64 bits |
| Lamport.LamportClock.GetClock | src/gossip/lamport.cpp:19-22 | Reads the clock |
| Lamport.SixtyFourBits | src/gossip/lamport.cpp:9-17 | Increment and update on 64-bit values: one more than the clock or the stamp, whichever is larger, and 0 after 2^64 - 1 |
| Lamport.ClockPassesStamps | src/gossip/lamport.cpp:9-17 | Short of the wrap a clock gains at least one with every increment and update and passes every stamp it is updated with |
| Lamport.ClockClosedForm | src/gossip/lamport.cpp:9-17 | Short of the wrap a clock has gone beyond x iff its start plus the number of operations has, or some stamp it was updated with plus the operations from there on has |
| Lamport.ReadingsIncrease | src/gossip/gossip.cpp:323-333 | Short of the wrap the stamps of a batch strictly increase in sending order, whatever the other thread does to the clock between and inside the sends |
| Lamport.BatchPassed | src/gossip/gossip.cpp:361-369 | Short of the wrap, processing a batch moves the clock past every stamp in it, whatever the sending thread does in between |
| Lamport.ClocksGrow | src/gossip/lamport.cpp:9-17 | Short of the wrap no step moves a clock back; a send moves it past its own reading, a processing past the stamp |
| Lamport.ClockBound | src/gossip/lamport.cpp:5-17 | In every run with fewer than 2^64 - 1 clock steps all clocks and stamps lie between 1 and 1 plus the clock steps taken, so none wraps and the `> 0` guard skips none |
| Lamport.ClockCondition | src/gossip/gossip.cpp:330-331 | If one message happens before another (same sender, or processed before the other was stamped, transitively) its stamp is smaller, with read and increment as separate steps an update can split |
| Lamport.AnswerStampedLater | src/gossip/gossip.cpp:366-400 | In every run, each message queued on handling another, so each PONG, is stamped above the message that caused it |
| Lamport.RelayCanGoBack | src/gossip/gossip.cpp:227-231 | A run in which a node relays a message and the copy carries a smaller stamp than the message: receipt does not order |
| Lamport.CopyStampedLaterIff | src/gossip/gossip.cpp:329-331 | In every run, a relayed copy is stamped above the message it copies iff what its node had sent and processed by then counts beyond that stamp: by the number of those operations plus one, or by the stamp of a processed message plus the operations since |
| Lamport.SentInOrder | src/index/messenger.cpp:252-281 | In every run each node sends in the order it queued and its stamps strictly increase, across batches and under all interleavings |
| BatchQueue.DrainBatch | src/gossip/gossip.cpp:349-357 | A batch has min(10, size) messages, in stamp order, none larger than anything left, and nothing is lost or doubled |
| BatchQueue.Conservation | src/gossip/gossip.cpp:340-361 | Over any history of arrivals and drains, arrived is processed plus queued, as multisets |
| BatchQueue.ProcessedInOrderIff | src/gossip/gossip.cpp:340-361 | Over a history that ends empty, processing was in stamp order iff no message came after a larger one was processed |
| BatchQueue.LateProcessedOutOfOrder | src/gossip/gossip.cpp:340-361 | A history of two messages, the second with a smaller stamp arriving after the first was drained, ends with an empty queue and both processed out of stamp order |
| BatchQueue.DrainsSort | src/gossip/gossip.cpp:349-357 | d drains without arrivals process the min(size, 10d) smallest stamps in order |
| MessageCache.CacheRefinesHistory | src/gossip/gossip.cpp:447-461 | The bounded list is the last min(1000, k) admissions, whatever arrives |
| MessageCache.RefusedIffRecent | src/gossip/gossip.cpp:442-461 | An id is refused iff it is one of the last 1000 admissions; older ones are admitted again |
| MessageCache.ListIsLastThousand | src/gossip/gossip.cpp:447-461 | The list is the whole history of admissions up to 1000, then its last 1000 |
| MessageCache.AdmissionsFarApart | src/gossip/gossip.cpp:216-220 | Any 1001 consecutive admissions are pairwise distinct |
| MessageCache.EqualAdmissionsApart | src/gossip/gossip.cpp:447-461 | Between two admissions of one id lie at least 1000 others |
| MessageCache.CountSpaced | src/gossip/gossip.cpp:447-461 | An id admitted c times takes more than 1001(c - 1) admissions |
| Gossip.Gossip.InCache | src/gossip/gossip.cpp:442-445 | The set answers membership in the window of the last 1000 admissions |
| Gossip.Gossip.AddToCache | src/gossip/gossip.cpp:447-461 | Set and list stay equal, the list stays the window of the admissions, and a known id is not admitted again |
| Gossip.Gossip.SelectRandomPeers | src/gossip/gossip.cpp:495-523 | min(count, available) positions of the known peers without the excluded one, none used twice |
| Gossip.Gossip.SpreadMessage | src/gossip/gossip.cpp:525-536 | Appends copies for min(2, available) positions of the known peers, the excluded one left out |
| Gossip.FanOutIsTwo | src/gossip/gossip.cpp:495-523 | The copies are two, or as many as there are known peers without the excluded one if those are fewer |
| Gossip.SpreadOnce | src/gossip/gossip.cpp:504-536 | No peer gets more copies of a message than it has places among the known peers, and the excluded one none |
| Gossip.Gossip.HandleReceived | src/gossip/gossip.cpp:208-237 | An id in the window changes nothing; any other is admitted, queued once and spread; what is queued and processed stays what was admitted |
| Gossip.ReceivedIsDelivery | src/gossip/gossip.cpp:208-237 | What `HandleReceived` does to the cache and the outgoing queue is a delivery step of flooding |
| GossipSteps.ReceivedIsSteps | src/gossip/gossip.cpp:227-231 | What `HandleReceived` does to the outgoing queue is a receipt and the queueing of copies in the clock protocol, the clock untouched |
| GossipSteps.WorkedIsSteps | src/gossip/gossip.cpp:366-400 | What handling a message does to clock and queue is a processing step followed by the queueing of answers: the clock passes the stamp first |
| GossipSteps.SendIsSteps | src/gossip/gossip.cpp:330-332 | Reading the stamp and incrementing are the two sending steps of the clock protocol |
| Gossip.Gossip.ProcessOutgoing | src/gossip/gossip.cpp:309-336 | Sends up to ten copies from the front of the queue, each stamped by one reading and one increment, whatever the processing thread does to the clock before and between the two |
| Gossip.CopiesStampedInOrder | src/gossip/gossip.cpp:323-333 | Short of the wrap the copies of a batch carry strictly increasing stamps |
| Gossip.CopiesKept | src/gossip/gossip.cpp:323-333 | A sent copy has the target, id, time, source and content it was queued with, and the queue's order is kept |
| Gossip.Gossip.ProcessIncoming | src/gossip/gossip.cpp:340-440 | A batch of the smallest stamps: the clock updated for each, the handler calls in order, and each PING answered by one PONG spread to the peers known then, whatever the other threads do to the clock and the known peers in between; what is queued and processed stays what was admitted |
| Gossip.CallsExactly | src/gossip/gossip.cpp:371-431 | Over any history of a node: the heartbeat handlers are called with x once for each processed PONG or INDEX_PONG whose source is x, the reputation handler with (s, d, x) once for each processed report about s with delta d from sender x, each if registered; no other call is made |
| Gossip.AnsweredInKind | src/gossip/gossip.cpp:383-424 | A PING gets a PONG, an INDEX_PING an INDEX_PONG, iff the handler is registered; it carries this node as source and the time of the PING; nothing else is answered |
| Gossip.PongIdsDiffer | src/gossip/gossip.cpp:386-417 | Two PONGs of a node have the same id iff they are of one kind and of one second |
| Gossip.Gossip.UpdateKnownPeers | src/gossip/gossip.cpp:480-493 | A peer q is known after a refresh iff some DHT node has its address, a port in 6881..6885 and the port of q minus 1000; the peers known before are gone |
| Gossip.KnownInOrder | src/gossip/gossip.cpp:480-493 | There are as many known peers as DHT nodes in the port range; the k-th such node gives the k-th peer, its port raised by 1000 |
| Gossip.SpreadToGossipPorts | src/gossip/gossip.cpp:480-536 | Everything spread after a refresh goes to a port in 7881..7885 |
| Gossip.RepliesCounted | src/gossip/gossip.cpp:386-400 | A batch queues exactly min(2, peers known then) copies of each PONG it calls for |
| Gossip.RepliesOnly | src/gossip/gossip.cpp:383-424 | Everything a batch queues is a PONG to one of its messages, for a peer known when that was handled |
| Gossip.HandledOncePerWindow | src/gossip/gossip.cpp:216-230 | Over the life of a node an id is processed no more often than it was admitted, at most once per 1001 consecutive admissions, and each processing calls at most one handler |
| Flood.DeliverCounts | src/gossip/gossip.cpp:208-237 | A first delivery takes one node off those lacking the id and queues at most two copies; a repeat queues none |
| Flood.MeasureNext | src/gossip/gossip.cpp:208-237 | Without eviction 3*(nodes lacking the id) + (copies in flight) decreases at every delivery or loss and rises by at most two at an origination |
| Flood.FloodBounded | src/gossip/gossip.cpp:208-237 | Without eviction a message originated once is queued at most 2(n + 1) times over n nodes, and copies queued are copies taken plus copies in flight |
| Flood.FloodByAdmissions | src/gossip/gossip.cpp:447-461 | Whatever the caches evict, a message is queued at most twice per origination and per admission to a cache |
| Flood.ReadmissionsSpaced | src/gossip/gossip.cpp:456-460 | A node admits an id c times only if it admitted more than 1001(c - 1) messages in all |
| Heartbeat.CollectThenEraseIsFilter | src/gossip/bootstrap_heartbeat.cpp:118-138 | Collecting stale nodes and erasing the first occurrence of each is the order-preserving filter, even with duplicates |
| Heartbeat.KeptInOrder | src/gossip/bootstrap_heartbeat.cpp:117-138 | The filter goes piece by piece and keeps a node iff it was never heard or less than 45 s ago |
| Heartbeat.CheckSettles | src/gossip/bootstrap_heartbeat.cpp:103-139 | After a check everything listed is alive, the alive nodes are the whole list, and a second check at that instant changes nothing |
| Heartbeat.HeartbeatManager.AddNode | src/gossip/bootstrap_heartbeat.cpp:29-37 | A listed node leaves the list unchanged, an unlisted one is put last |
| Heartbeat.HeartbeatManager.RemoveNode | src/gossip/bootstrap_heartbeat.cpp:39-49 | Takes out the first occurrence, leaving what stands before and after it, and the last heartbeat |
| Heartbeat.HeartbeatManager.IsNodeAlive | src/gossip/bootstrap_heartbeat.cpp:51-62 | True unless the node was heard once and then not for 45 seconds |
| Heartbeat.HeartbeatManager.ProcessHeartbeatResponse | src/gossip/index_heartbeat.cpp:37-52 | Records the time; a listed sender, and any sender among bootstrap nodes, leaves the list unchanged; an unlisted index node is put last |
| Heartbeat.HeartbeatManager.FailedNodes | src/gossip/bootstrap_heartbeat.cpp:118-130 | The first loop collects the stale occurrences in list order |
| Heartbeat.HeartbeatManager.CheckNodeHealth | src/gossip/bootstrap_heartbeat.cpp:103-139 | The two loops leave the stable filter of the list by freshness and touch no heartbeat time |
| Heartbeat.HeartbeatManager.GetAliveIndexNodes | src/gossip/index_heartbeat.cpp:54-72 | The listed nodes never heard or heard in time, in order |
| Heartbeat.ListChanges | src/gossip/bootstrap_heartbeat.cpp:29-139 | What each step does to the list in any state: which steps leave it alone, which put a node last, which take out the first occurrence, and whom a check keeps |
| Heartbeat.NeverListedTwice | src/gossip/bootstrap_heartbeat.cpp:29-139 | From a list without duplicates on, no reachable state lists a node twice |
| Heartbeat.RemovedStaysOff | src/gossip/bootstrap_heartbeat.cpp:39-49 | From such a start, after `removeNode` a node is off the list in every later state until it is added or, among index nodes, heard again |
| Heartbeat.TimesFromHistory | src/gossip/bootstrap_heartbeat.cpp:97-101 | In every run the recorded time of a node is that of its last heartbeat since it was last removed, and there is none otherwise |
| Heartbeat.TimeoutExact | src/gossip/bootstrap_heartbeat.cpp:117-138 | A node silent for d is on the list after a check iff d is less than 45 s, to the nanosecond |
| Heartbeat.SilentNodeDetected | src/gossip/bootstrap_heartbeat.cpp:64-76 | If the last check is at most P ago, a node silent for 45 s + P is off the list unless `addNode` put it back since |
| Heartbeat.LiveNodeKept | src/gossip/bootstrap_heartbeat.cpp:117-138 | A listed node that is not stale at any check stays listed until `removeNode` |
| Heartbeat.RegularNodeKept | src/gossip/bootstrap_heartbeat.cpp:97-139 | A listed node whose heartbeats are less than 45 s apart is never taken off by a check |
| Heartbeat.RecentIndexNodeListed | src/gossip/index_heartbeat.cpp:37-52 | For index nodes, every endpoint heard within 45 s and not removed since is listed |
| Heartbeat.CheckedIndexNodesExact | src/gossip/index_heartbeat.cpp:37-52 | Right after a check, an index node ever heard is listed iff it was heard within 45 s |
| Heartbeat.BootstrapNeverReadmits | src/gossip/bootstrap_heartbeat.cpp:97-101 | For bootstrap nodes, heartbeats never bring back a node that is off the list |
| Heartbeat.RecoveryDependsOnKind | src/gossip/index_heartbeat.cpp:45-51 | A node silent for one timeout and heard again is alive, and listed iff the list is of index nodes |
| Reputation.ContributorsFromHistory | src/client/client.hpp:108-110 | A piece's contributors are the peers that finished a block of it since the last verdict on it |
| Reputation.BlocksFromHistory | src/client/client.hpp:108-110 | The set kept for a peer and a piece holds exactly the blocks the peer finished since the last verdict on the piece |
| Reputation.EntryFromHistory | src/client/client.hpp:81-110 | A piece has an entry iff it was heard of and the last thing heard of it is not that it is finished |
| Reputation.DeltaFromHistory | src/client/client.hpp:81-98 | A peer's delta is its good verdicts minus five times its bad ones over pieces it contributed to since their previous verdict, with an entry iff there was one |
| Reputation.DeltaBounded | src/client/client.hpp:76-79 | A delta stays between -5 and 1 times the number of alerts, within `int` for fewer than 2^31 / 5 alerts |
| Reputation.PointsConserved | src/client/client.hpp:81-98 | All deltas together equal the points handed out: weight times contributors, over all verdicts |
| Reputation.DifferentPiecesCommute | src/client/client.hpp:81-110 | Neighbouring alerts about different pieces can be swapped anywhere in a history without changing the ledger it leads to |
| Reputation.EmptyEntryHarmless | src/client/client.cpp:347-356 | The empty entry a contributor lookup leaves never changes any later delta |
| Reputation.PieceTracker.AddBlock | src/client/client.hpp:108-110 | Adds the block to the peer's set for the piece, making the entries it needs |
| Reputation.PieceTracker.RecordGoodPiece | src/client/client.hpp:91-98 | One point to each contributor, in whatever order the loop visits them, and the piece's entry erased |
| Reputation.PieceTracker.RecordBadPiece | src/client/client.hpp:81-89 | Minus five to each contributor, and the piece's entry erased |
| Reputation.PieceTracker.GetPieceContributors | src/client/client.hpp:100-106 | Lists the piece's contributors once each and leaves an entry for the piece |
| Reputation.PieceTracker.GetReputationUpdates | src/client/client.hpp:112-118 | Lists every entry of the delta map exactly once |
| ClientAlerts.TrackersFromHistory | src/client/client.cpp:329-390 | A torrent has a tracker iff a block of it finished since it was last finished, and the tracker is the fold of its alerts since then |
| ClientAlerts.FinishedReport | src/client/client.cpp:374-389 | The updates of a finished torrent list a peer, once, with delta d iff it has verdicts since the torrent was last finished and d is good minus five times bad |
| ClientAlerts.Client.HandleAlert | src/client/client.cpp:329-390 | Each branch changes its torrent's tracker only, and updates are sent for a tracked torrent that finishes |
| ClientAlerts.Client.HandleAlerts | src/client/client.cpp:329-390 | A poll on live trackers carries the fold of the whole alert history on, and sends exactly one report for each tracked torrent that finishes, in order, with the contents `FinishedReport` states |

## Left out

- Sockets, accepting and connecting, serialisation and framing, threads and their shutdown: I/O plumbing.
- libtorrent: sessions, DHT, torrent files, magnet parsing; and configuration loading. The ring is a parameter.
- Hash-table and priority-queue internals, the random number generator and the wall clock: the queue gives some smallest element, peers are chosen arbitrarily, times are parameters.
- `peer_cache_` and banning: nothing ever fills the cache, so no run reaches them.
- The fields `sender_ip`, `sender_port`, `timestamp` and `more_results` of index messages, and the time kept with a cache entry: they are set or stored and never read.
- RemoveMessage, KeywordTransferMessage and NodeChangeMessage, which no handler takes up, and `pendingSearchResults`, which nothing uses.
- The command line, status printing, speed estimates, the corruption tool, and the printing of contributors after a failed hash check.
- Concurrent callers of one index node's handlers beyond the split of `addTorrent` into its locked part and its distribution: the messenger runs handlers on one thread.
- Messages other threads queue while a batch is sent or processed: they come after the batch is taken and wait for the next one.
- The text of gossip reputation message ids, and two messages of one second sharing an id: ids are arbitrary strings here.
