# A verified model of the c-ares resolver

This project models the asynchronous resolver engine of c-ares and the algorithms around it, and proves what they are
meant to do. It consists of

- the **engine** (`Channels`, `Servers`, `Queries`, `Indexes`, `Clock`, `Framing`): a channel with its servers and its
  outstanding queries, which are retried over the servers by the mutual recursion of the send routine and the choice of
  the next server, switch from UDP to TCP, queue partly written TCP requests, reassemble TCP input, time out, are
  cancelled, and are reported by a callback. The network, the clock and the jitter are arbitrary: a socket opens or
  not, a write takes any number of bytes or fails, a read returns any chunk or fails, sockets are ready or not. Every
  step keeps the invariant `Channel.Inv`; `Run` is any sequence of submissions, rounds of processing and cancellations;
- the **linked lists** (`LinkedLists`, `QueryLists`): the circular doubly-linked lists of nodes under the sequences that
  the engine works on. Every operation of the engine on its indexes is proved to be what the pointer operations do;
- the **name codec** (`Names`, `Questions`): building a query from an escaped dotted name, expanding a compressed name
  of a message in two passes, and comparing the questions of two messages;
- **addresses as text** (`Inet`, `Networks`): printing of IPv4 and IPv6 addresses, and the parsers of network numbers; when the
  IPv6 parser stays inside its buffer (`Bounds`);
- **address sorting** (`Sorting`), the **search through domains** (`Searching`) and the **reading of address answers**
  (`AddressReply`).

Code that changes things in place is modelled by classes, arrays and loops, and proved against functions and
predicates over values. Ghost fields record what has to be told about the past: the history of a query, the callbacks
made, and the bytes that passed over each TCP connection.

What the engine proves is summed up by `Channel.Safe`, which follows from the invariant (`ValidIsSafe`): submitted
queries are the disjoint union of live and called-back ones, with one callback each; every live query is linked in
each index exactly where its id, its deadline and its server say; no query is sent to a server that was ruled out for
it, or twice over one TCP connection unless it fell back from EDNS in between; none is sent more often than its tries,
one switch to TCP and one fallback allow, or waits longer; a reader of what was written to a TCP connection finds the
first of the requests queued on it, unless one of them was rewritten, and a reader of what was read finds exactly the
messages delivered; these are, over all connections to a server, the answers processed as coming from it over TCP, in
order; queued requests belong to live queries or to none. `Channel.Grown` says that what is logged stays: callbacks,
submissions, answers, histories and past connections. What passed over an open connection is only added to, while it is
open and when it becomes a past one.

Where comments and code of c-ares differ, the model follows the code: `single_domain` keeps a trailing dot although
its comment says that it is removed (c-ares/ares_search.c:239-246); the name expansion gives up after 50 pointers and
not only when there are more of them than bytes (c-ares/ares_expand_name.c:165-170); too many groups in an IPv6 text
make the parser return 0, which is neither an error nor an address (c-ares/inet_net_pton.c:319-320).

## Model

| member | source | states |
|---|---|---|
| Channels.Run | c-ares/ares_process.c:122-152 | after any sequence of submissions, processing rounds and cancellations, over a network that may fail at any call, the channel is safe, and callbacks, submissions, answers, histories, past connections and the traffic of open ones are only ever added to; a run ends early only when a request of a cancelled query is left in a queue |
| Channels.Channel.ValidIsSafe | c-ares/ares_process.c:1411-1440 | the invariant implies: live and called-back queries partition the submitted ones, one callback each; exact indexes; no bad path; bounds on sends and waits; connections on which both ends agree; the answers processed over TCP are the messages delivered; owned requests |
| Channels.Channel.IsIndexed | c-ares/ares_send.c:113-126 | a live query is in the bucket of its id, of its deadline second and of its server, and in no other bucket |
| Channels.Channel.Send | c-ares/ares_send.c:35-131 | requests outside the size limits are called back at once with a bad-query status; any other becomes one fresh query, which is linked last and transmitted, starting from the channel's present server, or is called back with its error; the present server moves on only if servers are rotated |
| Channels.Channel.SendFirst | c-ares/ares_send.c:113-130 | linking and first sending of a new query keeps the invariant and the place of every other query |
| Channels.Channel.SendQuery | c-ares/ares_process.c:804-890 | the query ends after all its tries, or has been transmitted whole to the server that its try count says, with a deadline from now, relinked under that deadline and server; no other query comes to own a queued request; the recursion terminates |
| Channels.Channel.Transmit | c-ares/ares_process.c:812-872 | success means one more transmission in the query's history, by UDP or as the last request queued on an open connection; failure leaves the history alone |
| Channels.Channel.QueueRequest | c-ares/ares_process.c:826-853 | the framed request is last in the output queue, and the query remembers the incarnation it was queued on |
| Channels.Channel.SetDeadline | c-ares/ares_process.c:874-890 | the deadline is now plus a wait in the allowed range, and the query is linked under it and under its server and nowhere else |
| Channels.Channel.GiveUpOnServer | c-ares/ares_process.c:817-825 | after a failed send the query ends or is sent to an unbroken server that was not ruled out |
| Channels.Channel.NextServer | c-ares/ares_process.c:762-802 | the query moves one server per try, makes at least one more try, and ends exactly when all tries are used up |
| Channels.Channel.SkipServer | c-ares/ares_process.c:745-760 | only that server is ruled out, and only if there is another one |
| Channels.TurnedTwice | c-ares/ares_process.c:773-775 | moves around the list of servers add up |
| Channels.Channel.EndQuery | c-ares/ares_process.c:1364-1424 | one callback with the status, the query unlinked everywhere, all sockets closed when it was the last one, and no request of it left in any queue |
| Channels.Channel.CallBackAndFree | c-ares/ares_process.c:1411-1440 | calling back and freeing adds one callback and one final event and keeps the invariant for all others |
| Channels.Channel.HandleError | c-ares/ares_process.c:710-743 | every query of the server ends or makes a further try, on another server if there is one, and the local list is empty at the end |
| Channels.Channel.MoveStolen | c-ares/ares_process.c:729-742 | each query taken from the server still names that server when its turn comes, is ruled out from it, and leaves the local list |
| Channels.Channel.ProcessTimeouts | c-ares/ares_process.c:537-565 | although only the buckets since the last call are visited, the queries moved on are exactly those with a deadline that has passed, once each from a timeout of two milliseconds on and always if there is one server; each of them ends or makes a further try, and no field of any other query changes |
| Channels.Channel.ProcessBucket | c-ares/ares_process.c:546-563 | the walk over one bucket hands on every query that is due in that second, while queries move between buckets |
| Channels.Channel.SentNowIsLater | c-ares/ares_process.c:874-877 | a query just sent is due again at once exactly if its wait is zero, which after the first try needs a timeout of one millisecond and two servers |
| Channels.Channel.DueAgain | c-ares/ares_process.c:546-563 | a query with a zero wait has the present time as its deadline, which counts as passed, and is in the bucket of the present second, the last one walked |
| Channels.Channel.ProcessAnswer | c-ares/ares_process.c:568-668 | an answer makes the first live query with its id and questions fall back from EDNS, switch to TCP, move on, complete, or stay, by EDNS, truncation and response code; no other query changes |
| Channels.Channel.SendWithoutEdns | c-ares/ares_process.c:610-630 | when EDNS may not be understood the channel stops using it, and the query is rewritten and sent again, over the same connection if it uses TCP and that is open |
| Channels.Channel.Rewrite | c-ares/ares_process.c:619-626 | rewriting a query taints exactly the connections on which a request of it is still queued |
| Channels.Channel.FindQuery | c-ares/ares_process.c:586-607 | the walk over one bucket finds the first of all queries, in order of submission, that the answer is for |
| Channels.Channel.BucketSuffices | c-ares/ares_process.c:594-607 | the bucket of an id holds every query with that id, in the order of all queries |
| Channels.Channel.FirstAnsweredMeaning | c-ares/ares_process.c:594-607 | none is found exactly when no query matches, and the one found has no match before it |
| Channels.Channel.RetryOverTcp | c-ares/ares_process.c:632-645 | a truncated answer makes the query use TCP from then on and sends it again, to its own server unless that fails, and else to the server that its try count says |
| Channels.Channel.RejectAnswer | c-ares/ares_process.c:652-665 | an answer that tells of a failure rules the server out, and moves the query on only if it is still there |
| Channels.Channel.AcceptAnswer | c-ares/ares_process.c:647-668 | an accepted answer is called back with success and the query is freed |
| Channels.Channel.WriteOne | c-ares/ares_process.c:247-291 | a write that takes n bytes adds exactly the first n queued bytes to what was written |
| Channels.Channel.ReadOne | c-ares/ares_process.c:396-454 | a read of any chunk consumes it; it completes an answer exactly when the announced length is reached, and then that answer is the one processed, and no other; the bytes read stay in the traffic of their connection, which may have become a past one |
| Channels.Channel.Deliver | c-ares/ares_process.c:441-453 | the complete answer is the one processed, and both input buffers are empty afterwards |
| Channels.Channel.ReadUdpSocket | c-ares/ares_process.c:504-533 | the packets processed are the first ones that wait, in order; all from the server's address before any other are, unless a call fails or the socket is closed |
| Channels.Channel.ReadPacket | c-ares/ares_process.c:524-531 | one packet is processed and logged as an answer over UDP |
| Channels.Channel.ProcessBrokenConnections | c-ares/ares_process.c:671-683 | every connection that was broken is a past one afterwards |
| Channels.Channel.ProcessFds | c-ares/ares_process.c:122-134 | a round of writing, reading, timeouts and broken connections keeps the invariant and adds to the logs only |
| Channels.Channel.Cancel | c-ares/ares_cancel.c:26-63 | exactly the queries present on entry are called back as cancelled, once each and in order, and no other query is; queries submitted by their callbacks stay linked; a queued request outlives its query only if it was queued on entry, and on a channel that keeps its connections exactly then |
| Channels.Channel.CancelOne | c-ares/ares_cancel.c:47-53 | one round of the drain calls back its query only and takes it off the local list, whatever its callback submits |
| Channels.Channel.RequestsWere | c-ares/ares_cancel.c:47-53 | while callbacks submit new queries no older query comes to own a queued request, and none loses one if connections stay open |
| Channels.RequestLeftBehind | c-ares/ares_cancel.c:26-63 | for any request, a query sent over an open connection that is kept open and cancelled at once leaves a queued request that refers to it |
| Channels.NoneLeft | c-ares/ares_cancel.c:55-62 | if every queued request belongs to a query in the channel's list, no cancelled query has left one behind |
| Channels.Channel.Destroy | c-ares/ares_destroy.c:41-108 | every query is called back once, in order, all lists are empty and all connections closed |
| Channels.Channel.EmptyLists | c-ares/ares_destroy.c:59-72 | without a live query every bucket and every server list is empty |
| Channels.Channel.CloseAll | c-ares/ares_cancel.c:55-62 | closes every socket of every server and empties all output queues |
| Channels.Channel.LiveAndCalled | c-ares/ares_process.c:1411-1424 | every submitted query is live or called back, not both and never twice |
| Channels.Channel.IsLimited | c-ares/ares_process.c:762-802 | a query is sent at most nservers times tries plus one times, or plus two if it is the one that fell back from EDNS; its waits sum to no more than the budget; it used no bad path |
| Channels.Channel.AreSound | c-ares/ares_process.c:221-454 | on every connection, past or present, the delivered messages are those in the bytes read, and the peer has received the first of the requests queued |
| Queries.Query.Skip | c-ares/ares_process.c:756-759 | the table of servers to avoid and the history of the query agree |
| Queries.Query.QueuedOn | c-ares/ares_process.c:852-853 | the incarnation queued on is new to the query, or the query has just fallen back, so that the history keeps no other repetitions |
| Queries.Query.FallBack | c-ares/ares_process.c:614-630 | a fallback leaves room for one more send |
| Queries.NoRepetition | c-ares/ares_process.c:776-786 | a query that did not fall back is queued at most once on any server and connection |
| Queries.Query.SwitchToTcp | c-ares/ares_process.c:637-645 | the switch is made once and leaves room for one more send |
| Servers.Server.CloseSockets | c-ares/ares__close_sockets.c:22-61 | queue and input are dropped, the mark of brokenness is cleared, and a closed TCP connection becomes a sound past incarnation with a smaller generation |
| Servers.Server.OpenTcp | c-ares/ares_process.c:1147-1152 | a new incarnation gets a generation above all before it and starts with no traffic |
| Servers.Server.Enqueue | c-ares/ares_process.c:838-853 | written and queued bytes together are the framed requests in order, with the new one last |
| Servers.Server.AdvanceSendQueue | c-ares/ares_process.c:296-323 | exactly that many bytes leave the head of the queue, across request boundaries, and count as written |
| Servers.Server.Consume | c-ares/ares_process.c:301-322 | the loop drops whole requests and shortens one, so that the bytes left are the rest of the bytes queued |
| Servers.Server.Disown | c-ares/ares_process.c:1364-1409 | requests of an ended query become owned copies with the same bytes or zeroed entries of a broken connection; all others stay |
| Servers.Server.Rewrite | c-ares/ares_process.c:619-626 | the requests of the rewritten query hold other bytes from then on, whatever the memory held, and all others stay; the connection is tainted exactly if there were any |
| Servers.RewrittenStream | c-ares/ares_process.c:619-626 | a request that is rewritten while it is queued whole and then written puts bytes on the connection that are no prefix of what was queued, whatever stands after its new end |
| Servers.Server.ReadLength | c-ares/ares_process.c:396-427 | part of a length word keeps consumed bytes equal to delivered frames and rest |
| Servers.Server.ReadBody | c-ares/ares_process.c:428-454 | an answer is delivered exactly when as many bytes as its length word says were read |
| Servers.TrafficIsSound | c-ares/ares_process.c:221-322 | on every connection that is not tainted the bytes written are a prefix of the framed requests queued, and on every one the bytes read are the messages delivered and a rest |
| Servers.SoundEnds | c-ares/ares_process.c:396-454 | a reader of the bytes read finds the messages delivered, and a reader of the bytes written finds the first requests queued |
| Framing.DeframeExact | c-ares/ares_process.c:396-454 | a stream of non-empty frames and an unfinished rest is taken apart in one way only |
| Framing.PrefixDeframes | c-ares/ares_process.c:301-322 | whatever prefix of the framed requests a peer has received, it reads the first requests and nothing else |
| Clock.TimedOutMeaning | c-ares/ares_process.c:93-105 | the comparison of fields is the comparison of instants |
| Clock.TimeAdd | c-ares/ares_process.c:108-117 | adds exactly that many milliseconds and keeps the microseconds normalised |
| Clock.JitterStaysInRange | c-ares/ares_process.c:874-877 | the wait is between nine sixteenths and the whole of the timeout shifted by the round |
| Clock.RoundOfWaits | c-ares/ares_process.c:874-877 | a round over all servers adds one equal wait for each |
| Clock.WaitBudget | c-ares/ares_process.c:769-801 | any waits in their ranges, one for each try count, sum to at most nservers times timeout times 2^tries - 1 |
| Clock.FullBudget | c-ares/ares_process.c:874-877 | the longest waits sum to exactly that |
| Clock.ZeroWait | c-ares/ares_process.c:874-877 | some jitter makes a wait zero exactly if the timeout shifted by the round is at most one millisecond |
| Clock.LaterWaits | c-ares/ares_process.c:874-877 | no jitter makes the wait of a later try zero exactly if the timeout is at least two milliseconds or there is one server |
| Indexes.Links.InsertOk | c-ares/ares_send.c:119-126 | linking a new query keeps the lists free of repetitions and the id buckets exact |
| Indexes.Links.MoveOk | c-ares/ares_process.c:878-890 | relinking leaves the query in one deadline bucket and one server list |
| Indexes.Links.FreeOk | c-ares/ares_process.c:1426-1440 | freeing takes the query out of every list and leaves the order of the others |
| Indexes.Links.StealOk | c-ares/ares_process.c:727-728 | swapping a server's list with the local one leaves every query linked as before |
| Indexes.Links.OthersStay | c-ares/ares_llist.c:46-62 | moving or freeing one query does not touch where another one is linked |
| LinkedLists.InsertInList | c-ares/ares_llist.c:46-52 | the node is linked before the given one, and the ring is closed both ways |
| LinkedLists.RemoveFromList | c-ares/ares_llist.c:55-62 | the ring without the node is closed both ways, and a node in no list is left alone |
| LinkedLists.Ends | c-ares/ares_llist.c:41-43 | the test for emptiness is right |
| LinkedLists.SwapLists | c-ares/ares_process.c:686-708 | the two heads exchange their nodes, empty or not |
| LinkedLists.MoveHead | c-ares/ares_cancel.c:40-46 | all nodes move to a local head in order, and the old head is empty |
| LinkedLists.Family.Remove | c-ares/ares_llist.c:55-62 | in a family of lists a node is unlinked from whichever list holds it, and all others stay as they are |
| LinkedLists.Family.LinkLast | c-ares/ares_llist.c:46-52 | inserting before a head appends to that list and changes no other |
| LinkedLists.Family.Elements | c-ares/ares_destroy.c:51-58 | walking from head to head gives the elements in order |
| LinkedLists.Family.Swap | c-ares/ares_process.c:686-708 | two lists of a family exchange their contents |
| LinkedLists.Apart | c-ares/ares_llist.c:22-24 | different lists have no node in common |
| LinkedLists.NodesWithout | c-ares/ares_llist.c:55-62 | unlinking a node is unlinking its element |
| QueryLists.Linkage.Insert | c-ares/ares_send.c:113-126 | the pointer operations on submission have the effect of Links.Insert on the contents of all lists |
| QueryLists.Linkage.Move | c-ares/ares_process.c:878-890 | those on sending have the effect of Links.Move |
| QueryLists.Linkage.Free | c-ares/ares_process.c:1426-1433 | those on freeing have the effect of Links.Free |
| QueryLists.Linkage.Steal | c-ares/ares_process.c:727-728 | those on an error have the effect of Links.Steal |
| QueryLists.Linkage.Detach | c-ares/ares_cancel.c:40-46 | those on a cancellation have the effect of Links.Detach |
| QueryLists.MovesRefine | c-ares/ares_process.c:878-890 | relinking in the table of all lists is relinking in the links, the local list of an error included |
| QueryLists.StealRefines | c-ares/ares_process.c:727-728 | a swap in the table of all lists is the theft of a server's list |
| Names.CreateQuery | c-ares/ares_create_query.c:87-201 | succeeds exactly for names of proper labels and at most 255 bytes; the message is the header, the labels of the text and the question, and no write leaves the buffer |
| Names.CountLabel | c-ares/ares_create_query.c:141-148 | counts the unescaped bytes of the next label |
| Names.CopyLabel | c-ares/ares_create_query.c:155-161 | writes the label unescaped, as many bytes as were counted |
| Names.NameLength | c-ares/ares_expand_name.c:143-198 | fails exactly if no name of proper labels can be read there; otherwise it is the length of the text; reads only inside the message and terminates |
| Names.WriteName | c-ares/ares_expand_name.c:101-137 | writes exactly the dotted text into a buffer of the measured size, and finds the length of the encoded name |
| Names.ExpandName | c-ares/ares_expand_name.c:65-138 | the text of the labels with one NUL, in a buffer of the measured size; the encoded name ends inside the message |
| Names.EncodedInside | c-ares/ares_expand_name.c:128-129 | an encoded name is not empty and lies inside its message |
| Names.TextRoundTrip | c-ares/ares_create_query.c:134-167 | the escaped dotted text of proper labels is read as those labels |
| Names.WireRoundTrip | c-ares/ares_expand_name.c:152-192 | labels written into a message are read back, whatever stands around them |
| Names.NameRoundTrip | c-ares/ares_create_query.c:101-195 | proper labels of at most 255 bytes survive text, message and back, and the encoded length is the length on the wire |
| Names.QueryAndExpand | c-ares/ares_expand_name.c:101-137 | expanding the name of a built query gives the text it was built from |
| Names.LabelsThere | c-ares/ares_expand_name.c:65-138 | any proper labels without NUL go into a query and come back as their text, with the length of their encoding, exactly if that has at most 255 bytes |
| Questions.EchoedQuestionsMatch | c-ares/ares_process.c:1249-1326 | an answer that repeats all questions of a query, any number of them with proper names, asks the same questions |
| Questions.WrittenQuestion | c-ares/ares_process.c:1270-1289 | a question written into a message is read back with its type, class and end |
| Inet.FindRun | c-ares/inet_ntop.c:131-154 | finds the leftmost longest run of at least two zero groups, or that there is none |
| Inet.BestRunUnique | c-ares/inet_ntop.c:131-154 | there is only one such run |
| Inet.MakeWords | c-ares/inet_ntop.c:128-130 | the groups are the big-endian pairs of bytes |
| Inet.Format | c-ares/inet_ntop.c:156-186 | the loop prints the groups, the run as two colons and an embedded IPv4 address |
| Inet.Ntop6 | c-ares/inet_ntop.c:107-197 | prints with the best run, always fits in 46 characters, and its text is parsed back to the same address |
| Inet.TextRoundTrip6 | c-ares/inet_net_pton.c:284-378 | every address printed with any run of zero groups, or none, is parsed back to 128 bits and the same bytes |
| Inet.ParseV6 | c-ares/inet_net_pton.c:269-396 | the parser over its buffer of 16 bytes computes the function that the round trip is about; where it would write in front of the buffer that is the result |
| Bounds.OutsideExactly | c-ares/inet_net_pton.c:348-374 | the parser writes in front of its buffer exactly for texts of at most eight groups with more than two groups after the two colons and a prefix length that does not reach into the last of them |
| Bounds.OutsideExample | c-ares/inet_net_pton.c:357-370 | ::1:2:3/0 is such a text |
| Inet.ReadGroups | c-ares/inet_net_pton.c:299-340 | the loop over the characters stores the groups read so far and zeros after them |
| Inet.ParseV4 | c-ares/inet_net_pton.c:226-266 | stores exactly the octets of a dotted text at its place in the buffer |
| Inet.ParseBits | c-ares/inet_net_pton.c:194-223 | a prefix length in decimal without leading zeros, at most 128 |
| Inet.ShiftInPlace | c-ares/inet_net_pton.c:357-374 | the shift by hand moves the bytes one by one, the last one first |
| Inet.ShiftSpreads | c-ares/inet_net_pton.c:357-374 | moving the bytes one by one puts the zeros of the two colons between them |
| Inet.Print4Reads | c-ares/inet_net_pton.c:226-266 | a printed IPv4 address is read back by the parser for embedded addresses |
| Networks.ParseIpv4 | c-ares/inet_net_pton.c:69-191 | the parser computes the function that the round trips are about, and writes only the octets of the network |
| Networks.ParseDecimal | c-ares/inet_net_pton.c:104-129 | dotted decimal octets are stored in order, and too many or too large ones fail |
| Networks.ParseHex | c-ares/inet_net_pton.c:79-103 | pairs of hexadecimal digits are stored in order, an odd last one as a high half |
| Networks.ExtendMeaning | c-ares/inet_net_pton.c:176-181 | zeros are added up to the width, which must fit |
| Networks.NetworkRoundTrip | c-ares/inet_net_pton.c:104-181 | octets in decimal, with a width or with the width by class, are read back, and it is too big exactly when they or the width do not fit |
| Networks.HexRoundTrip | c-ares/inet_net_pton.c:79-103 | octets in hexadecimal are read back with the width by class |
| Networks.TextRoundTrip4 | c-ares/inet_ntop.c:87-99 | a printed IPv4 address is read back as 32 bits and the same octets |
| Sorting.BitNCmp | c-ares/bitncmp.c:36-58 | zero exactly when the first n bits agree, and otherwise the sign of the first difference |
| Sorting.AddressIndex | c-ares/ares_gethostbyname.c:448-518 | the first pattern of the family that matches, or the number of patterns |
| Sorting.SortAddresses | c-ares/ares_gethostbyname.c:418-499 | the array becomes a permutation in the order of the indexes that keeps the order of equal indexes |
| Sorting.InsertBack | c-ares/ares_gethostbyname.c:429-442 | the address is moved back over those of greater index only |
| Sorting.OneResult | c-ares/ares_gethostbyname.c:418-499 | order and stability leave only one result |
| Sorting.StableKeepsElements | c-ares/ares_gethostbyname.c:418-499 | a stable permutation has the same addresses, as often |
| Searching.Search.constructor | c-ares/ares_search.c:82-136 | the search starts with the first candidate: the name as it is if it has enough dots, or else the name in the first domain |
| Searching.Search.Callback | c-ares/ares_search.c:138-198 | an answer leads to the next candidate or to the one call of the caller, with the status of the answer that stopped the search or of the name as it is |
| Searching.RunSearch | c-ares/ares_search.c:98-206 | in a whole search the names asked are the first candidates in order, up to the first answer that is not soft; the caller gets that answer, or else the status of the name as it is, or no data if that was not found and some name had data of another type; with the sum of all timeouts |
| Searching.StopsOnce | c-ares/ares_search.c:145-196 | for any answers there is only one place to stop |
| Searching.SingleDomain | c-ares/ares_search.c:228-316 | there is a search exactly if the name has no trailing dot and no alias, searching is not switched off and there are domains; otherwise the alias or the name itself is queried |
| AddressReply.ParseReply | c-ares/ares_parse_a_reply.c:49-264 | status, name, aliases, addresses and capped times to live are those of the records, and a bad response is exactly one that cannot be read |
| AddressReply.ReadAnswers | c-ares/ares_parse_a_reply.c:120-206 | the walk reads all records or fails, and gathers what they say so far |
| AddressReply.ReadRecord | c-ares/ares_parse_a_reply.c:123-144 | a record is read inside the message only |
| AddressReply.CapTtls | c-ares/ares_parse_a_reply.c:215-225 | each reported time to live is the least of the record's and that of the aliases |
| AddressReply.HostIsLatest | c-ares/ares_parse_a_reply.c:185-191 | the host is the target of the latest alias |
| AddressReply.HostIsQuestion | c-ares/ares_parse_a_reply.c:81-91 | without an alias the host is the name asked for |
| AddressReply.ChosenMeaning | c-ares/ares_parse_a_reply.c:146-174 | the addresses are, in order, those of exactly the address records that belong to the host as it was then |
| AddressReply.AliasTtlIsLeast | c-ares/ares_parse_a_reply.c:193-195 | the limit is the least time to live of the aliases |
| AddressReply.AliasesMeaning | c-ares/ares_parse_a_reply.c:178-183 | the aliases are, in order, the owners of exactly the alias records |

## Findings

Where the code does not meet a property, the model keeps the code, and these members say when.

| property | when it holds | an example that it fails |
|---|---|---|
| the IPv6 parser writes inside its buffer | `Bounds.OutsideExactly`: unless more than two groups follow the two colons and the prefix length ends before the last of them | `Bounds.OutsideExample` |
| a queued request belongs to a live query, to none, or is a copy, also after a cancellation | `Channels.Channel.Cancel`: on a channel that keeps connections open, exactly if no cancelled query has a queued request on entry; on any other, if there is none on entry or no query is left at the end | `Channels.RequestLeftBehind` |
| the bytes written are a prefix of the framed requests, also with EDNS | `Channels.Channel.Rewrite`: on all connections but those with a queued request of the query that falls back | `Servers.RewrittenStream` |
| a query is queued at most once on a connection, also with EDNS | `Queries.NoRepetition`: for every query but the one that falls back | `Channels.Channel.SendWithoutEdns`: that one is queued again on the connection of its server if that is open |
| a query is handed on at most once in a round of timeouts | `Channels.Channel.ProcessTimeouts`: if the timeout is at least two milliseconds or there is one server, which is exactly when no later wait can be zero (`Clock.LaterWaits`) | `Clock.ZeroAtOne` and `Channels.Channel.DueAgain`: the second try on several servers with a timeout of one millisecond may get a zero wait, and is then due again in the bucket being walked |

## Left out

- Sockets, `select` sets, their options, state callbacks and user-supplied socket functions: an arbitrary choice takes their place.
- The clock is a parameter that does not go back and starts above zero; integers are unbounded, so that shifts of the timeout and generations do not wrap around.
- Failures of memory allocation, except for the vector of a TCP write and for the copy of a request when a query ends.
- Callbacks that call the library, except that those of a cancellation submit new queries.
- Channels.Run: ends when a cancellation has left a request of a cancelled query in a queue, because c-ares writes from freed memory then.
- Channels.Channel.Rewrite: the bytes that c-ares sends for a request that is rewritten while it is queued lie in a buffer that may have moved; the model takes them to be any bytes.
- Channels.Channel.SendQuery: the bound on sends is proved to hold, and not that some run reaches it.
- Query ids are not claimed to be unique; the engine does without that.
- The request of a query is the one submitted or, for the one query that the channel notes as rewritten, that request without EDNS; requests queued on TCP hold its bytes by value, and `Servers.Server.Disown` tells when one stops referring to its query.
- The input buffers for the length word and the answer are sequences of the bytes read so far.
- The engine works on the sequences of `Links`; `QueryLists` proves that the pointer operations have the same effect, as separate members.
- Inet.ParseV6: nothing is said about what happens after a write in front of the buffer, and no claim is made about which other malformed texts are rejected.
- Networks.ParseIpv4: characters are those of one-byte text, and the error numbers are kept apart from other errors of the library.
- Sorting.SortAddresses: one member stands for the IPv4 and the IPv6 sort, and addresses are sequences of bytes in network order.
- Searching.SingleDomain: the alias that a file named in the environment gives for a name is a parameter.
- AddressReply.ParseReply: always builds the host; the variant without one only counts. Its result is a value and not a structure of pointers.
- Configuration files, hosts files, environment variables, other record types, address-info lookups, the random generator, TLS, the command-line tools, and the eXosip interface.
