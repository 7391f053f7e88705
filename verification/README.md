# Verification of the engine

The engine is a C and C++ networking engine: an HTTP/1.1 parser, WebSocket parsers and writers for both roles, a
publish/subscribe tree, a URL router, an outbound client, and an event loop with timers.  Its parsers are incremental,
its buffers and its cork buffer are shared, and its handlers may call back into it.  This project models that code in
Dafny and proves what it is there for.

Code that works by changing things step by step is modelled by classes and loops.  Their contracts tie the new state
to a function of the old one, or to a reference that is easy to read, and what is promised is proved of that reference:

- The HTTP, chunked and WebSocket parsers work on whole reads and in place.  Each is proved equal to a parser that
  takes one octet at a time.  As that one is a fold, the way a stream is cut into reads cannot matter, and a stream
  that is well-formed by the grammar is shown to be delivered whole and in order.
- The publish/subscribe tree, connect requests, outbound connections and timer sweeps run handlers that may do anything
  they are allowed to do, again and again.  The handlers are a script: each call takes its next entry.  Every theorem
  holds for all scripts, and what it exempts is bounded by what the script says: who stops, frees or sets what.
- The matching tree of the router, the tree of server names, SHA-1 and the UTF-8 checker are proved against a list of
  patterns, a list of names, FIPS 180-4 and the grammar of RFC 3629.

Where a property fails, the input is given and the condition under which it holds is proved to be exact:

- A chunk-size line that is cut behind a CR may be read as another size (`ChunkedGrammar.CutAfterCrIsInvisibleIff`).
- A size of 2^60 - 2 or more does not fit the state word (`ChunkedGrammar.SizeLineFitsIff`).
- The filter for repeated headers may be mistaken: a request with `Hast: 1` before its one `Host` is refused
  (`HttpStream.HastRefusesHost`, `HttpStream.JudgedByFramingIff`).
- Whether a malformed head is refused may depend on where the read ends: exactly if its request line has a CR where the
  version should be and eleven octets behind that (`HttpHead.LineRefusalIsCutIff`, `HttpHead.RefusalIsCutIff`, with the
  input of `HttpHead.RefusalIsCut`).  All other streams are refused by every cut or by none, and so the theorems on
  requests say when they are refused, too.
- Without an ANY node the routes of the last method answer for every method (`HttpRouter.PutIsAnsweredByGet`,
  `HttpRouter.MethodsRespectedIff`).
- A publish that has to drain first may meet a topic erased by the handlers it called: some handler does so whenever
  65535 messages are stored and a subscriber waits (`TopicTree.TopicTree.PublishIntoTheVoid`, `TopicTree.MeetErased`),
  and none in any other case (`TopicTree.TopicTree.Publish`).
- The index of a stored message is cut to 16 bits.  If no batch the message is meant for is full, that changes it
  exactly if more than 65535 messages are stored (`TopicTreeChain.CutExactly`), for which someone must have been freed
  (`TopicTreeRuns.RunDelivers`).  In the run of `TopicTreeRuns.MeetCut` a subscriber is given the first of the stored
  messages in place of its own.
- Subscribing or leaving at once, past a queued change of the same pair, breaks the relation
  (`TopicRelation.ToggleExact`); outside a replay handlers cannot meet that case (`TopicTree.TopicTree.Act`), and
  inside one they can (`TopicTree.MeetQueued`).  The model notes such a change and does not make it, so what is proved of
  runs is proved of those of the source in which nothing is noted; a run in which no handler subscribes anyone or has
  anyone leave is one of these (`TopicTreeRuns.RunDelivers`).
- A timeout above 16 minutes comes too early, and so does a long one above four hours; an idle timeout closes when it
  says for 5 to 976 seconds with pings, and up to 960 without (`TimerWheel.RingsWhenSetIff`,
  `TimerWheel.RingsWhenSetLongIff`, `TimerWheel.IdleWebSocketClosesIff`).

The files follow the source: `ChunkedEncoding`, `ChunkedGrammar`, `BloomFilter`, `HttpHead`, `HttpGrammar`,
`HttpStream`, `HttpParser`; `Utf8`, `Masking`, `WebSocketStream`, `WebSocketParser`, `WebSocketConversation`,
`WebSocketFormat`, `WebSocketHandshake`; `TopicRelation`, `TopicTreeState`, `TopicTreeStory`, `TopicTreeSolo`,
`TopicTreeChain`, `TopicTree`, `TopicTreeRuns`; `ConnectState`, `ConnectRequests`, `OutboundClient`; `AsyncSocket`;
`UrlSegments`, `RouteTree`, `RouteRegistry`, `HttpRouter`; `TimerWheel`, `TimerSweep`; `SniTree`; with `Bytes` and
`IntrusiveList` below them.

## Model

| member | source | states |
|---|---|---|
| ChunkedEncoding.ConsumeSegments | native/uwebsockets/ChunkedEncoding.h:29-178 | The packed-word decoder, run on one segment after the other, makes the calls of the octet-at-a-time decoder on the whole, ends in its state and stops where it stops, for every cut; if it fails, all was handed over but octets of the chunk it fails in |
| ChunkedEncoding.ConsumeChunkedBody | native/uwebsockets/ChunkedEncoding.h:103-178 | One segment: from the word that encodes a state to the word that encodes the state reached, with the calls and the rest of the octet-at-a-time run, and an error if and only if that fails |
| ChunkedEncoding.SizeLineRefines | native/uwebsockets/ChunkedEncoding.h:29-78 | A size line read on the packed word ends where the octet-at-a-time decoder does: in the size with its CRLF, in the trailer with the end mark, in an error, or still in the line |
| ChunkedEncoding.EndLineWord | native/uwebsockets/ChunkedEncoding.h:71-77 | Ending a size line adds the two octets of CRLF to the size unless the sum needs a 61st bit; then the carry sets the trailer flag |
| ChunkedEncoding.PlusTwoIs64Bit | native/uwebsockets/ChunkedEncoding.h:71-77 | The two fields of the word, with the carry between them, add as the 64-bit number does |
| ChunkedEncoding.SegmentationInvisible | native/uwebsockets/ChunkedEncoding.h:103-178 | Of the octet-at-a-time decoder: however the input is cut, it ends in one state, delivers one thing and leaves one rest; the bulk decoder gets this through ConsumeSegments |
| ChunkedGrammar.ReadBody | native/uwebsockets/ChunkedEncoding.h:103-178 | Every body of the grammar of section 7.1 of RFC 9112, followed by anything and cut in any way, reaches the data handler as its octets and one end mark, and what follows the trailer is left |
| ChunkedGrammar.ValidBodyDelivered | native/uwebsockets/ChunkedEncoding.h:103-178 | The same of the octet-at-a-time decoder |
| ChunkedGrammar.TrailerConsumedExactly | native/uwebsockets/HttpParser.h:179-216 | The trailer automaton stops exactly behind the first CRLF at its start, or else behind the first CRLFCRLF, and only there |
| ChunkedGrammar.CutAfterCrIsInvisibleIff | native/uwebsockets/ChunkedEncoding.h:29-78 | A size line cut behind a CR ends with the size it has uncut if and only if what follows the CR up to the next CR, semicolon or LF is empty, or is zeros after a size of zero |
| ChunkedGrammar.EveryCutIsInvisibleIff | native/uwebsockets/ChunkedEncoding.h:29-78 | No cut behind the CR can be seen if and only if every octet there may be skipped or read, which is what the octet-at-a-time decoder calls in scope |
| ChunkedGrammar.SizeLineFitsIff | native/uwebsockets/ChunkedEncoding.h:24-78 | After its size line a chunk is counted right if and only if its size is below 2^60 - 2 |
| ChunkedGrammar.Echo | native/uwebsockets/HttpResponse.h:461-496 | What the chunk writer puts on the wire for any writes, one of them not empty, and `end`, is read by the bulk decoder as the concatenation of what was written and one end mark, for every cut |
| ChunkedGrammar.Respond | native/uwebsockets/HttpResponse.h:102-121 | The wire of a response in chunks: a frame for each write that is not empty, one for the last data, and the last chunk |
| ChunkedGrammar.ChunkWriter.WriteUnsignedHex | native/uwebsockets/HttpResponse.h:40-52 | The hexadecimal digits of a size, without leading zeros |
| ChunkedGrammar.WriterRoundTrip | native/uwebsockets/HttpResponse.h:461-496 | The frames of any writes, one of them not empty, decode octet by octet to their concatenation, one end mark and nothing left |
| BloomFilter.AddedMightBe | native/uwebsockets/BloomFilter.h:35-57 | A name that was added might be there, and so might every name of one octet |
| BloomFilter.SameFeaturesMightBe | native/uwebsockets/BloomFilter.h:25-57 | So might a name that was not added but has the same first, last, last but one and middle octet |
| HttpHead.GetHeaders | native/uwebsockets/HttpParser.h:356-470 | The scans over the fenced buffer give the request line, the fields and the length the grammar gives, or say incomplete or refused, and lower-case the names read and nothing else |
| HttpHead.HeadCut | native/uwebsockets/HttpParser.h:356-470 | A head that parses is incomplete, and not refused, any octet short; octets behind it change nothing |
| HttpHead.LowerNamesUnseen | native/uwebsockets/HttpParser.h:264-290 | A buffer whose names were lower-cased by a parse that failed parses as the octets received, whatever follows |
| HttpHead.RefusalIsCutIff | native/uwebsockets/HttpParser.h:356-470 | Some read that ends early gets a head refused that is not refused at hand if and only if its request line has a CR for the version and eleven octets behind that; fields are refused alike by every cut |
| HttpHead.LineRefusalIsCutIff | native/uwebsockets/HttpParser.h:293-338 | The same of the request line alone |
| HttpHead.RefusalExtend | native/uwebsockets/HttpParser.h:356-470 | Any other refused head stays refused, with the same error, whatever follows |
| HttpHead.RefusalIsCut | native/uwebsockets/HttpParser.h:293-338 | An input: a malformed request line that is refused if the read ends behind it, and waited on if more follows in the same read |
| HttpGrammar.AcceptedIff | native/uwebsockets/HttpParser.h:293-470 | The parser takes exactly the heads that the grammar writes, each for the request it stands for |
| HttpGrammar.WhitespaceDropped | native/uwebsockets/HttpParser.h:436-448 | The optional whitespace of section 5.5 of RFC 9110 around a value is not part of it |
| HttpStream.ReadsInvisible | native/uwebsockets/HttpParser.h:674-742 | Of the octet-at-a-time request parser: read boundaries do not matter |
| HttpStream.ClearIff | native/uwebsockets/HttpParser.h:293-338 | A run is clear if and only if at no point of it the head begun there has, with all that follows, a CR for its version |
| HttpStream.StreamDelivered | native/uwebsockets/HttpParser.h:477-632 | A stream of pipelined requests with heads and bodies of the grammar comes to exactly those requests, their bodies and one end mark each |
| HttpStream.StreamRefused | native/uwebsockets/HttpParser.h:477-560 | After any such requests, one with a repeated, missing or conflicting header, a length that is none, or one the filter mistakes, is refused, with all before it delivered and whatever follows |
| HttpStream.JudgedByFramingIff | native/uwebsockets/HttpParser.h:499-560 | A request whose headers are in order is treated as they say if and only if the filter does not take a header that is there once for a repeated one |
| HttpStream.HastRefusesHost | native/uwebsockets/HttpParser.h:499-509 | One `Host` header after a `Hast` header is refused, though the request is in order |
| HttpParser.HttpParser.FindRepeated | native/uwebsockets/HttpParser.h:499-509 | The loop over the filter refuses exactly if a header that must be unique might, by the filter, have come before |
| HttpParser.HttpParser.ConsumeStreamingBody | native/uwebsockets/HttpParser.h:635-671 | A read inside a body hands over what the octet-at-a-time parser delivers and keeps its state in the counter and the trailer byte, or is refused where that one refuses it |
| HttpParser.HttpParser.FenceAndConsume | native/uwebsockets/HttpParser.h:477-632 | Every head and body at hand is handled as by the octet-at-a-time parser, up to an incomplete head or to where that one refuses |
| HttpParser.HttpParser.ConsumePostPadded | native/uwebsockets/HttpParser.h:674-742 | One read, with whatever is buffered from earlier ones: the calls made and the state kept are those of the octet-at-a-time parser, it is refused if and only if that one refuses it, and a pending body leaves the fallback empty |
| HttpParser.HttpParser.Receive | native/uwebsockets/HttpParser.h:674-742 | Any number of reads come to the run on their concatenation, and are refused if and only if it is, with the calls made before that |
| HttpParser.HttpParser.Serve | native/uwebsockets/HttpParser.h:674-742 | Well-formed pipelined requests, cut in any way, are delivered each with its body and one end mark, without an error |
| HttpParser.HttpParser.Refuse | native/uwebsockets/HttpParser.h:674-742 | A request that must be refused for its headers is refused, however the reads cut the stream, and exactly what came before it is delivered |
| Utf8.IsValidUtf8 | native/uwebsockets/WebSocketProtocol.h:116-156 | The checker with its word test and its masked tests accepts exactly the strings of section 4 of RFC 3629 |
| Masking.UnmaskFrame | native/uwebsockets/WebSocketProtocol.h:294-329 | A whole frame is unmasked by the word and moved over its header; nothing before the header and nothing behind the payload changes |
| Masking.UnmaskPart | native/uwebsockets/WebSocketProtocol.h:339-347 | A read inside a frame is unmasked with the key as it is rotated, all of it |
| Masking.UnmaskRest | native/uwebsockets/WebSocketProtocol.h:414-446 | The rest of a frame is unmasked and not an octet behind it |
| Masking.RotateMask | native/uwebsockets/WebSocketProtocol.h:331-337 | The key is rotated to where the payload goes on |
| Masking.MaskedConcat | native/uwebsockets/WebSocketProtocol.h:331-347 | Masking in two pieces, the second with the rotated key, is masking the whole |
| Masking.MaskedTwice | native/uwebsockets/WebSocketProtocol.h:258-264 | Masking is its own inverse |
| WebSocketStream.ReadsInvisible | native/uwebsockets/WebSocketProtocol.h:467-508 | Of the octet-at-a-time frame parser: read boundaries do not matter |
| WebSocketStream.FragmentBufferBound | native/uwebsockets/WebSocketContext.h:43-222 | A message and the control payload kept behind it never exceed the limit on messages and 125 octets |
| WebSocketParser.WebSocketParser.HandleFragment | native/uwebsockets/WebSocketContext.h:43-222 | A piece of a frame takes the fragment buffer and the calls made to where the octet-at-a-time parser is |
| WebSocketParser.WebSocketParser.ConsumeMessage | native/uwebsockets/WebSocketProtocol.h:349-405 | A frame, whole or its first part, is absorbed in place as the octet-at-a-time parser absorbs it |
| WebSocketParser.WebSocketParser.ConsumeContinuation | native/uwebsockets/WebSocketProtocol.h:414-460 | So is the rest of a frame, and the octets behind it are untouched |
| WebSocketParser.WebSocketParser.Consume | native/uwebsockets/WebSocketProtocol.h:467-508 | One read in its buffer, with a header kept from the last one, takes the parser to the state, and makes the calls, of the octet-at-a-time parser |
| WebSocketParser.WebSocketParser.Receive | native/uwebsockets/WebSocketProtocol.h:467-508 | Any number of reads come to the run on their concatenation |
| WebSocketConversation.Converse | native/uwebsockets/WebSocketContext.h:43-222 | A frame sequence legal under section 5.4 of RFC 6455, with control frames between fragments and cut in any way, is delivered as exactly its messages, each the concatenation of its fragments with the first opcode, and its control payloads, in order; control payloads are at most 125 octets and at most the limit on messages, which the code puts on them too |
| WebSocketConversation.Overrun | native/uwebsockets/WebSocketProtocol.h:349-405 | After any such frames one of more octets than the limit, a control frame too, closes the connection, however it is cut, with all before it delivered |
| WebSocketConversation.OverlongRefused | native/uwebsockets/WebSocketProtocol.h:349-405 | The same of the octet-at-a-time parser |
| WebSocketConversation.CloseDelivered | native/uwebsockets/WebSocketProtocol.h:166-184 | A close frame ends the connection with the code and reason it carries, or those of a malformed one; what follows is ignored |
| WebSocketFormat.FormatMessage | native/uwebsockets/WebSocketProtocol.h:214-266 | The header and the payload, masked in place by a client, are the encoding of the frame, and nothing else in the buffer changes |
| WebSocketFormat.FrameSize | native/uwebsockets/WebSocketProtocol.h:196-205 | The encoding is as long as the room reserved for it, across 125, 65535 and 64 bits |
| WebSocketFormat.HeaderRoundTrip | native/uwebsockets/WebSocketProtocol.h:214-266 | The parser of the other role reads opcode, fin, length and key back, whatever follows |
| WebSocketFormat.PayloadRoundTrip | native/uwebsockets/WebSocketProtocol.h:214-266 | And unmasks the payload that was given |
| WebSocketHandshake.Sha1Block | native/uwebsockets/WebSocketHandshake.h:24-82 | The unrolled rounds over a rolling schedule of sixteen words and rotating registers are the compression of section 6.1.2 of FIPS 180-4 |
| WebSocketHandshake.BlkIs | native/uwebsockets/WebSocketHandshake.h:24-27 | The word computed over the oldest of sixteen is the word of the schedule of eighty |
| WebSocketHandshake.MessageBlocks | native/uwebsockets/WebSocketHandshake.h:99-123 | The two blocks built in place are the padded message of key and GUID |
| WebSocketHandshake.Encode20 | native/uwebsockets/WebSocketHandshake.h:84-97 | Twenty octets in base 64, with its padding, by section 4 of RFC 4648 |
| WebSocketHandshake.Generate | native/uwebsockets/WebSocketHandshake.h:99-123 | For every key, the base 64 of the SHA-1 of key and GUID, as section 4.2.2 of RFC 6455 asks |
| AsyncSocket.BackPressure.Erase | native/uwebsockets/AsyncSocketData.h:16-51 | Erasing takes octets off the front; at most a 32nd of the buffer waits for removal, and compaction has moved fewer than 31 octets for each one erased |
| AsyncSocket.AsyncSocket.Write | native/uwebsockets/AsyncSocket.h:271-348 | What was sent, waits, and is corked grows by exactly the octets reported as accepted, in order; a mandatory write fails exactly if something is left waiting |
| AsyncSocket.AsyncSocket.Uncork | native/uwebsockets/AsyncSocket.h:351-384 | The cork buffer goes before what is written next, and is free afterwards |
| AsyncSocket.AsyncSocket.GetSendBuffer | native/uwebsockets/AsyncSocket.h:137-172 | Room for a frame behind all that was accepted, in the cork buffer or in the queue behind what was corked |
| AsyncSocket.AsyncSocket.Send | native/uwebsockets/WebSocket.h:84-192 | A message is dropped whole or its frame is accepted whole, on each of its ways |
| AsyncSocket.Sockets.Perform | native/uwebsockets/AsyncSocket.h:103-172 | One request to one of the sockets that share a cork buffer: each open one has sent, queued or corked exactly what was accepted from it, in order, whatever the kernel takes and whatever the others do; what counts as accepted is what the answer of the call says, all of it unless the write was optional or the message dropped, and nothing fails if the kernel takes all |
| AsyncSocket.Sockets.Serve | native/uwebsockets/AsyncSocket.h:103-384 | The same over every sequence of requests, each socket being owed just what the answers to its own requests add up to; it ends early only at a `cork` that would end the process |
| TopicRelation.AtRest | native/uwebsockets/TopicTree.h:242-272 | With nothing queued, a subscriber is in a topic's set if and only if the topic is in the subscriber's set, and no topic is empty |
| TopicRelation.CountIsHolders | native/uwebsockets/TopicTree.h:232-240 | The members of a topic and the queued changes add up to the number of subscribers that hold it |
| TopicRelation.ToggleExact | native/uwebsockets/TopicTree.h:242-272 | Subscribing or leaving at once keeps the relation if and only if no change of the same pair is queued |
| TopicTreeState.MissBreaks | native/uwebsockets/TopicTree.h:242-272 | Every change that `Act` notes and does not make would have had the topic held by others than its set and the queue come to |
| TopicTree.MeetQueued | native/uwebsockets/TopicTree.h:199-214 | A run of calls from an empty tree that gets there: a handler called by the replay subscribes while the change that left the same topic is still queued |
| TopicRelation.ReplayNext | native/uwebsockets/TopicTree.h:199-214 | Making the next queued change and crossing it out leaves what the queue comes to |
| TopicTreeState.RestingRelation | native/uwebsockets/TopicTree.h:242-272 | In every state between deliveries: the two sets agree, no topic is empty, and names lead to topics one to one |
| TopicTreeState.FirstInFirstOut | native/uwebsockets/TopicTree.h:105-122 | In every such state, what was published to a subscriber that never stopped a batch is what it has received, then what its indices stand for, in order; there are at most 32, of 16 bits and in range; who stopped one is exactly who the script has do so (TopicTreeRuns.RunDelivers) |
| TopicTreeChain.ReplayAnswers | native/uwebsockets/TopicTree.h:199-214 | A replay, taken entry by entry from the tree it starts in, with each change made and each hand-out beginning in the tree the one before has left, answers just the calls it hands out, in this order |
| TopicTreeStory.UndisturbedPublish | native/uwebsockets/TopicTree.h:336-373 | If no handler reacts to a call, its message goes to every member of the topic but the sender |
| TopicTreeRuns.RunDelivers | native/uwebsockets/TopicTree.h:193-312 | After any run of calls, chained tree by tree: what handlers published has been handed out, each call once and in order; whoever no reaction of its own had stop a batch has received, or has waiting, exactly what was handed out to it, in order; an index is cut only in a hand-out that met more than 65535 messages and only if someone was freed; and each handler called stopped exactly if the script said so; every change that was noted, and that the source makes, breaks the relation, and if the script subscribes no one and has no one leave there is none |
| TopicTreeRuns.Play | native/uwebsockets/TopicTree.h:242-373 | Creating, subscribing, leaving, publishing, draining and freeing in any order, with any handlers, is such a run, after which the relation is at rest; unless a topic is erased under a `publish`, and then it is one up to that call, which is shown to lose its topic; it is a run of the source unless a change was noted, of which the same is said |
| TopicTreeChain.PublishSum | native/uwebsockets/TopicTree.h:336-373 | A call of `publish` with all it drains and replays: nobody is due anything but what its hand-outs say, handlers take their reactions one after the other and only those that say so stop or free, and indices are only cut in hand-outs that meet more than 65535 messages |
| TopicTreeChain.PublishAnswers | native/uwebsockets/TopicTree.h:336-373 | All its hand-outs but its own answer queued calls of handlers, in order, each once |
| TopicTreeChain.CutExactly | native/uwebsockets/TopicTree.h:336-373 | If no batch it is meant for is full, a hand-out calls no handler, reaches every member but the sender, and cuts an index if and only if more than 65535 messages are stored and it reaches someone |
| TopicTreeRuns.MeetCut | native/uwebsockets/TopicTree.h:336-373 | A run of calls from an empty tree in which the one subscriber left, due one message, is given another |
| TopicTreeStory.ServedNow | native/uwebsockets/TopicTree.h:290-312 | A subscriber without indices that stopped no batch has received all that was due to it, as long as no index was cut |
| TopicTreeStory.SomeHandlerErases | native/uwebsockets/TopicTree.h:347-352 | Whenever a drain comes first, a handler that has all members leave erases the topic that was looked up |
| TopicTree.TopicTree.NumSubscribers | native/uwebsockets/TopicTree.h:232-240 | At any moment, inside deliveries too, the number of subscribers that hold the topic |
| TopicTree.TopicTree.Subscribe | native/uwebsockets/TopicTree.h:242-258 | The new state, queued if the topic is being iterated, and the invariant with it |
| TopicTree.TopicTree.Unsubscribe | native/uwebsockets/TopicTree.h:260-272 | The new state, and the result: whether it was held, whether it was the last, and how many hold it now if the change is queued, or none of the topic is |
| TopicTree.TopicTree.Act | native/uwebsockets/TopicTree.h:242-288 | Whatever a handler does keeps the invariant; outside a replay all of it is made, and inside one what would break the relation is noted |
| TopicTree.TopicTree.DrainImpl | native/uwebsockets/TopicTree.h:105-122 | The handler is called with the messages of the batch, in order and nothing else, with all of them or up to the first call that stops, and that is what is added to what it has received; nobody else's messages or places on the list are touched but by freeing |
| TopicTree.TopicTree.Drain | native/uwebsockets/TopicTree.h:290-298 | The batch is given as by `drainImpl`; then everything queued is replayed from the tree this leaves, hand-out after hand-out, to the tree that is left; what was due has been received, unless it stopped |
| TopicTree.TopicTree.DrainAll | native/uwebsockets/TopicTree.h:300-312 | Batch after batch of those that wait, each given as by `drainImpl`, whichever of them handlers take off the list meanwhile; then the replay as above; and what was due to each has been received, unless it stopped |
| TopicTree.TopicTree.ApplyPending | native/uwebsockets/TopicTree.h:199-214 | Every entry of the queue, those added meanwhile included, is replayed in order, each from the tree the one before has left: a `publish` by its own hand-out, which begins there or behind a drain of everyone, any other by its change; then exactly the freed are destroyed |
| TopicTree.TopicTree.Publish | native/uwebsockets/TopicTree.h:336-373 | Inside a delivery it is queued; otherwise the message is handed out to the members, nobody else and never the sender, in the tree that making room leaves, and what was queued is replayed from the tree the hand-out leaves; only a call with 65535 messages stored and someone to drain can meet its topic erased, and it is said to have only if it, or a call it replays, does; on a topic with one member, whose handler ends its batch, the new state is given in full |
| TopicTree.TopicTree.PublishIntoTheVoid | native/uwebsockets/TopicTree.h:336-352 | And for every such call there is a handler with which it does |
| TopicTree.MeetErased | native/uwebsockets/TopicTree.h:336-352 | A run of calls from an empty tree that gets there |
| TopicTree.TopicTree.PublishBig | native/uwebsockets/TopicTree.h:315-334 | Refused inside a delivery; otherwise every member reached has received the message after all that waited for it, and what was queued is replayed from the tree this leaves |
| TopicTree.TopicTree.FreeSubscriber | native/uwebsockets/TopicTree.h:278-288 | Between deliveries the subscriber is gone from every topic, topics it was alone in are gone, and for everyone else members, messages and what is due are as they were; inside one it is only doomed |
| ConnectRequests.Play | native/usockets/connect.c:132-542 | Any run from nothing, of any calls, lookups, writable attempts and timers, and whatever owners do when told: the three statements below hold at its end |
| ConnectRequests.OneOutcome | native/usockets/connect.c:132-188 | At every moment at most one of on_open and on_connect_error has been told for a request, and nothing after it was cancelled, released or orphaned |
| ConnectRequests.ListedIff | native/usockets/connect.c:66-93 | A request is on its context's list if and only if it is alive and not cancelled, and on no other |
| ConnectRequests.NothingDangles | native/usockets/connect.c:103-130 | Lookups, attempt sockets and timers still out lead to requests that are alive, and `pending_resolves` counts the lookups |
| ConnectRequests.Connector.LookupDone | native/usockets/connect.c:236-276 | A lookup that comes back frees an orphaned or cancelled request, or goes on to the addresses |
| ConnectRequests.Connector.TryNext | native/usockets/connect.c:191-233 | The addresses are tried until a socket can be made for one; otherwise the owner is told of the failure once |
| ConnectRequests.Connector.ConnectReady | native/usockets/connect.c:279-350 | An attempt that failed goes on to the next address; one that succeeded is promoted and told once |
| ConnectRequests.Connector.TimerFired | native/usockets/connect.c:353-384 | The timer ends a lookup or an attempt with an error, or reports the handshake |
| ConnectRequests.Connector.Cancel | native/usockets/connect.c:470-495 | The request is freed, or kept for its lookup alone; its owner hears no more |
| ConnectRequests.Connector.Rebind | native/usockets/connect.c:497-503 | The request moves with its socket from the one list to the other |
| ConnectRequests.Connector.FreeContext | native/usockets/connect.c:519-542 | Every request of a context is orphaned before the context goes |
| OutboundClient.ClientApp.EmitFailed | native/uwebsockets/WebSocketClientContext.h:182-211 | Told once at most, whatever the handler does; then the user data is released and the slot retired |
| OutboundClient.ClientApp.OnData | native/uwebsockets/WebSocketClientContext.h:431-535 | A refused answer fails and closes the connection, an agreed tunnel goes on, and an agreed upgrade opens it with the user data moved into the socket |
| OutboundClient.ClientApp.LeaveTunnel | native/uwebsockets/WebSocketClientContext.h:295-382 | Through a proxy with TLS the socket, its request and the user data go over to the second context together |
| OutboundClient.ClientApp.AdoptToFrame | native/uwebsockets/WebSocketClientContext.h:215-285 | The request is released once, the user data moved once, the open handler called once |
| OutboundClient.ClientApp.OnClose | native/uwebsockets/WebSocketClientContext.h:553-573 | A close before adoption releases the request once, and tells of the failure unless it has been told |
| OutboundClient.ClientApp.Close | native/uwebsockets/ClientApp.h:340-357 | No slot comes or goes while its loop runs, though handlers are called, and in the end no connection is under way |
| OutboundClient.ClientApp.Sweep | native/uwebsockets/ClientApp.h:104-116 | Exactly the retired slots are deleted, none of them with a socket or a request left |
| OutboundClient.ClientApp.RunDeferred | native/uwebsockets/ClientApp.h:634-655 | A connect that could not be started is reported later, and its user data released even if the application is gone |
| OutboundClient.ClientApp.Destroy | native/uwebsockets/ClientApp.h:74-101 | Everything is closed, then each remaining slot deleted once |
| OutboundClient.Play | native/uwebsockets/ClientApp.h:74-132 | Any run of an application to its end, of any events and with any handlers: for every connection there ever was the user data went somewhere exactly once, the request ended exactly once if it began, the deleters ran exactly once, and the next statement holds |
| OutboundClient.ClientApp.Finish | native/uwebsockets/ClientApp.h:74-101 | Destroying the application and running what the loop was asked leaves nothing unaccounted, from any state |
| OutboundClient.OneOutcome | native/uwebsockets/WebSocketClientContext.h:182-285 | At most one of open and failed for a connection; its user data is moved only with the one and released only without it, never both; its request ends at most once and its deleters run at most once |
| OutboundClient.ToldOnce | native/uwebsockets/WebSocketClientContext.h:182-211 | Unless the application was closed, a connection that is over was opened or told failed, exactly one of them |
| OutboundClient.SweepIsComing | native/uwebsockets/ClientApp.h:119-132 | A retired slot has been deleted, or a sweep is queued that will |
| OutboundClient.NothingLeft | native/uwebsockets/ClientApp.h:74-101 | Once the application is gone and the loop has run what was deferred, the user data of every connection went somewhere exactly once, and its deleters ran exactly once |
| UrlSegments.SegmentsSplit | native/uwebsockets/HttpRouter.h:119-150 | The segments of a URL are its split at the slashes |
| UrlSegments.SplitUnique | native/uwebsockets/HttpRouter.h:119-150 | And no other list of segments without slashes joins to it |
| UrlSegments.UrlCache.GetUrlSegment | native/uwebsockets/HttpRouter.h:119-150 | The lazily filled cache gives the segment of that split, and stops where it ends or after a hundred |
| RouteTree.FoundSound | native/uwebsockets/HttpRouter.h:153-196 | Whatever the search runs is held at a pattern that matches, with the segments at its parameters |
| RouteTree.FoundComplete | native/uwebsockets/HttpRouter.h:153-196 | Whatever pattern matches, the search comes to what it holds |
| RouteTree.InsertAt | native/uwebsockets/HttpRouter.h:65-83 | Inserting adds an entry at its own path and changes no other |
| RouteTree.CullAt | native/uwebsockets/HttpRouter.h:315-352 | Culling takes a handler out everywhere and moves those after it down |
| RouteRegistry.EachHandlerOnce | native/uwebsockets/HttpRouter.h:277-352 | After any additions and removals the handler of each route is held at its path, and nowhere else |
| RouteRegistry.OnlyHandlers | native/uwebsockets/HttpRouter.h:277-352 | Nothing else is in the tree, and no node has two entries of one priority |
| RouteRegistry.LastIsAny | native/uwebsockets/HttpRouter.h:277-312 | If there is an ANY node, it is the last |
| HttpRouter.CandidatesAreMatches | native/uwebsockets/HttpRouter.h:153-196 | The search comes to a handler if and only if its pattern matches and its method is asked for, with the segments as its parameters |
| HttpRouter.RoutedByMethodOrAny | native/uwebsockets/HttpRouter.h:246-274 | With an ANY node, a handler runs only if its pattern matches and is of the method asked for or of any, for every behaviour of the handlers; and if none yields, some handler takes the request if and only if there is such a pattern |
| HttpRouter.AnyIff | native/uwebsockets/HttpRouter.h:355-375 | There is an ANY node if and only if nothing was ever removed or a route for any method is registered |
| HttpRouter.MethodsRespectedIff | native/uwebsockets/HttpRouter.h:246-274 | Over all requests only routes of the asked method or of any run if and only if there is an ANY node or the last method's patterns match no URL |
| HttpRouter.PutIsAnsweredByGet | native/uwebsockets/HttpRouter.h:246-274 | Additions and a removal that lead to a PUT request answered by a route for GET |
| HttpRouter.HttpRouter.Route | native/uwebsockets/HttpRouter.h:246-274 | The recursive search with its stack of parameters and its cache runs the candidates in order until one takes the request |
| HttpRouter.HttpRouter.Add | native/uwebsockets/HttpRouter.h:277-312 | The tree stands for the list of routes with this one in place of any of the same method, pattern and priority |
| HttpRouter.HttpRouter.Remove | native/uwebsockets/HttpRouter.h:315-375 | The tree stands for the list without the route, later handlers moved down |
| TimerWheel.DueAtIff | native/usockets/socket.c:48-54 | A short timeout is due at the sweep its seconds are rounded up to if and only if the wheel does not turn full circle before; else earlier |
| TimerWheel.DueLongIff | native/usockets/socket.c:56-62 | A long timeout is due in its minute if and only if it is less than four hours, or four hours set in the last tick of a minute |
| TimerWheel.Punctual | native/usockets/loop.c:82-134 | Over any number of sweeps a socket that is left alone rings at the sweeps its timeouts are due at and no others, and is then without them |
| TimerWheel.RingsWhenSetIff | native/usockets/loop.c:82-134 | A timeout set now rings at exactly its sweep, and at no other, if and only if it is at most 16 minutes |
| TimerWheel.RingsWhenSetLongIff | native/usockets/loop.c:82-134 | The same for minutes and four hours |
| TimerWheel.IdleWebSocketClosesIff | native/uwebsockets/WebSocketContext.h:365-390 | An idle WebSocket is closed by the sweep its idle timeout is rounded up to, and not before, if and only if that is 5 to 976 seconds with pings, or at most 960 without |
| TimerSweep.SocketContext.LinkSocket | native/usockets/context.c:125-133 | A new socket goes in front, where no sweep under way comes any more |
| TimerSweep.SocketContext.CloseSocket | native/usockets/context.c:93-112 | A socket leaves the list and the sweep goes on behind it |
| TimerSweep.SocketContext.OnTimeout | native/uwebsockets/WebSocketContext.h:365-390 | A ping and the second timeout, once, or the forced close |
| TimerSweep.SocketContext.Sweep | native/usockets/loop.c:82-134 | Every socket is looked at once and, unless a callback called meanwhile names it, becomes what its timeouts say, with each handler called exactly if it is time, though handlers link, close and set any socket |
| TimerSweep.SocketContext.SweepMany | native/usockets/loop.c:82-134 | Over any number of sweeps the events of a socket that no callback to come names are those of the wheel, once each |
| TimerSweep.SocketContext.RingInTime | native/usockets/loop.c:82-134 | A timeout of up to 16 minutes of a socket that no callback to come names rings once, at the sweep its seconds are rounded up to |
| TimerSweep.SocketContext.CloseInTime | native/uwebsockets/WebSocketContext.h:365-390 | A WebSocket that no callback to come names is on the list until the sweep its idle timeout is rounded up to, and gone from then on |
| SniTree.LabelsJoin | native/usockets/crypto/sni_tree.cpp:122-134 | The labels of a host name are what is between its dots; nothing but a dot at the end is lost |
| SniTree.JoinLabels | native/usockets/crypto/sni_tree.cpp:122-134 | Labels without dots, the last not empty, are read back from the host name they make |
| SniTree.FoundIff | native/usockets/crypto/sni_tree.cpp:75-100 | A user is found if and only if a stored name of as many labels matches label by label, with `*` for any, and it is that of the match that has exact labels from the left |
| SniTree.BestIsOne | native/usockets/crypto/sni_tree.cpp:75-100 | No two stored names are both to be preferred |
| SniTree.FindsItself | native/usockets/crypto/sni_tree.cpp:187-209 | A stored pattern, looked up as it is written, leads to its own user |
| SniTree.Canonical | native/usockets/crypto/sni_tree.cpp:42-73 | Trees in which every node without children holds a user are equal if they hold the same names |
| SniTree.SniTree.Add | native/usockets/crypto/sni_tree.cpp:116-160 | Refused without a trace if the name is there or has more than ten labels, else added to the others |
| SniTree.SniTree.Remove | native/usockets/crypto/sni_tree.cpp:163-185 | The very name goes, its user is returned, and no node is kept for nobody |
| SniTree.SniTree.AddThenRemove | native/usockets/crypto/sni_tree.cpp:116-185 | Removing a name just added gives the tree that was there |

## Left out

- The PROXY protocol preamble in `getHeaders`, query decoding, multipart bodies and the declarative responses.
- TLS and zlib: a TLS write is a write, frames are uncompressed, and the handshake of TLS is a place a connection is in.
- The kernel, the resolver and the clock: how much a write takes, how a lookup or a connect ends and when a sweep runs are arguments.
- Memory: a freed object is an id that is gone; the widths of counters in memory are those of the source only where it truncates or packs them.
- The eight-octet steps of the header scans: a scan stops at the first octet below the threshold, as their code does.
- The checks and the building of outbound requests, and what the response heads are parsed from: `OnData` takes what the head comes to.
- Byte order: the four octets of the filter and the words of the masks are taken as on a little-endian machine.
- `std::sort`, `std::upper_bound` and the maps and sets of the C++ library: they are taken to do what they say.
- Matching trees, chains and nodes are values held in fields of their classes, with ids or paths for addresses.
- The guard that keeps a WebSocket from changing its topics while it iterates them, and the flags FIRST and LAST of the delivery handler, which only decide when to cork.
- `sni_free`, and the user data of sockets once they are adopted.
- Closing or upgrading a connection from inside its request handler, and pausing it: the model's handlers take what they are given.
- ConsumePostPadded: nothing is promised of reads in which the cuts can be seen: a request line with a CR for its version and eleven octets behind that (ClearIff), or a chunk-size line whose cuts can be seen or whose size does not fit (EveryCutIsInvisibleIff, SizeLineFitsIff); if it is refused inside a chunk, octets of that chunk may be held back, and which error is reported is left open.
- Receive: the same.
- FenceAndConsume: the same.
- ConsumeStreamingBody: the same, of chunk-size lines.
- ConsumeSegments: nothing is promised of runs with such chunk-size lines.
- StreamDelivered: for requests the filter does not mistake, which is exactly when it holds (JudgedByFramingIff); the others are refused (StreamRefused).
- FirstInFirstOut: for subscribers that never stop a batch, as the rest of a batch that is stopped is dropped, and as long as no index was cut, which it can be (MeetCut, CutExactly).
- Publish: nothing is promised of what is handed out once a topic was erased under a call that had looked it up (PublishLoses); from there the source's behaviour is not defined.
- Act: during a replay a handler's change of a pair that still has a change queued is noted and not made, as it breaks the source's relation (MissBreaks); from there on the model says nothing of the source.
- Play: of `TopicTreeRuns`, says nothing of the source from the first noted change on (NotedFor).
- Callback: handlers do not call `drain` for other subscribers, nor `publishBig`, which the source refuses there.
- Converse: legal control frames of more octets than the limit on messages are not delivered but close the connection (Overrun); that takes a limit below 125.
- Perform: after a socket is closed nothing is said of its octets; a `cork` while another socket's data is in the buffer ends the process and is not asked for.
- Route: a URL with more than a hundred segments is routed when there is a method, as the source then takes the last one unchecked.
- Connect: of `ConnectRequests.Connector`, the arguments are in order; what is refused at once has no request.
- Destroy: of `OutboundClient.ClientApp`, not from inside a handler, whose caller goes on with the context it would free.
