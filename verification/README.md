# Verified models of the ANILA repository

Dafny models of the parts of ANILA that hold algorithms and protocols, with proofs about
them.  `dafny verify dfyconfig.toml` checks everything.

| module | what it models |
|---|---|
| `EmptyRegion`, `SlideOverlap` | the slide analyser: rasterising, the flood fill for the largest empty region, overlap and emptiness defects |
| `OrgChart`, `DeckKinds` | the layout of an organisation chart; the list of slide kinds reported beside a deck |
| `SseFraming`, `SseReader`, `SseIterator`, `SseServer`, `SseCodec`, `PythonText` | the event stream of the agent quickstart, from the server's printers to the client's two readers |
| `TurnProtocol`, `TurnInvariant`, `TurnGuarantees` | sending, editing and stopping turns in the chat shell: the steps, what every step keeps, and the results |
| `DraftProtocol` | the composer's drafts |
| `JwksCache`, `RouterCredential`, `PrimaryModel` | caches shared by concurrent tasks |
| `Basics` | an option type and two small facts used by several modules |
| `DatetimeGate`, `Percentile` | the check on response models, and the percentile of the load test |

A protocol is a state, a function for each event, and a run as a sequence of events; the
main results quantify over every run.  An event is the code between two awaits.  Where the
source updates an object or module globals in place, a class holds the same fields; each of
its methods is one event and its contract equates the new state with the event's function,
so that what is proved about runs of that function is proved about the methods.

The environment (clock, file contents, HTTP answers, verdicts of the signature check, the
redaction gate, what the responder produces) enters as arguments of events and is
unconstrained unless a row says otherwise.

## What the code does not do

Where the source and its comments or promises differ, the model follows the source.

- **One send a key**: the keys in flight are forgotten when a conversation is left, so after
  coming back the same message can be pending twice (`SecondSendIff`, `TwiceAfterComingBack`).
- **Drafts**: a send that fails after its conversation was left loses its draft
  (`FinishPlaces`), and opening a conversation with a stored draft from a page without one
  loses the typed text (`SwitchLosesTextIff`).  Nothing else loses a text unasked
  (`DraftFate`, `SwitchBalanced`).
- **JWKS cache**: the thread of a cancelled fetch goes on, so two fetches can run at once
  (`AtMostOneFetchIff`, `CancelledFetchOverlaps`).
- **Router credential**: a token stays in use while the same version of its file has become
  unreadable (`ReloadRefinesIff`, `UnreadableTokenKept`).
- **Primary model**: a cancelled refresh stamps the old name as fresh (`StampIsTrueIff`,
  `PassIsFreshIff`, `CancelledRefreshRevivesName`); a request passes on its own refresh at any age
  (`OwnRefreshPassesAtAnyAge`); a rotation during a request is missed if the reload timer
  installs it first, although the comment at main.py:286-288 says it is picked up
  (`RotationPickedUpIff`).
- **Organisation chart**: items on or below a cycle get the capped level and are not drawn when
  no item has the level above it (`EndlessIsDrawnIff`, `CycleIsNotDrawn`).
- **Slide kinds**: a figure that does not rasterise is drawn as a standard slide but reported
  as a figure (`KindsMatchIff`, `FailedFigureMisreported`).
- **Heartbeats**: the wait of server.py:356 cancels the responder when a heartbeat is due, so
  an answer can end early and still be sent as complete (`HeartbeatCutsShort`,
  `HeartbeatLosesIff`, `HalfAnswerIsComplete`).
- **Datetime paths**: datetimes of models nested below a datetime-typed field are not listed,
  although the comment at check_response_datetime_utc.py:149 speaks of nested models
  (`UnionHidesInner`, `PathsAreTrails`); the gate still fails, on the field itself (`EmptyIffUnreachable`).
- **Gate at the model call**: a stream that the gate refuses to start returns like one that
  ran, so its row is written as complete though nothing was asked (`StreamEndsHow`,
  `WhatIsWritten`).
- **Output limit**: the stream bounds each piece, not their sum (`OutputLimitIff`,
  `SumIsUnlimited`).

## Model

| member | source | states |
|---|---|---|
| `EmptyRegion.FindLargestEmptyRegion` | services/pptx-renderer/server.js:2120-2164 | for any grid and shapes the result is the largest size of a 4-connected component of uncovered cells, 0 if there is none; the fills are exactly the components, each filled once and in full |
| `EmptyRegion.Rasterise` | services/pptx-renderer/server.js:2124-2140 | a cell ends up free exactly when no shape meets it in the geometric sense, whatever order the shapes come in |
| `EmptyRegion.MarkShape` | services/pptx-renderer/server.js:2125-2140 | one shape marks exactly the cells it meets and leaves the others as they were |
| `EmptyRegion.RangeIsMeets` | services/pptx-renderer/server.js:2126-2134 | the floored, clamped index range of a shape is exactly the set of cells whose rectangle meets the shape shrunk by 0.01, below the header band |
| `EmptyRegion.CellShapeMeetsItsCell` | services/pptx-renderer/server.js:2126-2134 | a shape that is exactly one cell covers that cell and no other |
| `EmptyRegion.FloodFill` | services/pptx-renderer/server.js:2149-2158 | the stack loop terminates; it stays inside any set closed under steps between free cells, what it visits is itself closed, and the size is the number of cells it newly visited |
| `EmptyRegion.VisitCell` | services/pptx-renderer/server.js:2148-2160 | one scan position: afterwards the cell is visited if free, and the running maximum is the largest of the whole components filled so far |
| `EmptyRegion.ScanRow` | services/pptx-renderer/server.js:2147-2161 | a full row of the scan keeps the same account of components and maximum |
| `EmptyRegion.FillProgress` | services/pptx-renderer/server.js:2151-2159 | a fill that is inside the component of its start and closed is that component, is disjoint from everything seen, and extends the account of the scan by exactly it |
| `EmptyRegion.SplitMaxIsLargest` | services/pptx-renderer/server.js:2145-2163 | if the free cells are split into the listed components, the greatest listed size is the size of the largest component |
| `EmptyRegion.LargestUnique` | services/pptx-renderer/server.js:2163 | the number the analyser promises is determined by the free cells alone |
| `EmptyRegion.ComponentOf` | services/pptx-renderer/server.js:2149-2158 | a component is the same from whichever of its cells the fill starts |
| `EmptyRegion.CrossIsOneComponent` | services/pptx-renderer/server.js:2157 | a cell and its four neighbours are one component |
| `EmptyRegion.CornersAreApart` | services/pptx-renderer/server.js:2157 | two cells that only touch at a corner, or not at all, are not connected |
| `EmptyRegion.ComponentMonotone` | services/pptx-renderer/server.js:2141-2163 | a component of fewer free cells lies inside a component of more |
| `EmptyRegion.LargestMonotone` | services/pptx-renderer/server.js:2141-2163 | fewer free cells never have a larger largest component |
| `EmptyRegion.MoreShapesNeverEnlarge` | services/pptx-renderer/server.js:2125-2163 | adding shapes never enlarges the largest empty region |
| `EmptyRegion.ShapeOrderIrrelevant` | services/pptx-renderer/server.js:2125-2163 | permuting the shapes does not change the largest empty region |
| `SlideOverlap.OverlapDefects` | services/pptx-renderer/server.js:2239-2259 | the double loop reports exactly the index pairs i < j that meet the test, each once, and their number is the one `Count` defines by recursion on the list |
| `SlideOverlap.OverlapRow` | services/pptx-renderer/server.js:2240-2258 | one row adds the reported pairs with that first index and no others |
| `SlideOverlap.Overlaps` | services/pptx-renderer/server.js:2241-2250 | the branch decides the symmetric relation on shapes: neither a slide number, common area over 0.1, not containment |
| `SlideOverlap.ReportedSymmetric` | services/pptx-renderer/server.js:2171-2177 | which shape comes first does not matter |
| `SlideOverlap.InsideNeverReported` | services/pptx-renderer/server.js:2171-2177 | a shape of positive size lying wholly inside another is never reported, from either side |
| `SlideOverlap.ShiftedCopyReportedIff` | services/pptx-renderer/server.js:2247-2250 | a shape and its copy shifted by less than its size are reported iff the common area is over 0.1 and under nine tenths of the shape |
| `SlideOverlap.ApartNeverReported` | services/pptx-renderer/server.js:2247-2248 | shapes with no common area are never reported, nor is a slide number |
| `SlideOverlap.CountDrop` | services/pptx-renderer/server.js:2239-2259 | any shape may be taken first when counting the pairs |
| `SlideOverlap.CountPermuted` | services/pptx-renderer/server.js:2239-2259 | permuting the shapes preserves the number of overlap defects |
| `SlideOverlap.EmptinessDefect` | services/pptx-renderer/server.js:2179-2195 | critical iff some connected set of at least 12 uncovered cells exists, warning iff one of at least 8 but none of 12, nothing for kinds not judged |
| `SlideOverlap.VoidIff` | services/pptx-renderer/server.js:2182-2189 | the threshold on the largest region is the existence of a connected void of that size |
| `OrgChart.LevelIs` | services/pptx-renderer/server.js:1557-1560 | on every parent graph, cycles included, the recursion ends and the level is the number of ancestors that exist, capped at 6 |
| `OrgChart.LevelOfEndingChain` | services/pptx-renderer/server.js:1557-1560 | with n ancestors and then none the level is min(n, 6) |
| `OrgChart.ChildBelowParentIff` | services/pptx-renderer/server.js:1557-1560 | a child is one level below its parent iff it does not have seven ancestors or more |
| `OrgChart.NoGapsBelowCap` | services/pptx-renderer/server.js:1561-1563 | an occupied level between 1 and 5 has an occupied level above it |
| `OrgChart.EveryItemDrawnIff` | services/pptx-renderer/server.js:1563-1574 | every item's level has a row iff, where some item has a sixth ancestor, some item has exactly five |
| `OrgChart.EndlessIsDrawnIff` | services/pptx-renderer/server.js:1557-1574 | an item whose chain of parents never ends has level 6, and that level has a row iff some item has exactly five ancestors |
| `OrgChart.AcyclicIff` | services/pptx-renderer/server.js:1557-1560 | no item is its own ancestor iff every chain of parents ends, for any finite list of items |
| `OrgChart.LevelOfAcyclic` | services/pptx-renderer/server.js:1557-1560 | without a cycle every level is the smaller of the number of ancestors and 6 |
| `OrgChart.AcyclicIsDrawn` | services/pptx-renderer/server.js:1561-1574 | if no item is its own ancestor, the occupied levels are exactly 0 .. depth-1 and every item's level has a row |
| `OrgChart.AllEndlessDrawsNothing` | services/pptx-renderer/server.js:1561-1574 | where no chain of parents ends no label gets a position |
| `OrgChart.CycleIsNotDrawn` | services/pptx-renderer/server.js:1557-1574 | two items that are each other's parent get no position, whatever their labels |
| `OrgChart.IndexByLabel` | services/pptx-renderer/server.js:1556 | the index maps each label to the last item that carries it |
| `OrgChart.ParentIs` | services/pptx-renderer/server.js:1556-1558 | an item has a parent iff it names a label some item carries, and the parent is the last item with that label |
| `OrgChart.GroupByLevel` | services/pptx-renderer/server.js:1561-1562 | the group of each level lists exactly its items, in the order given and as often as given; empty levels have none |
| `OrgChart.PlaceRow` | services/pptx-renderer/server.js:1568-1574 | one row gives its labels that row and leaves other labels alone |
| `OrgChart.DrawRows` | services/pptx-renderer/server.js:1568-1574 | a label has a row iff some item with it has a level below depth, and the row is such an item's level |
| `OrgChart.PlaceRows` | services/pptx-renderer/server.js:1555-1574 | the passes together: depth is the number of occupied levels, positions go exactly to labels of items below it, and to every item's label when all levels are below it |
| `DeckKinds.RenderSpec` | services/pptx-renderer/server.js:1785-1851 | one slide a specification entry, in order, after an optional cover; the kinds list equals the layouts drawn iff every figure rasterised; in a two-tone deck all chapter pages are numbered, 1, 2, 3 and so on |
| `DeckKinds.KindsMatchIff` | services/pptx-renderer/server.js:1848-1882 | position by position, reported kind and drawn layout agree iff every slide effectively a figure rasterises |
| `DeckKinds.ReportedAsIff` | services/pptx-renderer/server.js:1862-1882 | what a slide must hold to be reported as each layout, and standard otherwise |
| `DeckKinds.ChaptersAre` | services/pptx-renderer/server.js:671-676 | the numbered pages are the section breaks after the first slide without a hero image |
| `DeckKinds.FailedFigureMisreported` | services/pptx-renderer/server.js:1624-1626 | a deck of one figure that does not rasterise is reported as cover and figure and drawn as cover and standard |
| `DeckKinds.SomeIffUsable` | services/pptx-renderer/server.js:1877 | the two ways of testing for a usable entry, `some` and a non-empty `filter`, agree |
| `DeckKinds.Deck.RenderSlide` | services/pptx-renderer/server.js:1713-1729 | the dispatcher and the renderers' own fallback tests draw exactly one slide, with the layout `effectiveKind` names unless a figure failed to rasterise |
| `DeckKinds.Deck.RenderSectionBreak` | services/pptx-renderer/server.js:609-720 | one slide; the chapter counter moves iff the theme is two-tone, there is no hero image and the slide is not the first, and the numbers printed stay 1 .. counter |
| `SseFraming.FrameEnd` | packages/anila-agent-quickstart/llm.py:221-228 | finds the earliest LF-LF or CRLF-CRLF of the buffer, and nothing iff there is none |
| `SseFraming.FramersAgree` | packages/anila-agent-quickstart/llm.py:153-159 | the inline splitter of `_read_stream` and `_frame_end` cut every buffer alike |
| `SseFraming.EarliestStays` | packages/anila-agent-quickstart/llm.py:205-211 | the earliest delimiter of a buffer stays the earliest under any extension |
| `SseFraming.FramesConcat` | packages/anila-agent-quickstart/llm.py:204-211 | framing a text in two parts, carrying the residue, gives the frames and residue of the whole |
| `SseFraming.RestHasNoFrame` | packages/anila-agent-quickstart/llm.py:207-210 | the residue holds no further frame |
| `SseFraming.DrainBuffer` | packages/anila-agent-quickstart/llm.py:207-214 | the inner loop takes all frames of the buffer, in order, and leaves their residue |
| `SseFraming.FrameChunks` | packages/anila-agent-quickstart/llm.py:204-214 | for every way of cutting a text into chunks, the frames and the residue are those of one pass over the whole |
| `SseReader.ParseFrame` | packages/anila-agent-quickstart/llm.py:231-249 | comments and blank lines skipped, data lines stripped on the left and joined, `[DONE]` recognised before JSON, malformed and non-object JSON refused |
| `SseReader.LinesOfFrame` | packages/anila-agent-quickstart/llm.py:231-233 | LF and CRLF, mixed at will, separate the lines of a frame |
| `SseReader.DataOfLineIs` | packages/anila-agent-quickstart/llm.py:233-237 | the data lines are those that begin with `data:`, without it and the whitespace after it |
| `SseReader.FrameSays` | packages/anila-agent-quickstart/llm.py:231-249 | the data lines of a frame, one below the other, are `[DONE]`, an object, or an error; without data lines it says nothing |
| `SseReader.LlmResult.constructor` | packages/anila-agent-quickstart/llm.py:25-28 | a fresh result has reason stop, no usage and no text |
| `SseReader.LlmResult.TakeDelta` | packages/anila-agent-quickstart/llm.py:176-199 | updates the fields and yields the text or failure that the pure account of an event gives; a null or empty reason leaves the earlier one |
| `SseReader.TakeEvent` | packages/anila-agent-quickstart/llm.py:160-170 | one event: skipped, ended by `[DONE]`, failed, or its text yielded and remembered |
| `SseReader.InterpretAppend` | packages/anila-agent-quickstart/llm.py:151-171 | reading events in two parts is reading them at once, and nothing after the end of reading is looked at |
| `SseReader.TakeFrame` | packages/anila-agent-quickstart/llm.py:153-170 | taking the first frame and reading on is reading the frames of the whole buffer |
| `SseReader.DrainFrames` | packages/anila-agent-quickstart/llm.py:153-170 | the inner loop yields, updates and stops exactly as interpreting the frames of the buffer in order |
| `SseReader.ReadStream` | packages/anila-agent-quickstart/llm.py:148-171 | for every way of cutting the text into chunks, the yielded texts, the result fields and the outcome are those of reading the concatenated text |
| `SseReader.ReadMore` | packages/anila-agent-quickstart/llm.py:151-170 | what the reader has after each further chunk, and that stopping early settles the whole reading |
| `SseIterator.IterSse` | packages/anila-agent-quickstart/llm.py:202-218 | yields the events of the concatenated text, including an unterminated residue, under every chunking; a malformed frame ends the iteration there |
| `SseIterator.ResidueYields` | packages/anila-agent-quickstart/llm.py:215-218 | what follows the last blank line is one more event unless it is whitespace or says nothing |
| `SseIterator.DrainEvents` | packages/anila-agent-quickstart/llm.py:207-214 | the inner loop yields the events of the buffer's frames up to a malformed one |
| `SseIterator.TerminatedConcat` | packages/anila-agent-quickstart/llm.py:204-214 | events of a text in two parts are the events of the whole |
| `SseIterator.MalformedEnds` | packages/anila-agent-quickstart/llm.py:212-214 | after a malformed frame nothing later changes what was yielded |
| `SseIterator.ReaderFollowsIterator` | packages/anila-agent-quickstart/llm.py:148-171 | `_read_stream` processes exactly the events `iter_sse_bytes` yields for terminated frames, of which an unterminated residue adds at most one |
| `SseIterator.InterpretAcceptable` | packages/anila-agent-quickstart/llm.py:167-170 | over acceptable events the reader yields their non-empty texts in order and keeps the last non-empty reason |
| `SseIterator.ReadAtDone` | packages/anila-agent-quickstart/llm.py:163-185 | when reading ends well at the k-th frame, the texts, the reason and the usage are those of the frames before it: nothing after `[DONE]` counts |
| `SseIterator.UsageKept` | packages/anila-agent-quickstart/llm.py:179-185 | the usage is that of the last event with a usage object: of the three named counts, those it gives as integers; without such an event it stays |
| `SseIterator.StopsBecause` | packages/anila-agent-quickstart/llm.py:148-199 | reading stops at the first frame that is not acceptable, with the failure that frame calls for, and as truncated if there is none |
| `SseIterator.ReturnsIff` | packages/anila-agent-quickstart/llm.py:163-171 | reading returns iff a terminated `[DONE]` is preceded only by acceptable frames, with some text or a reason other than stop |
| `SseServer.Stream` | packages/anila-agent-quickstart/server.py:335-386 | for everything the streaming loop can observe of search, model and responder: reading what was sent gives exactly the pieces and the reason on success, an upstream error on each error ending, a truncation error when dropped; heartbeats send nothing that is read; `[DONE]` is sent once and last |
| `SseServer.HeartbeatCutsShort` | packages/anila-agent-quickstart/server.py:354-364 | a responder that pauses longer than a heartbeat and does not catch its cancellation ends there: what it had produced is sent as a complete answer, or as an empty completion if it is nothing; one that does not pause is not affected |
| `SseServer.HeartbeatLosesIff` | packages/anila-agent-quickstart/server.py:354-364 | such a responder's pieces all arrive iff it does not pause or has no piece left after its first pause |
| `SseServer.HalfAnswerIsComplete` | packages/anila-agent-quickstart/server.py:354-385 | the first of two pieces, with a pause between them, is sent as the complete answer |
| `SseServer.OutputLimitIff` | packages/anila-agent-quickstart/server.py:365-375 | a stream ends with `output_limit` iff the first event that ends the loop is one piece over the limit |
| `SseServer.SumIsUnlimited` | packages/anila-agent-quickstart/server.py:365-369 | any number of pieces within the limit is sent as a complete answer, so the sum has no bound |
| `SseServer.StreamBody` | packages/anila-agent-quickstart/server.py:349-385 | the loop prints the pieces so far, in order, with heartbeats between, and stops with the ending its events call for |
| `SseServer.TakeHappening` | packages/anila-agent-quickstart/server.py:354-369 | one event of the loop: what is sent for it, or the ending it calls for |
| `SseServer.SendEnding` | packages/anila-agent-quickstart/server.py:370-386 | each ending sends its error or final chunk and then `[DONE]`, and the client reads it as that ending |
| `SseServer.EndingIs` | packages/anila-agent-quickstart/server.py:352-386 | the first event that stops the loop decides the ending and its code, together with whether there was a piece |
| `SseServer.PiecesAre` | packages/anila-agent-quickstart/server.py:365-369 | the pieces are the texts before that event, without the empty ones |
| `SseServer.Relay` | packages/anila-agent-quickstart/server.py:335-386 | server to client under every re-chunking: the client receives exactly the pieces, the reason and the ending |
| `SseServer.LineReadsBack` | packages/anila-agent-quickstart/server.py:396-413 | each printed line parses back to what it was printed from |
| `SseServer.CleanFrame` | packages/anila-agent-quickstart/server.py:404 | a line without newlines, followed by a blank line, is exactly the first frame of what follows |
| `SseServer.CleanFrameCrlf` | packages/anila-agent-quickstart/llm.py:153-157 | the same with carriage returns |
| `SseServer.SentReadsBack` | packages/anila-agent-quickstart/server.py:396-413 | any sequence of printed lines parses back line by line and leaves no residue |
| `SseServer.DoneOnce` | packages/anila-agent-quickstart/server.py:385-386 | `[DONE]` is sent exactly once and last, and never by a stream that was dropped |
| `SseServer.EndComplete` | packages/anila-agent-quickstart/server.py:384-386 | after the final chunk and `[DONE]` the client has all pieces, this reason, and returns |
| `SseServer.EndError` | packages/anila-agent-quickstart/server.py:370-383 | after an error line and `[DONE]` the client has the pieces and raises an upstream error |
| `SseServer.EndDropped` | packages/anila-agent-quickstart/server.py:370-371 | a dropped stream leaves the client with the pieces and a truncation error |
| `SseCodec.MiniRoundTrip` | packages/anila-agent-quickstart/server.py:396-409 | one concrete printer and reader of one-line objects round-trips every payload |
| `SseCodec.MiniIsFaithful` | packages/anila-agent-quickstart/server.py:396-409 | so the assumption on JSON under which the server is proved can be met |
| `TurnGuarantees.StopMeansNoMoreRequests` | apps/anila-shell/src/app.jsx:841-852 | a turn registered when stop with `cancelQueued` is pressed issues no model request afterwards, in every run of heads, streams and stops |
| `TurnGuarantees.UncancelledStarts` | apps/anila-shell/src/app.jsx:619-628 | a turn no stop cancelled issues its request when its job runs: cancelled records of the conversation cannot hold it back |
| `TurnGuarantees.UnreachedStarts` | apps/anila-shell/src/app.jsx:841-852 | a turn that no event of the run reached, so one registered after a stop, issues its request when it is first in its chain |
| `TurnInvariant.NoneCancelled` | apps/anila-shell/src/app.jsx:620-628 | when the first turn of a conversation is not cancelled, none of its queued turns is, in every state that keeps the invariant |
| `TurnGuarantees.StoppedIffHit` | apps/anila-shell/src/app.jsx:3194-3206 | a settled turn is recorded as stopped iff a stop reached it, so a stopped turn is never recorded as complete |
| `TurnGuarantees.SettledAs` | apps/anila-shell/src/app.jsx:3194-3215 | a finished stream is recorded as stopped if a stop reached its turn, as complete if it returned or ran out of its length budget, as failed otherwise |
| `TurnGuarantees.WhatIsWritten` | apps/anila-shell/src/app.jsx:3152-3297 | the one final write is stopped iff an event of the run reached the turn; otherwise complete iff its stream ended well in the run, and failed if not |
| `TurnGuarantees.StreamEndsHow` | apps/anila-shell/src/app.jsx:616-628 | a stream ends by returning or throwing, or because the gate refuses to start it, which counts as returning |
| `TurnGuarantees.AsksIff` | apps/anila-shell/src/app.jsx:616-628 | a model request is issued iff the first job of a chain starts with the gate open, for a turn that is not cancelled and whose head was neither blocked nor refused |
| `TurnGuarantees.GateOnStorage` | apps/anila-shell/src/app.jsx:876-881 | the message of a saved conversation goes to the server only through the gate, and a blocked edit adds no turn |
| `TurnGuarantees.HitIsReached` | apps/anila-shell/src/app.jsx:841-852 | being hit means that some event of the run cancelled the queued turn or aborted its registered controller |
| `TurnGuarantees.OneFinalWrite` | apps/anila-shell/src/app.jsx:3285-3297 | a reserved row has no final write before its turn is over and exactly one after, with the state the turn settled in; no two turns share a row |
| `TurnGuarantees.LockedIff` | apps/anila-shell/src/app.jsx:3028-3034 | in every run the picker is locked iff some reserved turn has not settled |
| `TurnGuarantees.OrderWithinConversation` | apps/anila-shell/src/app.jsx:854-861 | rows are handed out in sending order within a conversation, and at most one turn of it streams |
| `TurnGuarantees.QuietMeansUnlocked` | apps/anila-shell/src/app.jsx:3207-3212 | when nothing more can happen by itself, no stream chain holds a turn, nothing is in flight and the picker is unlocked |
| `TurnGuarantees.QuietMeansWritten` | apps/anila-shell/src/app.jsx:3285-3297 | when nothing more can happen by itself, every reserved row has exactly one final write, stopped iff a stop reached its turn |
| `TurnGuarantees.EveryRowIsWritten` | apps/anila-shell/src/app.jsx:3084-3297 | after every run some events that happen by themselves bring the page to rest, and then every row reserved in the run, still its turn's own, has exactly one final write |
| `TurnGuarantees.ComesToRest` | apps/anila-shell/src/app.jsx:3084-3297 | from every state that keeps the invariant the page can come to rest by itself, each event on the way changing something |
| `TurnGuarantees.BusyIsBounded` | apps/anila-shell/src/app.jsx:3084-3297 | without the user at most as many events can change anything as the ranks of the turns add up to |
| `TurnGuarantees.StuckIsAtRest` | apps/anila-shell/src/app.jsx:3084-3297 | such a run that cannot be continued has come to rest |
| `TurnGuarantees.ChainCanMove` | apps/anila-shell/src/runtime/reservedTurn.js:295-304 | a stream chain that is not empty can always move without user input |
| `TurnInvariant.InvApply` | apps/anila-shell/src/app.jsx:3084-3212 | every event keeps the invariant that ties the registries, the two chains, the flags and the turns together |
| `TurnInvariant.InvAfter` | apps/anila-shell/src/app.jsx:854-861 | the invariant holds after every run from an empty page |
| `TurnGuarantees.StepOfTurn` | apps/anila-shell/src/app.jsx:841-852 | no event uncancels a turn, asks for a cancelled one, or marks as hit a turn it does not reach |
| `TurnGuarantees.CancelledStays` | apps/anila-shell/src/app.jsx:841-845 | a cancelled turn issues no further request in any run |
| `TurnProtocol.TurnRuntime.StopStreaming` | apps/anila-shell/src/app.jsx:841-852 | in place: cancels exactly the queued turns of the conversation, and marks it stopped iff a controller is registered |
| `TurnProtocol.TurnRuntime.SendMessage` | apps/anila-shell/src/app.jsx:3039-3084 | in place: queues the head unless the gate refuses or nothing can be stored, registers the turn and queues its stream |
| `TurnProtocol.TurnRuntime.HandleEditUser` | apps/anila-shell/src/app.jsx:1825-1865 | in place: stops the running stream without the queued ones, then queues the head |
| `TurnProtocol.TurnRuntime.AnswerHead` | apps/anila-shell/src/app.jsx:3012-3034 | in place: the first head of the chain is answered; success reserves a row, locks the picker and registers the turn, and an edit joins the stream chain only now |
| `TurnProtocol.TurnRuntime.ForgetStream` | apps/anila-shell/src/app.jsx:3210-3211 | in place: unregisters a stream and unlocks the picker iff none is left |
| `TurnProtocol.TurnRuntime.StreamWithAbort` | apps/anila-shell/src/app.jsx:611-628 | in place: asks unless the gate refuses or some queued record of the conversation is cancelled |
| `TurnProtocol.TurnRuntime.RunTask` | apps/anila-shell/src/app.jsx:3084-3133 | in place: the first task of a chain ends as stopped, ends without a row, or opens its stream |
| `TurnProtocol.TurnRuntime.SettleStream` | apps/anila-shell/src/app.jsx:3194-3215 | in place: the verdict of a finished stream and the clean-up that follows it |
| `TurnProtocol.TurnRuntime.FinalizeAssistant` | apps/anila-shell/src/runtime/reservedTurn.js:238-272 | in place: the settled state is written to the reserved row, once |
| `DraftProtocol.DraftsConserved` | apps/anila-shell/src/chat.jsx:3152-3262 | over every run, for every non-blank draft and for every text: copies kept (a draft in the box, the lists and the pending sends; a text also in storage for another conversation), plus copies that left, equal copies kept before plus copies that came in |
| `DraftProtocol.StepBalanced` | apps/anila-shell/src/chat.jsx:2737-2791 | one event conserves every draft and every text exactly |
| `DraftProtocol.DraftFate` | apps/anila-shell/src/chat.jsx:3214-3247 | a draft or text kept before a run and not after it was taken out by a particular event of the run: edited, sent, discarded, failed after its conversation was left; or, for a text, overwritten by the stored one of the conversation opened |
| `DraftProtocol.FinishPlaces` | apps/anila-shell/src/chat.jsx:3214-3247 | a failed send puts its draft back in an empty box or at the end of the list, and drops it if the conversation changed meanwhile |
| `DraftProtocol.FailedSendReturns` | apps/anila-shell/src/chat.jsx:3214-3247 | a failed send gives its draft back whole, to the blank box or the end of the list, iff the conversation it began in is shown or the one the failure names; otherwise the draft is dropped |
| `DraftProtocol.FailureLosesNothing` | apps/anila-shell/src/chat.jsx:3198-3247 | while the conversation is not left, a message whose send fails is still kept, whatever happened meanwhile |
| `DraftProtocol.SendsIff` | apps/anila-shell/src/chat.jsx:3152-3176 | `onSend` is called iff there is something to send, nothing is uploading, gate and audience prompt agree and the same message is not in flight |
| `DraftProtocol.TakesBackIff` | apps/anila-shell/src/chat.jsx:2956-2970 | a text handed back for another conversation, or a second time, is ignored |
| `DraftProtocol.InsertOnce` | apps/anila-shell/src/chat.jsx:2842-2866 | a suggestion takes the box once; repeating it changes nothing |
| `DraftProtocol.StorageFollows` | apps/anila-shell/src/chat.jsx:3204-3210 | the stored text of the conversation shown follows the box whenever anything but typing changes it |
| `DraftProtocol.InsertPlaces` | apps/anila-shell/src/chat.jsx:2842-2866 | a suggestion takes the box, and what was there goes whole to the recoverable list iff it was a draft |
| `DraftProtocol.RestorePlaces` | apps/anila-shell/src/chat.jsx:2761-2791 | the chosen draft takes the box whole and leaves the list; what was in the box takes its place at the end iff not blank |
| `DraftProtocol.TakeBackLosesNothing` | apps/anila-shell/src/chat.jsx:2956-2983 | a text handed back leaves every recoverable draft and pending send as it was and loses no text; if accepted it is kept itself; handing it back again changes nothing |
| `DraftProtocol.HeldIff` | apps/anila-shell/src/chat.jsx:3170-3176 | a send is held back iff one with the same key has been pending since the keys were last cleared |
| `DraftProtocol.NeverTwice` | apps/anila-shell/src/chat.jsx:3170-3182 | two pending sends with one key were sent in different stays in a conversation |
| `DraftProtocol.EpochMoves` | apps/anila-shell/src/chat.jsx:2607-2615 | the number of times the keys were cleared goes up exactly when a conversation is left |
| `DraftProtocol.SecondSendIff` | apps/anila-shell/src/chat.jsx:2611-2612 | a key already pending goes out again iff the conversation has been left since every earlier send of it |
| `DraftProtocol.TwiceAfterComingBack` | apps/anila-shell/src/chat.jsx:2607-2615 | leaving a conversation and returning lets one key be pending twice in it |
| `DraftProtocol.TicketReleased` | apps/anila-shell/src/chat.jsx:3177-3195 | a send that throws or is refused at once leaves keys and box as they were |
| `DraftProtocol.SwitchBalanced` | apps/anila-shell/src/chat.jsx:2928-2954 | a switch touches no list and no pending send, and no text vanishes from the box and storage together, except the one typed where there was no conversation when the one opened has its own |
| `DraftProtocol.ParkedStays` | apps/anila-shell/src/chat.jsx:2933-2943 | no event but a switch touches the stored text of another conversation |
| `DraftProtocol.ThereAndBack` | apps/anila-shell/src/chat.jsx:2802-2811 | switching to another conversation and back restores the box, every list and the pending sends |
| `DraftProtocol.SwitchLosesTextIff` | apps/anila-shell/src/chat.jsx:2933-2951 | a switch loses typed text iff the page had no conversation yet and the one opened has another stored draft |
| `DraftProtocol.InvApply` | apps/anila-shell/src/chat.jsx:3152-3262 | every event keeps ids distinct, skills unrepeated and every in-flight key pointing at the pending send that took it |
| `DraftProtocol.TrimTwice` | apps/anila-shell/src/chat.jsx:3154 | trimming a trimmed text changes nothing, so a restored draft is the same draft |
| `DraftProtocol.TrimIs` | apps/anila-shell/src/chat.jsx:3154 | trimming removes the whitespace at both ends and nothing else |
| `DraftProtocol.DistinctHasAll` | apps/anila-shell/src/chat.jsx:2635-2643 | applying skills keeps exactly the skills given |
| `DraftProtocol.Composer.ApplySkills` | apps/anila-shell/src/chat.jsx:2635-2643 | in place: keeps the first occurrence of each skill |
| `DraftProtocol.Composer.PublishRecoverable` | apps/anila-shell/src/chat.jsx:2732-2736 | in place: the list of the current conversation is replaced |
| `DraftProtocol.Composer.RetainRecoverable` | apps/anila-shell/src/chat.jsx:2737-2747 | in place: a draft is appended under a new id |
| `DraftProtocol.Composer.DiscardRecoverable` | apps/anila-shell/src/chat.jsx:2748-2760 | in place: the entry with this id leaves the list |
| `DraftProtocol.Composer.RestoreRecoverable` | apps/anila-shell/src/chat.jsx:2761-2791 | in place: the entry and the box change places |
| `DraftProtocol.Composer.InsertSuggestion` | apps/anila-shell/src/chat.jsx:2842-2876 | in place: a suggestion is applied once a token |
| `DraftProtocol.Composer.TakeRestoredDraft` | apps/anila-shell/src/chat.jsx:2956-2983 | in place: a text handed back is applied once a token |
| `DraftProtocol.Composer.ReleaseInflight` | apps/anila-shell/src/chat.jsx:3177-3180 | in place: a ticket frees its key only while the key is its own |
| `DraftProtocol.Composer.FinishSend` | apps/anila-shell/src/chat.jsx:3214-3247 | in place: the answer of a send frees its key, then the three cases |
| `DraftProtocol.Composer.SubmitDraft` | apps/anila-shell/src/chat.jsx:3152-3262 | in place: the guards in order, the ticket, and the four ways `onSend` can reply |
| `DraftProtocol.Composer.LeaveConversation` | apps/anila-shell/src/chat.jsx:2606-2615 | in place: keys are cleared, the text is stored, the list is parked |
| `DraftProtocol.Composer.SwitchConversation` | apps/anila-shell/src/chat.jsx:2802-2811 | in place: leaving and taking up the next conversation's list and text |
| `JwksCache.KeysFromOneFetch` | packages/anila-agent-quickstart/platform_io.py:195-200 | in every run keys and timestamp are those of the latest successful fetch, together |
| `JwksCache.OnlySuccessInstalls` | packages/anila-agent-quickstart/platform_io.py:194-200 | failed, skipped, cancelled and refused steps leave keys and timestamp alone |
| `JwksCache.ForcedFetchesApart` | packages/anila-agent-quickstart/platform_io.py:190-193 | forced fetches start at least 2 seconds apart, whoever asks |
| `JwksCache.OneAwaitedFetch` | packages/anila-agent-quickstart/platform_io.py:186-195 | at most one task awaits a fetch, and it holds the lock |
| `JwksCache.OneFetchUnlessCancelled` | packages/anila-agent-quickstart/platform_io.py:186-195 | the fetches under way are at most one more than the fetches cancelled in the run |
| `JwksCache.AtMostOneFetchIff` | packages/anila-agent-quickstart/platform_io.py:186-195 | in every run at most one fetch is under way iff every cancelled fetch has ended, or all but one have and no call is fetching |
| `JwksCache.OrphansAre` | packages/anila-agent-quickstart/platform_io.py:195 | fetches nobody awaits are exactly those cancelled in the run whose thread has not ended in it |
| `JwksCache.OnlyFetchIff` | packages/anila-agent-quickstart/platform_io.py:195 | a fetch that begins is the only one under way iff as many threads of cancelled fetches ended in the run as fetches were cancelled |
| `JwksCache.CancelledFetchOverlaps` | packages/anila-agent-quickstart/platform_io.py:186-195 | from every state with a fetch under way, cancelling it and calling again when the keys are due makes two run at once |
| `JwksCache.FirstCallFetches` | packages/anila-agent-quickstart/platform_io.py:183-195 | the first call on a configured cache has a fetch under way |
| `JwksCache.AcceptedKeysAreCurrent` | packages/anila-agent-quickstart/platform_io.py:210-224 | a token is accepted only with the keys cached at that moment, under 300 seconds old at the check or installed after that call began |
| `JwksCache.PassNeedsClaims` | packages/anila-agent-quickstart/platform_io.py:217-224 | an event accepts at most one token, and only when the signature check returns claims |
| `JwksCache.EveryPassHasClaims` | packages/anila-agent-quickstart/platform_io.py:217-224 | in every run each accepted token was accepted by an event with that verdict |
| `JwksCache.ValidTokenPasses` | packages/anila-agent-quickstart/platform_io.py:213-218 | on fresh keys a token that verifies is accepted at once |
| `JwksCache.RetryIff` | packages/anila-agent-quickstart/platform_io.py:219-224 | on fresh keys a token that does not verify is retried iff it names a key that is not cached, and otherwise refused |
| `JwksCache.StaleCallWaits` | packages/anila-agent-quickstart/platform_io.py:211-212 | without fresh keys a call waits for a forced refresh |
| `JwksCache.UnconfiguredIsRefused` | packages/anila-agent-quickstart/platform_io.py:184-214 | without an address nothing is fetched and such a call is refused |
| `JwksCache.FetchDecides` | packages/anila-agent-quickstart/platform_io.py:195-223 | when the awaited fetch succeeds the token is accepted iff it verifies, after a retry only if its key is among the new ones |
| `JwksCache.FailedFetchRefuses` | packages/anila-agent-quickstart/platform_io.py:196-214 | when it fails, a call that began without fresh keys is refused |
| `JwksCache.AcquireDecides` | packages/anila-agent-quickstart/platform_io.py:187-223 | the same when no fetch is due by then |
| `JwksCache.FetchesIff` | packages/anila-agent-quickstart/platform_io.py:187-193 | a fetch starts unforced without keys or when they are 240 seconds old, forced 2 seconds after the last forced one, and not otherwise |
| `JwksCache.RefreshTellsTruth` | packages/anila-agent-quickstart/platform_io.py:188-191 | a refresh that fetches nothing answers whether the keys are fresh |
| `JwksCache.InvApply` | packages/anila-agent-quickstart/platform_io.py:183-224 | every step keeps keys, installs, lock, forced times and callers consistent |
| `JwksCache.Store.BeginRefresh` | packages/anila-agent-quickstart/platform_io.py:187-193 | in place: answers at once or asks for a fetch, and stamps a forced one |
| `JwksCache.Store.EndRefresh` | packages/anila-agent-quickstart/platform_io.py:194-200 | in place: installs keys and time of a success and changes nothing on failure |
| `JwksCache.Store.VerifyFirst` | packages/anila-agent-quickstart/platform_io.py:213-221 | the check before any retry: not ready, accepted, refused, or a retry for an unknown key id |
| `RouterCredential.TokenIsAVersionOfTheFile` | services/anila-core-router/main.py:120-202 | in every run: source `file` iff the token is non-empty, such a token is the content of the version with the remembered mtime without the whitespace around it, and the published setting agrees |
| `RouterCredential.LoadIs` | services/anila-core-router/main.py:120-153 | a token comes exactly from a readable regular file with more than whitespace in it; the other sources name the other cases |
| `PythonText.StripIs` | services/anila-core-router/main.py:140 | stripping removes whitespace at both ends and nothing else |
| `PythonText.StripBlankIff` | services/anila-core-router/main.py:147 | nothing is left iff all is whitespace |
| `PythonText.AsciiSpaces` | services/anila-core-router/main.py:140 | blanks, tabs and newlines are whitespace, printable ASCII is not |
| `RouterCredential.ReloadRefinesIff` | services/anila-core-router/main.py:177-202 | after a reload token and source are what the file gives now, except exactly when a token from the file is kept while the same version has become unreadable |
| `RouterCredential.UnreadableTokenKept` | services/anila-core-router/main.py:184-191 | a run in which a token stays in use though its file can no longer be read |
| `RouterCredential.FailuresRecover` | services/anila-core-router/main.py:184-201 | `file_error` and `file_missing` are resolved by the next reload even if mtime did not move |
| `RouterCredential.NoSourceNoMtime` | services/anila-core-router/main.py:127-129 | without a configured file there is never a remembered mtime, and reloads stay without a token |
| `RouterCredential.Globals.LoadServiceToken` | services/anila-core-router/main.py:120-153 | token and source for each state of the file |
| `RouterCredential.Globals.RememberFileMtime` | services/anila-core-router/main.py:156-165 | in place: the mtime of a regular file, otherwise none |
| `RouterCredential.Globals.PublishServiceToken` | services/anila-core-router/main.py:168-174 | in place: token, source, setting and mtime move together |
| `RouterCredential.Globals.ReloadServiceToken` | services/anila-core-router/main.py:177-202 | in place: the shortcut, the unchanged case and the publication, branch by branch |
| `PrimaryModel.NameMeansNoError` | services/anila-core-router/main.py:274-329 | in every run a name never stands beside an error |
| `PrimaryModel.AtMostTwoRequests` | services/anila-core-router/main.py:272-299 | one refresh sends at most two requests, the second iff the first was refused with 401 or 403 and reloading gave another non-empty token |
| `PrimaryModel.QueuedCallersAskNothing` | services/anila-core-router/main.py:259-266 | after a refresh that gets a name, no run of callers, timers, reloads and cancellations sends a request or changes the cache until 60 seconds after the refresh began |
| `PrimaryModel.CurrentNameStays` | services/anila-core-router/main.py:259-266 | the same from any state with a current name and no refresh under way |
| `PrimaryModel.RotationPickedUpIff` | services/anila-core-router/main.py:285-299 | a rotation that lands during the request is picked up iff no other reload installed it first |
| `PrimaryModel.RotationMissed` | services/anila-core-router/main.py:285-312 | a run in which a rotated credential is not tried because the reload timer was first |
| `PrimaryModel.PassesAreStamped` | services/anila-core-router/main.py:332-339 | a chat request passes only with the name of a 200, stamped under 60 seconds before or fetched by its own refresh |
| `PrimaryModel.PassIsFreshIff` | services/anila-core-router/main.py:328-339 | a request that passes without a refresh of its own carries a name from a 200 begun under 60 seconds before iff no refresh was cancelled in mid-request since that 200 |
| `PrimaryModel.EveryPassFreshIff` | services/anila-core-router/main.py:332-339 | the same for every pass of every run, with the request's own refresh: under 60 seconds iff its answer came within 60 seconds |
| `PrimaryModel.StampIsTrueIff` | services/anila-core-router/main.py:259-266 | in every run the stamp beside a name is the begin time of the refresh that got it iff no refresh was cancelled in mid-request since; otherwise it is at least 60 seconds late |
| `PrimaryModel.CancelledRefreshRevivesName` | services/anila-core-router/main.py:328-339 | after a cancelled refresh a chat request passes with a name over 1000 seconds old |
| `PrimaryModel.OwnRefreshPassesAtAnyAge` | services/anila-core-router/main.py:336-339 | a request that awaited its own refresh passes with that name however long the answer took |
| `PrimaryModel.ChatPassesIff` | services/anila-core-router/main.py:332-339 | a chat request passes at once iff there is a name stamped under 60 seconds before, and waits otherwise |
| `PrimaryModel.LastAnswerDecides` | services/anila-core-router/main.py:274-329 | a 200 with a name installs it and lets the waiting request pass; any other last answer removes the name, leaves an error and turns it away |
| `PrimaryModel.RequestsUseNewToken` | services/anila-core-router/main.py:260-299 | each request carries the token that reloading has just given |
| `PrimaryModel.Globals.BeginRefresh` | services/anila-core-router/main.py:258-270 | in place: installs the reloaded token and asks iff the name is not current |
| `PrimaryModel.Globals.FirstAnswer` | services/anila-core-router/main.py:274-329 | in place: each answer's effect on name, error and stamp, or the retry with the new token |
| `PrimaryModel.Globals.SecondAnswer` | services/anila-core-router/main.py:300-312 | in place: the second answer settles the refresh |
| `PrimaryModel.Globals.Cancelled` | services/anila-core-router/main.py:328-329 | in place: only the stamp changes |
| `DatetimeGate.EmptyIffUnreachable` | infra/checks/check_response_datetime_utc.py:146-175 | the gate reports nothing iff no datetime-typed field is reachable through nested models, on cyclic graphs too |
| `DatetimeGate.PathsAreTrails` | infra/checks/check_response_datetime_utc.py:146-175 | the reported paths are exactly the dotted renderings, with `[]` for list and tuple elements, of the ways through fields that are not datetime-typed to a datetime field that visit no model twice |
| `DatetimeGate.TrailReported` | infra/checks/check_response_datetime_utc.py:154-175 | the path of every such way is reported, below any prefix and any models already on the path |
| `DatetimeGate.ReportedHasTrail` | infra/checks/check_response_datetime_utc.py:154-175 | every reported path is the path of such a way |
| `DatetimeGate.FieldReported` | infra/checks/check_response_datetime_utc.py:154-175 | every datetime field of every model reachable through fields that are not datetime-typed themselves is reported, by the path of a way to it |
| `DatetimeGate.UnionHidesInner` | infra/checks/check_response_datetime_utc.py:162-164 | of a field that may be a datetime or a model with one, only the field itself is reported |
| `DatetimeGate.RenderIs` | infra/checks/check_response_datetime_utc.py:160-174 | a path is the names on the way joined by dots, with `[]` where a list or tuple is entered |
| `DatetimeGate.IsDatetimeIff` | infra/checks/check_response_datetime_utc.py:105-120 | a field is datetime-typed iff a datetime stands anywhere in its annotation |
| `DatetimeGate.UnwrapIff` | infra/checks/check_response_datetime_utc.py:131-143 | the models walked into are those anywhere in the annotation |
| `DatetimeGate.ElementsIff` | infra/checks/check_response_datetime_utc.py:168-171 | the second walk goes over the models of a list or tuple and of nothing else |
| `DatetimeGate.Found` | infra/checks/check_response_datetime_utc.py:154-175 | a datetime reachable without the models on the current path is reported |
| `DatetimeGate.Blame` | infra/checks/check_response_datetime_utc.py:159-175 | whatever is reported is reachable |
| `DatetimeGate.DatetimeFieldPaths` | infra/checks/check_response_datetime_utc.py:146-175 | terminates on every graph (models not yet on the path decrease) and returns the paths of the recursive account, in order |
| `DatetimeGate.VisitField` | infra/checks/check_response_datetime_utc.py:159-174 | one field: its own path, or those below it, list and tuple arguments walked a second time |
| `DatetimeGate.VisitNested` | infra/checks/check_response_datetime_utc.py:165-166 | the paths below a list of nested models, in order |
| `DatetimeGate.UnwrapResponseModel` | infra/checks/check_response_datetime_utc.py:131-143 | the model classes inside an annotation, in order |
| `Percentile.SortOf` | tools/loadtest/generate.py:27 | a sorted permutation of the values |
| `Percentile.SortedUnique` | tools/loadtest/generate.py:27 | a multiset has one sorted listing |
| `Percentile.PercentMonotone` | tools/loadtest/generate.py:24-34 | monotone in p, within an interpolation cell and across cells |
| `Percentile.PercentEnds` | tools/loadtest/generate.py:24-34 | the least value at 0 and the greatest at 100, both from the list |
| `Percentile.PercentInRange` | tools/loadtest/generate.py:24-34 | always between the least and the greatest value |
| `Percentile.PercentInterpolates` | tools/loadtest/generate.py:30-34 | between two neighbours in order the percentile goes up by the fraction of the way times the gap |
| `Percentile.PercentOrderIrrelevant` | tools/loadtest/generate.py:24-34 | does not depend on the order of the values |
| `Percentile.AtMonotone` | tools/loadtest/generate.py:30-34 | interpolation grows with the rank |
| `Percentile.Between` | tools/loadtest/generate.py:33-34 | the weighted mean of two neighbours lies between them |

## Left out

General

- Floating point: coordinates, areas, times and percentiles are exact reals; the grid size is a parameter.
- Input and output themselves: HTTP, files, databases, canvas, presentation writing, logging.
- Fairness of locks and queues: a waiting task may be chosen in any order.

Slide renderer

- `EmptyRegion`, `SlideOverlap`: shapes are taken as given; reading them out of slide XML with regular expressions is not modelled.
- The whitespace ratio, overflow and text-density defects, which are single comparisons.
- `OrgChart`: positions within a row, SVG markup and connectors.
- `DeckKinds`: what is drawn on a slide, and a renderer that throws (the request then fails as a whole).

Event stream

- JSON syntax: an abstract pair of functions that round-trips one-line objects (`SseCodec` shows one exists).
- Text chunks, not bytes: llm.py:206 decodes each chunk by itself, so a cut inside a UTF-8 code point raises there.
- Objects of an unexpected shape (choices that are not a list, a delta that is not an object), which raise other exceptions.
- `SseServer.Stream`: a responder that catches its cancellation at a heartbeat may do anything next, so what the loop observes is left open; `HeartbeatCutsShort` covers one that does not.
- `_collect` and its limit on the sum of the pieces, and the text of error messages.

Chat shell

- Regenerate, message-action and interrupt-answer streams, background answers, and the steps of `sendMessage` before the turn is registered.
- Writing `interrupted` when the page closes.
- Chains are first in, first out per conversation (reservedTurn.js:295-304); the callbacks between a head's answer and its stream are assumed not to throw.
- `TurnGuarantees.OneFinalWrite`: a write is the call that issues it; whether the server accepts it is not modelled.
- `DraftProtocol`: the effects that follow one change of conversation are one event; unmounting, late results of uploads, previews, queued attachments and the ghost suggestion are not modelled.
- `DraftProtocol.DraftsConserved`: text changed by the user, a suggestion or a returned text is a draft leaving the box and another coming in; so is a whole draft on a switch, which parks its text and leaves attachments and skills in the box.
- The send key, the audience prompt and the redaction gate are arguments of the submit event.

Caches

- Cryptography and token parsing: the verdict on a token is an argument.
- `RouterCredential`: read and stat are one step, and a change of content changes mtime; a `stat` refused by permission and bytes that are not UTF-8 are left out.
- `PrimaryModel`: the wall clock does not go back; the body of a 200 is a name or none.
- Startup and shutdown of the loops that call these caches.

Others

- `DatetimeGate.PathsAreTrails`: says which paths are reported, not how often.
- `Percentile`: p outside 0..100, where the source indexes out of range or from the end.
- Drag and keyboard handling, styling, certificates, lint lists and deployment.
