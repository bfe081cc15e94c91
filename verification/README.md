# Proved properties of the agent core

A QQ/WebUI chat agent sends long model replies in pieces, talks to several model providers,
keeps durable side effects and approvals across restarts, and moves its stored data to new
session identities. This project models the algorithms and protocols in that core that are
hardest to get right and proves what they keep, over all inputs and over whole runs.

- **Markdown** (`LineKinds`, `LineShapes`, `StreamCut`, `CutPlaces`, `Delivery`, `TextChunks`, `Packing`, `WordsKept`,
  `Pages`, `Blocks`, `Headings`, `Splitter`, `SampleMessages`): where a growing message may be cut, what of it is sent
  when, and how a finished one is split into bounded chunks.
- **Model replies** (`MessageRepair`, `StreamState`, `ResponseStream`, `StreamAgreement`, `StreamOrder`): repairing a
  history before a request, and why a streamed reply is the message the batch parser returns.
- **Paging** (`Paging`, `FilePaging`): pages of a text, and the bounded reader of a file that gives the same pages.
- **Admission** (`Outbox`, `Leases`, `Admission`): the outbox of side effects, its leases, and the order in which a
  message is prepared, logged and released, with failures and crashes between any two steps.
- **Approvals** (`ApprovalStore`, `Approval`, `ApprovalRuns`): requests that wait for an administrator, with timeouts,
  cancellations and restarts.
- **Migration** (`Migration`, `JsonIdentity`): changing files with an undo journal, and renaming identities in JSON.
- **Archive and fallback** (`Archive`, `Fallback`): batches of archived events, and trying models of a chain in turn.

`Text` holds what is shared about strings. Code that works in place is a class or a loop proved equal to a function on
values; the theorems are about those functions. Protocols are state machines whose events may come in any order; a run
theorem speaks about every reachable state. Where a heavy definition would drown a proof, a module takes it as a
parameter (`View`, `Machine`) with the facts it needs, and these are proved of the real definition (`Classify`,
`MARKDOWN`).

## Where the code does not do what one would expect

- `_de_orphan_headings`, and with it `split_markdown`, need not come to an end: a repeated header row can make a movable
  line again. Exactly when it does is `Headings.EndsUnlessStuck`; `SampleMessages.MessageWithoutEnd` is a message of four
  lines that `split_markdown` does not get through with a limit of 8 bytes.
- The splitter loses lines: a line that looks like a fence but does not close the open one is dropped
  (`SampleMessages.MessageWithFences`), and behind a table without rows a later header row is replaced by that table
  (`SampleMessages.MessageWithLostHeader`). `Blocks.LinesAreKept` says exactly which messages keep all their lines.
- A chunk can be one byte longer than its limit: exactly when a heading or lead-in that fills the limit is a chunk of its
  own, and the next chunk is no fence (`Headings.OverlongExactly`); `SampleMessages.MessageOverLimit` is a message. A page can be one character longer:
  exactly when is `Paging.PageLength`, and `Paging.PageOverLimit` a text.
- Splitting a paragraph that is too long sets sentences apart that had no white space between them, with a newline or a
  chunk boundary, although each of them fits (`WordsKept.SentenceSetApart`). Exactly when a text keeps its words is
  `WordsKept.TextKeepsWords`.
- One pass of `ensure_messages_consistent` need not be enough (`MessageRepair.OnePassIsNotEnough`); when it is, is
  decided exactly by `MessageRepair.OnePassSuffices`.
- `_count_newlines` counts a separator byte twice when a read chunk ends with it, although its comment says the overlap
  removes such errors. `FilePaging.FileIsPagedRight` says for which files and requests this shows,
  `FilePaging.MiscountedFile` shows files that are paged wrong, `FilePaging.SampleFile` one of them.
- `markdown_safe_cut` may return one more than the length of the text; exactly when is `StreamCut.CutBeyondTheEnd`. The
  text is then sent although its last line is unfinished, and that line may grow into one that leaves the fence open
  (`SampleMessages.MessageCutPastEnd`, `SampleMessages.MessageReopensFence`). `Delivery.StreamedRun` says exactly in
  which runs every block stands on its own.
- Reasoning behind an empty message is kept by the parser and can be lost by the stream
  (`StreamAgreement.EmptyMessageLosesReasoning`); exactly when is `StreamAgreement.AgreeUnlessLost`, and
  `StreamOrder.AgreeInEveryOrderUnlessLost` for calls that interleave.
- The code awaits between the verdict of recovery and its effect. A verdict that is carried out late deletes effects of
  a logged message (`Admission.LateVerdictLosesEffects`) or lets one be logged without any
  (`Admission.VerdictDuringAdmissionLosesEffects`); nothing else deletes effects that are needed and have not succeeded
  (`Admission.LateVerdictsLose`).
- A request that is cancelled while its card is being sent leaves its entries behind: denied later, it keeps its plan
  (`ApprovalRuns.DeniedPlanStays`, `ApprovalRuns.SampleDenial`). No other denied request does (`ApprovalRuns.PlanOfDeniedRequest`).
- Asking whether a failed model is cooling forgets its failures once it is not, and every call of a run is preceded by
  such a question. Over any such runs, one after the other, a model therefore counts one failure at most: a threshold
  above one never lets it cool, and the delays for repeated failures are never used (`Fallback.Runner.Run`,
  `Fallback.FirstFailureOnly`).
- The cooldown delay is graded only for sensible settings, which the code does not check (`Fallback.DelayIsGraded`).

## Model

| member | source | states |
|---|---|---|
| LineKinds.ClassifyFacts | core/markdown_split.py:52-192 | on every line the predicates agree: a separator is a row, a row starts with a pipe, rows, separators, URLs, fences and annotations are never headings or lead-ins, blank lines are nothing |
| LineKinds.ClosingKind | core/markdown_split.py:57-60 | a fence line closes a marker exactly when it is bare, of the same character and at least as long |
| LineKinds.HeadingKind | core/markdown_split.py:100-145 | what a heading or continuation is depends on the boundary only as the recorded kind says |
| LineShapes.FencePattern | core/markdown_split.py:52-54 | a line is a fence with a marker if and only if it is white space, then that many back-ticks or tildes, at least three, then anything that starts otherwise |
| LineShapes.MarkerPattern | core/markdown_split.py:78-88 | a line is a list marker if and only if it is at most four blanks, a bullet or a number of up to three digits with a dot or parenthesis, and then white space or its end |
| LineShapes.HeadingPattern | core/markdown_split.py:92-139 | a line is an ATX heading if and only if it is at most three blanks, one to six `#`, white space and a title |
| LineShapes.ItemPattern | core/markdown_split.py:195-202 | where a paragraph is taken apart: the marker pattern behind blanks and tabs only |
| StreamCut.TrailingStructure | core/markdown_split.py:505-555 | the line loop computes the structure a text leaves open |
| StreamCut.MarkdownSafeCut | core/markdown_split.py:558-733 | the loop, its early end at the limit included, computes the cut of the spec |
| StreamCut.CutIsLastMark | core/markdown_split.py:593-733 | the cut is the last line start that was accepted, and nothing else |
| StreamCut.FenceComposes | core/markdown_split.py:505-555 | scanning the rest of a text from the structure its beginning leaves gives the fence state of the whole, for any split at a line end |
| StreamCut.CutEndsOutsideFences | core/markdown_split.py:558-733 | a cut inside the text falls just after a newline, and what is in front of it leaves no fence open |
| StreamCut.MarkdownIsSound | core/markdown_split.py:593-733 | the rules in use follow fences exactly and accept cuts outside fences only |
| StreamCut.HeadingKeepsItsContent | core/markdown_split.py:624-662 | no cut between a top-level heading or lead-in and the next non-blank line, unless that opens a fence |
| StreamCut.LeadAndHeaderKeepNextLine | core/markdown_split.py:670-732 | no cut between a lead-in or title in a list item and a marker right behind it, nor between a header row and its separator |
| StreamCut.EntryStaysTogether | core/markdown_split.py:624-732 | a bare URL or annotation is cut off only from a closed structure |
| StreamCut.CutBeyondTheEnd | core/markdown_split.py:593-733 | the cut is past the end exactly when the unfinished last line closes a fence or is a row of an open table |
| CutPlaces.StateTells | core/markdown_split.py:593-733 | what the scan keeps track of at each line is what the lines in front of it say: the fence around it, whether it stands in a list item or table, and whether a heading or lead-in binds it |
| CutPlaces.CutIsLastSafe | core/markdown_split.py:593-733 | the cut is exactly the last line start in reach that is safe, told from the lines alone |
| CutPlaces.TextIsCut | core/markdown_split.py:701-725 | outside fences and list items a finished line of text can be cut off, unless a lead-in, URL or annotation follows: the cut is there or behind |
| CutPlaces.BlankIsCut | core/markdown_split.py:701-711 | so can a blank line that is bound to no heading, unless a URL or annotation follows |
| CutPlaces.ItemEndIsCut | core/markdown_split.py:634-653 | so can a blank line or annotation that ends a list item, and an annotation elsewhere |
| CutPlaces.StructureEndIsCut | core/markdown_split.py:597-622 | so can the line that closes a fence and each row of a table |
| CutPlaces.FenceStartIsCut | core/markdown_split.py:597-606 | the start of a fence can be cut |
| CutPlaces.MarkerStartIsCut | core/markdown_split.py:624-678 | so can the start of a list item that is bound to nothing in front of it |
| CutPlaces.HeaderIsNotCutOff | core/markdown_split.py:689-700 | no cut between a heading or lead-in in the text and the next line that is not blank, unless that opens a fence |
| CutPlaces.HeadingIsKept | core/markdown_split.py:672-732 | the same for every scan under these rules, whatever was sent before |
| CutPlaces.LeadIsKept | core/markdown_split.py:624-662 | no cut between a lead-in of a list item and a marker right behind it |
| CutPlaces.HeaderIsKept | core/markdown_split.py:608-622 | no cut between the header row of a table and its separator |
| CutPlaces.EntryIsKept | core/markdown_split.py:644-702 | a URL or annotation is cut off only from a closed structure |
| CutPlaces.TrailingIs | core/markdown_split.py:505-555 | the structure a text leaves open, told from its lines: the fence still open, and whether the last lines stand in a list item or table |
| Delivery.CountPrefix | core/markdown_split.py:35-49 | the loop finds the longest prefix of at most so many bytes |
| Delivery.SendExtends | core/tools/stream_delivery.py:162-206 | an attempt sends nothing or one block, which goes on where the last one ended; a broken off stream always sends something |
| Delivery.WithoutSafeCut | core/tools/stream_delivery.py:185-195 | without a safe cut nothing is sent while the text is under the limit; over it all finished lines are, or for want of one as much as fits; a broken off stream is sent whole |
| Delivery.HeldBack | core/markdown_split.py:736-750 | an idle flush waits if and only if the pending text starts with a table line, URL or annotation, or the last line sent that is not blank is a fence line |
| Delivery.BlocksArePrefix | core/tools/stream_delivery.py:162-206 | over every run on a growing text, text sent without a safe cut included, the blocks concatenate to a prefix of the text |
| Delivery.ReplyIsComplete | core/tools/stream_delivery.py:140-160 | the blocks and what is sent at the end are the reply, nothing lost or sent twice |
| Delivery.SendOnce | core/tools/stream_delivery.py:162-206 | behind blocks that stand on their own an attempt keeps that if and only if it is not careless, which is told from the text: the cut lies past its end; or without a safe cut the stream broke off in a line or with a fence open; or a text over the limit has no newline, or a fence open at the last one |
| Delivery.StreamedRun | core/tools/stream_delivery.py:162-206 | over a whole run, for every sound rule set, each block consists of whole lines and begins and ends outside any fence if and only if no attempt was careless |
| Delivery.StreamedMarkdown | core/markdown_split.py:558-733 | the run theorem for the rules in use |
| Delivery.UnfinishedFenceIsSent | core/tools/stream_delivery.py:175-195 | a text that ends in an unfinished closing line is sent whole, by a careless attempt |
| Delivery.UnfinishedFenceReopens | core/markdown_split.py:505-555 | the fence then counts as closed, and is open when that line has grown on |
| Delivery.StreamDelivery.OnSnapshot | core/tools/stream_delivery.py:99-118 | a snapshot of the current generation is taken up, and one block sent once enough is pending |
| Delivery.StreamDelivery.Flush | core/tools/stream_delivery.py:162-206 | at most one block is sent, and what has been sent stays the beginning of the text |
| Delivery.StreamDelivery.OnReset | core/tools/stream_delivery.py:120-122 | a new generation starts from nothing |
| Delivery.StreamDelivery.Abort | core/tools/stream_delivery.py:124-138 | a stream that broke off is sent to its end, and the loop ends |
| Delivery.StreamDelivery.Finish | core/tools/stream_delivery.py:140-160 | what has been sent and the final text are the reply |
| SampleMessages.MessageCutPastEnd | core/tools/stream_delivery.py:175-195 | two unfinished lines of back-ticks are cut past their end and sent as they stand |
| SampleMessages.MessageReopensFence | core/markdown_split.py:505-555 | one letter more, and what was sent as outside the fence is inside it |
| TextChunks.AppendAdds | core/markdown_split.py:208-219 | merging into the last chunk or starting a new one adds exactly the text's ink, within the limit |
| TextChunks.HardCut | core/markdown_split.py:35-49 | pieces concatenate to the sentence; with a limit of 4 or more bytes each fits and none could take one character more |
| TextChunks.ChunkParagraph | core/markdown_split.py:236-261 | all ink of a paragraph is added behind the chunks, in order, within the limit |
| TextChunks.TextAdds | core/markdown_split.py:222-261 | all ink of a text is added behind the chunks, in order, in chunks within the limit |
| TextChunks.TextKeepsBound | core/markdown_split.py:208-261 | writing text keeps the chunks within the limit if and only if they were before |
| TextChunks.ChunkText | core/markdown_split.py:222-261 | the loops write the text as the function says, with all its ink |
| TextChunks.PiecesOfParagraph | core/markdown_split.py:236-246 | grouping a paragraph at its list markers keeps its ink |
| TextChunks.PiecesStartAtMarkers | core/markdown_split.py:234-239 | the pieces of a paragraph are its lines in order; a marker starts each but the first and stands nowhere else |
| TextChunks.SentencesEnd | core/markdown_split.py:245-246 | each sentence but the last ends in a sentence end and holds none before |
| TextChunks.SentenceEnds | core/markdown_split.py:245 | which characters end a sentence |
| Packing.TextIsPacked | core/markdown_split.py:208-261 | the chunks of a text are its units in order (paragraphs, else list items, else sentences, else pieces of a sentence), joined by blank line or newline in groups none of which could have taken the next unit |
| Packing.NeighboursStayApart | core/markdown_split.py:208-261 | unless a sentence had to be cut, no two neighbouring chunks would fit into one with a blank line between |
| WordsKept.ParagraphsJoin | core/markdown_split.py:226 | the paragraphs with blank lines between are the text |
| WordsKept.ParagraphsHoldNone | core/markdown_split.py:226 | and none of them holds an empty line |
| WordsKept.PackingKeepsWords | core/markdown_split.py:208-219 | merging keeps units apart: the words of the chunks are those of the units |
| WordsKept.TextKeepsWords | core/markdown_split.py:222-261 | the words of the chunks are those of the text in order, torn at as many places as a cut between sentences or characters goes through a word, and nowhere else; so they are the same if and only if there is no such cut |
| WordsKept.WholeParagraphs | core/markdown_split.py:222-233 | where every paragraph fits, the chunks with blank lines between are the stripped paragraphs with blank lines between |
| WordsKept.SentenceSetApart | core/markdown_split.py:245-252 | a sentence end without white space behind it: the words of such a text are never kept, even if every sentence fits |
| Pages.PagedRight | core/markdown_split.py:272-354 | pages are framed, their bodies concatenate to the body; a page over the limit has at most one line; no page could have taken the next line |
| Pages.PagesFit | core/markdown_split.py:272-354 | all pages keep to the limit if and only if each line fits into the frame |
| Pages.PageFence | core/markdown_split.py:328-354 | the loop over the lines of a fence writes these pages |
| Pages.PageTable | core/markdown_split.py:272-293 | the loop over the rows of a table writes these pages, each with a row |
| Pages.FlushTable | core/markdown_split.py:272-293 | a table is written whole if it fits or has no rows, else paged without loss |
| Pages.FlushFence | core/markdown_split.py:328-354 | a fence is written whole if it fits, else paged without loss |
| Headings.AdvanceProgresses | core/markdown_split.py:437-485 | every step of the walk that is not stuck brings it nearer to its end |
| Headings.AdvanceKeepsLines | core/markdown_split.py:437-485 | a step keeps every line that holds something, in order, where no header is repeated |
| Headings.AdvanceFits | core/markdown_split.py:437-485 | a step keeps every chunk within the limit but for a moved line of exactly the limit, which gains its newline |
| Headings.MovedOver | core/markdown_split.py:455-485 | a move writes a chunk over the limit if and only if the moved line fills the limit |
| Headings.OverlongExactly | core/markdown_split.py:431-486 | a pass over chunks within the limit writes a longer one if and only if one of them is a single line of just the limit that is to be moved, and the next one is no fence |
| Headings.OrphansAreMoved | core/markdown_split.py:431-486 | no chunk is left that ends in a lead-in or heading in front of one that starts with no fence; chunks without one are left alone, and no others |
| Headings.MakeRoom | core/markdown_split.py:455-470 | the inner loop pushes back exactly the lines that do not fit behind the moved one |
| Headings.MoveLine | core/markdown_split.py:449-484 | inserting into the indexed list is the move of the walk |
| Headings.DeOrphanHeadings | core/markdown_split.py:431-486 | for every list on which the walk ends the loop over the growing list is that walk: it leaves no heading or lead-in at the end of a chunk, keeps all lines that hold something, and goes over the limit exactly for such a pair |
| Headings.EndsUnlessStuck | core/markdown_split.py:431-486 | the pass over any chunks ends if and only if none of its first states is stuck, and then within a bound linear in lines and chunks |
| Headings.LooseEnds | core/markdown_split.py:431-486 | it ends if no chunk but the first has a movable line right above a separator with room for just one copy |
| Headings.StuckForEver | core/markdown_split.py:466-475 | a stuck walk stays stuck for any number of steps |
| Blocks.FedStands | core/markdown_split.py:373-414 | what one line does to the lines held: kept behind all others, dropped, or with the stale table lines in place of the header |
| Blocks.LinesAreKept | core/markdown_split.py:309-426 | every line of a message is in exactly one block, in order, if and only if none is dropped inside a fence and no stale table is written again |
| Blocks.BlockIsWritten | core/markdown_split.py:264-354 | text is written with all its ink, a fence or table whole if it fits, else paged without loss |
| Blocks.CollectedBound | core/markdown_split.py:309-426 | all collected chunks keep to the limit if and only if every fence and table fits, or each of its lines fits into its frame |
| Splitter.Collector.Feed | core/markdown_split.py:373-414 | one line changes the collector as the state function says; it is kept unless dropped or doubling |
| Splitter.Collector.FlushFenceAndClose | core/markdown_split.py:328-354 | an open fence becomes a written block and is closed |
| Splitter.Collector.FlushTableLines | core/markdown_split.py:356-371 | a table with rows becomes a written block; without rows it goes to the text and stays collected |
| Splitter.Collector.FlushText | core/markdown_split.py:264-269 | collected text lines become a written block |
| Splitter.Collector.Finish | core/markdown_split.py:416-424 | unfinished structures are written as they stand, and all lines held end up in blocks unless the table is stale |
| Splitter.Collect | core/markdown_split.py:309-426 | the walk over all lines writes the blocks of the message; plain text with all its ink and its words; within the limit if and only if every block has room |
| Splitter.PipelessEnds | core/markdown_split.py:296-486 | without a pipe in the message the pass over its chunks ends |
| Splitter.SplitMarkdown | core/markdown_split.py:296-428 | for every message it gets through: short text stays whole, longer text is what the pass makes of its chunks, with no heading or lead-in left at the end of one; plain text keeps its words in order, torn only where a cut has to go through one; where all blocks have room, chunks have at most the limit but for a moved line of exactly that size, and there is one exactly when the collected chunks hold such a line in front of no fence |
| SampleMessages.MarkdownShows | core/markdown_split.py:52-192 | the samples speak of views that show what the line predicates say; the one in use does |
| SampleMessages.LeadInAboveSeparator | core/markdown_split.py:222-486 | a family of messages on whose chunks the pass never ends |
| SampleMessages.MessageWithoutEnd | core/markdown_split.py:296-486 | one of them, with a limit of 8 bytes |
| SampleMessages.MessageOverLimit | core/markdown_split.py:296-486 | messages that come out with a chunk one byte over the limit |
| SampleMessages.MessageWithFences | core/markdown_split.py:375-384 | a message whose second line is in no block |
| SampleMessages.MessageWithLostHeader | core/markdown_split.py:356-371 | a message that loses a header row and doubles an earlier table |
| Splitter.MarkdownView | core/markdown_split.py:52-192 | the real predicates meet what the splitter needs of them |
| MessageRepair.History.Collect | core/ai/protocol.py:420-443 | the inner walk gathers the answers of a caller and everything it had to skip |
| MessageRepair.History.EnsureMessagesConsistent | core/ai/protocol.py:407-456 | the index loop overwrites the list with one repair pass |
| MessageRepair.CallerIsRepaired | core/ai/protocol.py:411-447 | a caller whose ids are all answered behind it stays, with the first answer to each pulled up and all else up to the last of them put behind; any other goes, with the answers there are; told from the list alone |
| MessageRepair.OthersAreRepaired | core/ai/protocol.py:417-455 | other messages stay, and stray answers and callers without ids go |
| MessageRepair.RepairKeepsPlainMessages | core/ai/protocol.py:407-456 | a pass drops no message that is neither a tool answer nor a caller, keeps their order, and invents nothing |
| MessageRepair.FixedPointsAreWellFormed | core/ai/protocol.py:396-456 | the fixed points are exactly the lists in which each caller is followed at once by one answer per id, with no other answer |
| MessageRepair.PassMakesProgress | core/ai/protocol.py:407-456 | a pass on any other list shortens it, or keeps its length and lengthens its good prefix |
| MessageRepair.RepeatedRepairSettles | core/ai/protocol.py:396-456 | repeating the pass ends in a well-formed list within a stated bound, with all plain messages still there |
| MessageRepair.OnePassSuffices | core/ai/protocol.py:407-456 | one pass gives a well-formed list if and only if what its scans skip is well formed where it lands |
| MessageRepair.PlainInterleavingNeedsOnePass | core/ai/protocol.py:407-456 | in particular if only plain messages stand between a caller and its answers |
| MessageRepair.OnePassIsNotEnough | core/ai/protocol.py:407-456 | a list on which the second pass still changes something |
| StreamState.Collector.UpsertToolCall | core/ai/protocol.py:228-251 | the call of the key takes up what the event says, or is added at the end; other calls stay, keys stay distinct and in order |
| StreamState.Collector.ReplaceGeneration | core/ai/protocol.py:264-284 | a new generation starts empty |
| StreamState.Collector.Assemble | core/ai/protocol.py:290-313 | text, reasoning and the finished, named calls; nothing if all are empty |
| ResponseStream.SelectLatestOutputItems | core/ai/deepseek_service.py:202-214 | the last message, the reasoning right before it, and all that follows |
| ResponseStream.ParseOutput | core/ai/deepseek_service.py:217-259 | the message of a finished reply |
| ResponseStream.Adapter.Handle | core/ai/deepseek_service.py:470-634 | one event changes context and collector as the step function says, or aborts |
| ResponseStream.AbortsExactly | core/ai/deepseek_service.py:540-634 | a stream is given up exactly at the first event that has to be refused, told from the events in front of it: a failure; reasoning of an item that was not announced; or reasoning of no item, behind a message with output, while neither reasoning nor a call is active |
| ResponseStream.FailureIsGivenUp | core/ai/deepseek_service.py:630-634 | a stream with a failure is given up |
| ResponseStream.ChatCompletionStream | core/ai/deepseek_service.py:470-641 | the event loop assembles what the run of all events gives; it is aborted if and only if an event has to be refused, a failure in particular |
| StreamAgreement.AgreeUnlessLost | core/ai/deepseek_service.py:202-641 | for every list of items with ids that differ and calls behind the last message: the stream assembles the parsed message for every way to cut the items into deltas if and only if the list loses no reasoning |
| StreamAgreement.StreamedEqualsParsed | core/ai/deepseek_service.py:202-641 | in particular if all messages but the last have text |
| StreamAgreement.EmptyMessageLosesReasoning | core/ai/deepseek_service.py:202-641 | with an empty message, reasoning and another message the two differ: the stream drops reasoning the parser keeps |
| StreamAgreement.TwoThoughtsAreKept | core/ai/deepseek_service.py:480-580 | two pieces of reasoning behind an empty message are kept, and so is what follows, although every message before is empty |
| StreamOrder.PairPasses | core/ai/deepseek_service.py:470-634 | behind any events that add its call, an event of a call may be exchanged with the next one of another call, one about its arguments also with reasoning, and session and outcome are the same |
| StreamOrder.AgreeInEveryOrderUnlessLost | core/ai/deepseek_service.py:202-641 | if besides no id of a call is an id of another: the stream assembles the parsed message for every way to cut the items and to interleave the events of calls, each call's own in order, if and only if the list loses no reasoning |
| StreamOrder.DelayBehind | core/ai/deepseek_service.py:470-634 | an event of a call may be delayed behind any number of events that do not concern it |
| StreamOrder.CallsMayAlternate | core/ai/deepseek_service.py:470-634 | so the events of two calls may alternate all the way |
| StreamAgreement.RunReasoningDeltas | core/ai/deepseek_service.py:480-580 | reasoning arrives in order wherever it waits, and waits once a message has output |
| StreamAgreement.MessageRestarts | core/ai/deepseek_service.py:480-560 | at a new message the reply keeps just the reasoning that waited for it |
| StreamAgreement.LatestRestarts | core/ai/deepseek_service.py:202-214 | the same for the parser's selection |
| Paging.ResolveRange | core/text_paging.py:80-99 | an accepted range is not empty and lies in the text |
| Paging.CollectPageRows | core/text_paging.py:134-159 | the loop applies the character budget to at most the rows allowed |
| Paging.CollectTakes | core/text_paging.py:134-159 | the rows collected are rows from the front, complete, or stopped where the next row no longer fits, or cut to exactly the limit |
| Paging.PaginateText | core/text_paging.py:162-177 | the page of a text, or the error, told from the lines and the request alone |
| Paging.PageIs | core/text_paging.py:80-177 | when a page is refused, and otherwise exactly what it shows: as many of the lines asked for as have room, or a part of one; why it ends and where to go on |
| Paging.PageLength | core/text_paging.py:102-159 | a page has at most the limit of characters; one more if and only if its first line is empty, its second fills the limit and two rows are allowed |
| Paging.PageOverLimit | core/text_paging.py:102-159 | a text whose page is longer than its limit |
| Paging.PageAdvances | core/text_paging.py:102-159 | a page shows what it says, and its next offset is behind it but not past the lines shown; 0 only at the end |
| Paging.ChainCoversText | core/text_paging.py:80-177 | following next offsets from line 1, with any limits per page, ends and leaves no line out |
| Paging.ChainRebuildsText | core/text_paging.py:80-177 | if no line is longer than its page may be, the contents joined by newline are the text |
| FilePaging.CountNewlines | core/text_paging.py:180-192 | the count is the number of separators plus the number of chunk boundaries right behind a separator byte |
| FilePaging.SeparatorsAreLineEnds | core/text_paging.py:180-192 | separators in the bytes are line ends of the newline-normalised text |
| FilePaging.TakeLineReads | core/text_paging.py:233-242 | a bounded readline returns the first line, cut, with its newline if that still fits |
| FilePaging.DiscardLine | core/text_paging.py:204-211 | discarding in pieces leads exactly behind the line, and tells whether it had an end |
| FilePaging.WindowRows | core/text_paging.py:214-243 | the generator yields the buffered lines behind the skipped ones, and the empty line behind a final newline |
| FilePaging.TrailsByLastByte | core/text_paging.py:195-201 | the last line is empty exactly when the file is, or ends with a separator byte |
| FilePaging.BudgetIgnoresBuffering | core/text_paging.py:134-159 | buffering only limit + 1 characters of a line does not change what is collected |
| FilePaging.ReadTextPage | core/text_paging.py:246-271 | the page of a file with the counted number of lines |
| FilePaging.BoundedReadsAgree | core/text_paging.py:214-271 | with the right number of lines it is the page, or the error, of the pager in memory |
| FilePaging.FilePageIsPage | core/text_paging.py:180-271 | for any read chunks the two agree if and only if no chunk boundary follows a separator byte, or the request is refused whatever the text |
| FilePaging.FileIsPagedRight | core/text_paging.py:180-271 | with the reads of the program they agree if and only if no byte at a multiple of 2^20 that is not the last is a separator, or the request is refused |
| FilePaging.MiscountedFile | core/text_paging.py:180-271 | an ASCII file whose first line ends with the first read and that goes on: every request that is not refused gets another page than from the text, and one right behind the end gets a page |
| FilePaging.SampleFile | core/text_paging.py:180-271 | such a file |
| Outbox.AdmissionOutbox.Prepare | core/engine/admission_outbox.py:77-116 | new rows are prepared with the payload and the next order of their chat, existing rows stay, unknown effects are refused |
| Outbox.AdmissionOutbox.MarkReady | core/engine/admission_outbox.py:118-129 | prepared rows of a message become ready, it has none left, and all other rows stay as they are |
| Outbox.AdmissionOutbox.Cancel | core/engine/admission_outbox.py:131-138 | the rows of a message are gone, those of others stay as they are |
| Outbox.AdmissionOutbox.Select | core/engine/admission_outbox.py:140-165 | the first claimable rows in order, as many as allowed |
| Outbox.AdmissionOutbox.ClaimReady | core/engine/admission_outbox.py:140-192 | exactly the selected rows are leased until the time given, with one more attempt, and handed out with their payload; others stay |
| Outbox.AdmissionOutbox.Complete | core/engine/admission_outbox.py:194-236 | only the holder of the lease changes the row: it has succeeded or is ready again, and is held by nobody |
| Outbox.AdmissionOutbox.RecoverPrepared | core/engine/admission_outbox.py:238-263 | each message with prepared rows is promoted, deleted or left as its verdict says; others are untouched; the promoted ones are counted |
| Outbox.AdmissionOutbox.PruneSucceeded | core/engine/admission_outbox.py:274-301 | only succeeded rows go: the old ones, and the oldest of those that are too many; their number is returned |
| Outbox.AdmissionOutbox.Process | core/engine/admission_outbox.py:309-360 | after a round every claimed row is finished as its handler said or given back, and the handled ones are counted; cancellation gives back the rest and never touches a finished one |
| Outbox.RoundSettles | core/engine/admission_outbox.py:309-360 | what a round leaves of each row it claimed |
| Outbox.SelectedExactly | core/engine/admission_outbox.py:140-165 | below the limit all rows that are ready, or whose lease has run out, are selected, and no others ever |
| Outbox.UnorderedFirst | core/engine/admission_outbox.py:148-165 | rows without an order go first, by their time, then by message |
| Outbox.SelectedIsUnique | core/engine/admission_outbox.py:148-165 | the selection leaves no choice |
| Outbox.ClaimsInAdmissionOrder | core/engine/admission_outbox.py:148-165 | within a chat an earlier admitted effect that is claimable is claimed too, and first |
| Leases.StaleLeaseDoesNothing | core/engine/admission_outbox.py:194-236 | over every run, once a row has lost a lease, completing it with that lease changes nothing |
| Leases.CleanupKeepsSuccess | core/engine/admission_outbox.py:347-360 | so giving back items after a cancellation never reverts a row that was completed |
| Leases.LeaseIsExclusive | core/engine/admission_outbox.py:140-192 | a row is claimed again before its lease runs out only if its holder gave it back or it was deleted in between |
| Leases.AbandonedIsClaimedAgain | core/engine/admission_outbox.py:140-192 | over every run, a row whose holder leaves it lying is claimed again once its lease has run out, by the next claim with room |
| Leases.ClaimNeedsPrepare | core/engine/admission_outbox.py:97-192 | a deleted row is claimed again only after it was prepared again |
| Leases.PreparedLast | core/engine/admission_outbox.py:97-115 | a row that is prepared later has a higher order than all rows of its chat |
| Admission.StepMovesRows | core/engine/agent_engine.py:1836-1964 | what any step may do to a row: a prepared row changes only for a logged message; a row goes only when it has succeeded, is not needed, or by a verdict of recovery |
| Admission.KeepsSafe | core/engine/agent_engine.py:1836-1964 | every step, failures, crashes and late verdicts included, keeps that only effects of logged messages are released |
| Admission.KeepsInvariant | core/engine/agent_engine.py:1836-1964 | every step but a late verdict keeps the admission invariant |
| Admission.LateVerdictsLose | core/engine/admission_outbox.py:252-263 | a step deletes a row that is needed and has not succeeded if and only if it carries out that a message was not admitted when it is logged or about to be, and not all of its effects have succeeded |
| Admission.NothingReleasedEarly | core/engine/agent_engine.py:1853-1951 | in every run no row leaves prepared, and none is claimed, before its message is in the event log |
| Admission.LoggedEffectsSurvive | core/engine/agent_engine.py:1836-1964 | in every run without a late verdict each effect of a logged message is still in the table at any later time, or has succeeded |
| Admission.RestartRecovers | core/engine/agent_engine.py:2042-2049 | after a crash recovery makes every prepared row of a logged message ready, keeps its other rows, and removes the rows of all others |
| Admission.FailuresLeaveNothing | core/engine/agent_engine.py:1853-1964 | in every run without a crash, each row belongs to a logged message or to an admission under way, unless one failed after its message was accepted or while its rows were taken back |
| Admission.AdmissionReleasesEffects | core/engine/agent_engine.py:1836-1951 | an undisturbed admission logs the message and leaves all its effects ready, rows left by earlier attempts included |
| Admission.LateVerdictLosesEffects | core/engine/admission_outbox.py:252-263 | a run of recovery and one admission in which a verdict deletes the ready effects of a logged message |
| Admission.VerdictDuringAdmissionLosesEffects | core/engine/admission_outbox.py:252-263 | a run in which it comes before the message is logged, which is then logged without effects |
| ApprovalStore.PendingStore.Put | core/approval/pending_store.py:104-127 | a record is kept under the key if it has a name and time to run, else refused |
| ApprovalStore.ReadsBack | core/approval/pending_store.py:24-67 | reading the file back gives a record for every stripped key, one that was written under such a key |
| ApprovalStore.LastOneCounts | core/approval/pending_store.py:24-67 | of several records with one name the last one counts |
| Approval.ApprovalManager.constructor | core/approval/approval_manager.py:66-82 | what has not expired is recovered, the rest is cleared from the store |
| Approval.ApprovalManager.Register | core/approval/approval_manager.py:394-427 | a request under a key in use is refused; one that cannot be stored leaves nothing but its future; any other waits, with its plan, and is on record |
| Approval.ApprovalManager.PendingKey | core/approval/approval_manager.py:791-801 | the exact key, else the only key that matches as prefix or behind its last colon |
| Approval.KeyIsMeant | core/approval/approval_manager.py:791-801 | which key a typed text means, for all keys and texts: itself, else the only key it begins, or whose part behind its last colon it begins |
| Approval.ApprovalManager.ResolvePending | core/approval/approval_manager.py:803-825 | a request that waits gets just the decision that was given and is gone from tables and store; a recovered one goes only if denied; nothing else changes |
| Approval.ApprovalManager.OnTimeout | core/approval/approval_manager.py:852-868 | a request that still waits gets the fallback decision, its entries are gone, and nothing else changes |
| Approval.ApprovalManager.Wake | core/approval/approval_manager.py:582-597 | the request clears its entries and keeps its plan only if allowed |
| Approval.ApprovalManager.CardFailed | core/approval/approval_manager.py:552-556 | a card that was not sent leaves nothing behind |
| Approval.ApprovalManager.CancelWait | core/approval/approval_manager.py:597-603 | a cancelled wait leaves nothing behind |
| Approval.ApprovalManager.TakePendingPlan | core/approval/approval_manager.py:605-607 | the plan is handed out and gone, other plans stay |
| ApprovalRuns.KeepsInvariant | core/approval/approval_manager.py:394-868 | every event keeps the approval invariant |
| ApprovalRuns.KeysArePartitioned | core/approval/approval_manager.py:66-868 | in every run live and recovered keys are apart and together are exactly the info keys and the stored keys |
| ApprovalRuns.DecisionIsFinal | core/approval/approval_manager.py:582-868 | a decision never changes while the process lives |
| ApprovalRuns.ReturnsItsDecision | core/approval/approval_manager.py:582-597 | a request returns the decision made for it |
| ApprovalRuns.FirstDecides | core/approval/approval_manager.py:803-868 | an answer or timeout for a live request that is undecided decides it, as given |
| ApprovalRuns.DecidedByFirst | core/approval/approval_manager.py:394-868 | a request that returned a decision was given it by an administrator or its timeout, and that was the first decision about it since it was made |
| ApprovalRuns.AcceptedIsDecided | core/approval/approval_manager.py:576-597 | a request whose card was accepted has its decision, or is live with a timeout that would decide it |
| ApprovalRuns.RecoveredOnlyDenied | core/approval/approval_manager.py:803-812 | a recovered request goes only by a denial or a restart, and no live request shares its key |
| ApprovalRuns.PlansOfEndedRequests | core/approval/approval_manager.py:535-607 | the plan of a request that is over is there if and only if it had one that was not taken, and it was allowed or was cancelled while its card was sent |
| ApprovalRuns.PlanOfDeniedRequest | core/approval/approval_manager.py:535-607 | a request that was not allowed keeps its plan if and only if it was cancelled while its card was sent, and the plan not taken |
| ApprovalRuns.DeniedPlanStays | core/approval/approval_manager.py:535-556 | a run of three events that ends so, for any request with a plan |
| ApprovalRuns.SampleDenial | core/approval/approval_manager.py:535-556 | one of these runs |
| ApprovalRuns.RestartRecovers | core/approval/approval_manager.py:72-82 | a restart recovers what has not expired and clears the rest |
| Migration.Migrator.RewriteDatabases | scripts/migrate_session_identity.py:1132-1142 | each database is backed up and holds what the rewriting makes of it; other files stay |
| Migration.Migrator.MigrateOne | scripts/migrate_session_identity.py:1181-1224 | a file is backed up, rewritten and moved, unless its destination exists |
| Migration.Migrator.RenameWorkspaces | scripts/migrate_session_identity.py:894-924 | workspaces move, or the first obstacle stops the run |
| Migration.Migrator.Apply | scripts/migrate_session_identity.py:1125-1275 | a run completes if and only if every file and workspace in its turn has nothing in its way; then every database, JSON file, the registry and every workspace is where and what tools, old files and moves say, nothing else has changed, and the journal undoes it |
| Migration.Migrator.Rollback | scripts/migrate_session_identity.py:1398-1431 | workspaces, then backups, are taken back last one first; a changed file stops it |
| Migration.LongerJournal | scripts/migrate_session_identity.py:1408-1428 | entries added later do not change how earlier ones are undone |
| Migration.FileStep | scripts/migrate_session_identity.py:1148-1224 | undoing a migrated file, also one moved to a path an earlier file left, leads back to the state before it |
| Migration.RunMigrates | scripts/migrate_session_identity.py:1125-1275 | the same of the run as a function, from the tools, the old files and the moves alone |
| Migration.ChangedFileStops | scripts/migrate_session_identity.py:1408-1428 | a moved file that was changed since stops the rollback |
| Migration.ChangedTreeStops | scripts/migrate_session_identity.py:1398-1407 | so does a workspace whose tree was changed |
| Migration.RollbackUndoesApply | scripts/migrate_session_identity.py:1125-1431 | after any completed run a rollback restores every file and workspace to its path and content and leaves nothing else |
| Migration.VerifyAcceptsFiles | scripts/migrate_session_identity.py:1335-1351 | the checks on file changes pass right after a run if and only if no file was moved onto the registry, or writing the registry left its hash the same |
| JsonIdentity.RewriteRenames | scripts/migrate_session_identity.py:951-967 | the identities of a rewritten document are the targets of those it had, in order; the count is the number that changed; nothing else is touched |
| JsonIdentity.LegacyLeft | scripts/migrate_session_identity.py:1083-1094 | a legacy key is left if and only if a key present was mapped to a legacy key |
| JsonIdentity.RewriteOnce | scripts/migrate_session_identity.py:951-967 | if targets are not renamed further a second pass changes nothing |
| Archive.ArchiveIndex.PrepareBatch | core/engine/archive_index.py:161-258 | from the index and the request alone: a new batch is written with all its rows, or refused and nothing changes if an event comes with two turns or is in the chat already; the same batch again is reported as it is |
| Archive.ArchiveIndex.MarkState | core/engine/archive_index.py:260-299 | the state moves on where it may, and the first commit is dated |
| Archive.BatchesPartitionEvents | core/engine/archive_index.py:139-258 | in every history each event of a chat is in at most one batch, and counts and hashes match the stored events |
| Archive.BatchOnlyMovesOn | core/engine/archive_index.py:260-299 | over any time the first commit date stays, soft-deleted stays, prepared is never re-entered |
| Archive.StateIsAsked | core/engine/archive_index.py:260-299 | over any time a batch is in the state asked for last, except that it stays soft-deleted and never goes back to prepared, and its commit is dated by the first time that was asked for |
| Archive.CommittedEventsGrow | core/engine/archive_index.py:592-603 | the committed events of a chat only grow |
| Fallback.DelayIsGraded | core/ai/cooldown.py:117-123 | the delay never falls with more failures and stays within the maximum if and only if the settings are sensible |
| Fallback.DelayDoubles | core/ai/cooldown.py:117-123 | no delay below the threshold, then the base, doubled with every failure, up to the maximum |
| Fallback.CooldownManager.IsCooledDown | core/ai/cooldown.py:47-66 | whether a model is cooling; what has run out is forgotten |
| Fallback.CooldownManager.RecordFailure | core/ai/cooldown.py:68-81 | one more failure at this time, with the delay for it; the model cools exactly until that has passed, if there were enough of them; others are untouched |
| Fallback.CooldownManager.RecordSuccess | core/ai/cooldown.py:83-94 | the model cools at no time and starts again from no failures; others are untouched |
| Fallback.Runner.Resolve | core/ai/model_registry.py:247-264 | the first model of a chain that is registered and not cooling |
| Fallback.Runner.MarkFailure | core/ai/fallback_runner.py:148-161 | the model is out and its failure recorded, with the time it cools; the cooling of others does not change |
| Fallback.FirstFailureOnly | core/ai/cooldown.py:47-81 | where every recorded model has failed once, one cools if and only if one failure is enough, and for the delay of a first failure |
| Fallback.Runner.Run | core/ai/fallback_runner.py:167-204 | ends; calls the usable models of the chain, each at most once and in order, up to the first that answers; of those called just the ones that raised, or came back empty where that counts, are on record, with one failure and its delay; nothing is new about others |
| Fallback.AnswerIsFirst | core/ai/fallback_runner.py:167-204 | the answer is that of the first usable model whose call succeeds; there is none exactly when all usable models fail |

## Left out

- LineKinds: `\d` is taken as the ASCII digits; the URL pattern is written out as a definition.
- Packing.TextIsPacked: limits below 4 bytes, with which a character need not fit.
- Splitter.SplitMarkdown: kept ink and words are stated of the result for text without pipes and fences; of other messages the blocks are (`Blocks.LinesAreKept`), whose pages repeat frames on purpose.
- Headings: in `EndsUnlessStuck` the states are those of the pass itself, so that the condition is decided by walking it for as many steps as it may take; `Headings.LooseEnds` is the one to be read off the chunks.
- Delivery: timers, locks and errors of the receiver, and having no receiver at all; the final reply begins with the text streamed so far.
- ResponseStream: usage, callbacks, snapshots and the response-level events that only carry them; other kinds of output items; logging.
- StreamOrder: calls are added in their order, and events of a call are not delayed past a message; texts and reasoning of different items do not interleave.
- FilePaging: decoding errors and file-system errors; the file does not change while it is read; rows are a list, not a lazy generator.
- Outbox: SQL and SQLite are maps and atomic statements; times are integers; message and chat ids are integers with the order of their text; one clock reading per call.
- Outbox.AdmissionOutbox.Process: other operations between its steps are not in this method but in the runs of `Leases` and `Admission`.
- Outbox.AdmissionOutbox.PruneSucceeded: rows with equal times are pruned in any order, not by row number.
- Admission: admissions of one chat come one after the other, there is an event log; archiving, nicknames and the later rollback of an admitted message are not modelled. The flow is a state machine over its awaits, not a class, so that other flows may run between any two steps.
- Approval: whitelist, delivery of cards and notices, administrator checks and the fallback policy, whose decision is a parameter; writing the store does not fail.
- ApprovalRuns: every request has a key that was not used before.
- Migration: a crash in the middle of a run; databases beyond one content each; what a file contains is decided by parameters; paths are independent of each other (no workspace inside another); manifest, lock and preflight.
- Migration.VerifyAcceptsFiles: what writing the registry makes of a file that was moved to its path is a parameter; the program's registry does not open a file that is no database, so that such a run would not complete.
- JsonIdentity: values are rewritten as values, not in place; the keys of `chat_types.json` and the line structure of JSONL files.
- Archive: `clear_chat`, exports, dates and the web listings; the hash is a parameter.
- Fallback: session bindings, the last resort and concurrent runs; the clock stands still during a run.
- `core/bootstrap.py`, configuration, command handlers and network calls: wiring without properties of its own.
- `core/approval/exec_policy.py`, `core/rule_router.py`, `core/card_parser.py`, `core/image_utils.py`: out of scope.
