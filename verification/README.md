# Conversation history, proved

A Dafny model of the conversation-history engine: the Arbor tree store, the
event log that Claude Code chats write into it, the machines that read it back,
the approval protocol beside it, and three smaller exact cores (the command line
and its quoting, the tree outline, the calibration sweeper).

`dafny verify dfyconfig.toml` checks the whole project.

## How the model is built

| files | what they model |
|---|---|
| `ArborStore`, `ArborPaths`, `Lifecycle` | the store: tables as maps, `Db` their content as a value, the class `ArborStorage` updating them in place and proved equal to functions on `Db` |
| `Traversal`, `Views`, `Collapse`, `CollapseLaws`, `Outline` | reading a tree: traversals, text runs, ranges, the collapse that rewrites a tree, the outline |
| `Conversation`, `Render`, `RenderLaws`, `Turns` | the event log and the renderer, with the exact conditions of its laws |
| `Chain`, `EventLog`, `Sessions`, `SessionFiles`, `TwoReaders`, `TurnReaders` | logs as chains of nodes, import and export of session files, the two readers compared |
| `ChatTypes`, `Chat`, `ChatStore`, `ChatLoop`, `BackgroundTurn`, `BackgroundChat`, `Streams`, `ChatLaws`, `ChatRuns` | one chat, streamed or in the background, the stream buffers, and any sequence of chats |
| `Loopback`, `Wakeup`, `LostWakeups` | the approval store, creators and waiters interleaved action by action, and when a wakeup is lost |
| `Shell`, `Feeds`, `FeedLaws` | the command line, the resolution sweeper |

Every method that changes state is proved equal to a function of the old state;
the laws are lemmas about those functions and about runs of them.

Assumptions that hold throughout:

- Ids come from a counter, so an id is smaller than every later one; that is how
  the model says that a fresh UUID was never named before. Ids a caller invents
  are negative.
- JSON encoding of events is a pair of functions with `decode(encode(e)) == e`
  (`Codec.Faithful`); a law that needs this says so. Node text may be anything.
- The order in which a hash map is iterated is a parameter, one for every reading
  of a tree; nothing is assumed of it but that it lists every key once.
- The raw events of the Claude process, the answers of the market site and of the
  substrate, and the clock are parameters. Storage calls fail where the code's
  own checks and constraints make them fail, and not otherwise.

Every lemma is marked `{:induction false}`: its body is its proof.

## What the proofs found

For each of these a lemma gives the exact condition, as an if-and-only-if over
all inputs, under which the code does what it promises.

- Content that follows a tool result has no open role. It is not lost but adopted
  by the next message that opens, or dropped at the end
  (`Turns.TurnOrphans`, `ChatRuns.EveryRunRenders`).
- The exporter and the renderer may tell different histories of the same turns
  (`TurnReaders.ReadersAgreeOnTurns`), and they do when a turn starts over another
  one that has content (`TwoReaders.ReadersAgreeExactly`).
- Tool results inside an assistant message do not survive export
  (`Sessions.RoundTripExactly`).
- A background chat completes with an empty reply where the streamed one reports
  an error, and an ephemeral background chat forgets the Claude session id it was
  told (`ChatLaws.BackgroundShowsTheSame`, `ChatLaws.BackgroundStoresTheSame`).
- A collapse reads the source tree twice, and the two readings may list children
  in different orders: then nodes are lost and others are there twice
  (`CollapseLaws.OnceEachExactly`, with the input of
  `CollapseLaws.SecondReadingLoses`).
- A run of text nodes collapses to its start: nodes below a later node of the run
  lose their parent (`CollapseLaws.ShapeKept`).
- `node_create` with an unknown parent fails but leaves the node row behind
  (`Arbor.FailedCreateOrphans`, with `Arbor.OrphanInput`). This relies on foreign
  keys being enforced, which is the default of the database library.
- A claim of zero references makes a scheduled tree Active for good
  (`Lifecycle.ClaimKeepsBooks`, with `Lifecycle.ZeroClaimLeaks`).
- The comment on `get_or_create_notifier` (src/activations/claudecode_loopback/storage.rs:267-268)
  allows several waiters per session; `notify_one` wakes one of them. When a wakeup
  is lost, to another waiter, to a child registered late or to a removed notifier,
  is `LostWakeups.LosesExactly` step by step and
  `LostWakeups.AnnouncementLosesExactly` for a whole announcement;
  `Wakeup.TwoWaitersLose` and its neighbours are runs in which it happens.
- The outline cuts a long text after 57 bytes, which may fall inside a character
  and makes the program panic (`Outline.TextLabelExactly`, with
  `Outline.CutSplitsCharacter`).
- The MCP option goes before the first argument equal to `--`, which may be the
  value of an earlier option (`Shell.McpPlacement`).
- Feed attempts within one second tie, and the failed one counts
  (`FeedLaws.SettledExactly`, with `FeedLaws.TiedTimesFeedTwice`).
- `range_get` with equal ends never looks the node up (`Views.RangeReadable`).

## Model

| member | source | states |
|---|---|---|
| Arbor.ArborStorage.TreeCreateWithId | src/activations/arbor/storage.rs:179-232 | One transaction adds the tree row, the creator's reference of one and an empty root node; a duplicate id changes nothing but the ids used up |
| Arbor.ArborStorage.TreeClaim | src/activations/arbor/storage.rs:566-642 | The whole new store after a claim: refusal of unknown and archived trees, revival of a scheduled one, both counters raised |
| Arbor.ArborStorage.TreeRelease | src/activations/arbor/storage.rs:645-729 | The whole new store after a release: refusal of more than is held, the row dropped at zero, the tree scheduled when the last reference goes |
| Arbor.ArborStorage.CleanupScheduledTrees | src/activations/arbor/storage.rs:1001-1018 | Archives exactly the scheduled rows older than seven days and reports their number |
| Arbor.ArborStorage.NodeCreate | src/activations/arbor/storage.rs:732-843 | Node row and index row are two statements: an unknown parent fails the second and leaves the first behind; the store stays valid in both cases |
| Arbor.ArborStorage.AddChildToParent | src/activations/arbor/storage.rs:398-421 | The new index row gets the maximum position of the parent plus one |
| Arbor.ArborStorage.NodeChildren | src/activations/arbor/storage.rs:376-395 | The indexed children of a node are the nodes that name it as parent, oldest first; an id without a row has none |
| Arbor.ArborStorage.NodeGetParent | src/activations/arbor/storage.rs:886-909 | The parent pointer of a node of the tree, an error for a node that is not in it |
| Arbor.ArborStorage.NodeGetPath | src/activations/arbor/storage.rs:912-929 | The loop up the parent pointers terminates with the path, or fails exactly when an ancestor is missing or in another tree |
| Arbor.ArborStorage.NodeGet | src/activations/arbor/storage.rs:846-856 | A node of the tree, an error for a node that is not in it |
| Arbor.ArborStorage.TreeGet | src/activations/arbor/storage.rs:235-395 | Unknown and archived trees are refused, others are read with exactly their own nodes and each node's indexed children |
| Arbor.MaxPositionIsLast | src/activations/arbor/storage.rs:398-421 | When positions run 0, 1, 2, ... the maximum position is the number of children minus one, so the next row continues the numbering |
| Arbor.PositionsAscend | src/activations/arbor/storage.rs:376-395 | Index rows of one parent have strictly ascending positions in insertion order, so ordering by position is creation order |
| Arbor.DbNodeCreateValid | src/activations/arbor/storage.rs:732-843 | Every node creation, successful or not, keeps parents older than children and the index equal to the parent pointers |
| Arbor.FailedCreateOrphans | src/activations/arbor/storage.rs:732-843 | A creation that fails leaves the node rows alone if and only if the tree is unknown; otherwise it leaves a row of the tree that no child list names and that has no path |
| Arbor.OrphanInput | src/activations/arbor/storage.rs:732-843 | A new tree and a parent id that was never minted: the creation fails and the row is there |
| Arbor.DbTreeCreateValid | src/activations/arbor/storage.rs:179-232 | Every tree creation keeps the store valid |
| ArborPaths.PathCharacterized | src/activations/arbor/storage.rs:912-929 | A path is the answer if and only if it leads from a parentless node to the node by parent pointers inside the tree: there is at most one |
| ArborPaths.PathIncreases | src/activations/arbor/storage.rs:912-929 | No node occurs twice on a path |
| ArborPaths.IndexAgreesOnEveryRun | src/activations/arbor/storage.rs:376-421 | In every reachable state each parent's children list is exactly the nodes naming it, in creation order at positions 0..k-1, failed creations included |
| ArborPaths.PathsOnEveryRun | src/activations/arbor/storage.rs:912-929 | If every creation names a parent of its own tree, every node of every reachable state has its path |
| ArborPaths.PathStable | src/activations/arbor/storage.rs:912-929 | Creations never change the path of an existing node |
| Lifecycle.ClaimKeepsBooks | src/activations/arbor/storage.rs:566-642 | A claim keeps the reference counts consistent if and only if it leaves the claimant with at least one reference, or is refused |
| Lifecycle.ReleaseKeepsBooks | src/activations/arbor/storage.rs:645-729 | A release of any count keeps them consistent |
| Lifecycle.BooksOnEveryRun | src/activations/arbor/storage.rs:179-232 | On every run with counts of at least one: ref_count is the sum of the owner rows, rows are at least one, Active means held, scheduled or archived means held by nobody |
| Lifecycle.AccountsOnEveryRun | src/activations/arbor/storage.rs:566-729 | Each owner row equals the owner's successful claims plus the initial reference minus its successful releases |
| Lifecycle.ScheduledSince | src/activations/arbor/storage.rs:714-725 | A scheduled tree was last held right before the operation that scheduled it |
| Lifecycle.ArchivedExactlyAfterGrace | src/activations/arbor/storage.rs:1001-1018 | A step archives a tree if and only if it is a sweep and nobody has held the tree for more than seven days, in any state in between |
| Lifecycle.ClaimCancelsArchiving | src/activations/arbor/storage.rs:575-602 | A successful claim within the seven days before a sweep rules out archiving |
| Lifecycle.ArchivedForever | src/activations/arbor/storage.rs:575-602 | Archived is never left by claim, release or sweep, and the row never changes again |
| Lifecycle.ZeroClaimLeaks | src/activations/arbor/storage.rs:566-602 | Claiming zero references of a scheduled tree makes it Active, held by nobody and safe from every sweep |
| Traversal.BuildChildMap | src/activations/arbor/views.rs:210-222 | The map gives for each node its children in the iteration order of the hash map |
| Traversal.TraverseDfsFrom | src/activations/arbor/views.rs:225-237 | The recursion appends the preorder of the subtree |
| Traversal.TraverseTreeDfs | src/activations/arbor/views.rs:240-255 | The preorder from the first parentless node, nothing if there is none |
| Traversal.TraverseWithStack | src/activations/claudecode/sessions.rs:413-441 | The explicit-stack traversal of the exporter terminates and equals the recursive preorder of the views |
| Traversal.VisitTop | src/activations/claudecode/sessions.rs:430-438 | Popping a node and pushing its children in reverse keeps the nodes still to visit, in order |
| Traversal.PreorderMember | src/activations/arbor/views.rs:225-237 | The traversal visits exactly the nodes reachable from its start |
| Traversal.PreorderDistinct | src/activations/arbor/views.rs:225-237 | It visits none of them twice |
| Traversal.ParentIsEarlier | src/activations/arbor/views.rs:225-237 | Every visited node but the first comes after its parent |
| Views.ViewDetectTextRuns | src/activations/arbor/views.rs:262-358 | Refused like any read of the tree; otherwise the runs of the tree as the store delivers it |
| Views.DetectTextRuns | src/activations/arbor/views.rs:269-358 | The runs reported, each with its ends, length and byte count, are those of the spans that the definition of a run gives |
| Views.SpansAreMaximalRuns | src/activations/arbor/views.rs:262-358 | A span is reported if and only if it is a maximal chain of text nodes, each the child of the one before, of at least the threshold length |
| Views.EveryTextNodeInOneRun | src/activations/arbor/views.rs:262-358 | With a threshold of at most one every visited text node lies in exactly one reported run |
| Views.RangeGet | src/activations/arbor/views.rs:478-565 | The range reader on the store: the refusal, or the chain of parents from end to start, its merged text and node count, or the error |
| Views.RangeReadable | src/activations/arbor/views.rs:478-512 | Reading succeeds if and only if the start is the end or one of its ancestors |
| Views.RunAgreesWithReader | src/activations/arbor/views.rs:262-565 | Reading any detected run succeeds, visits the nodes of the run, counts its length and merges to its byte count |
| Collapse.CollapsedNodes | src/activations/arbor/views.rs:378-405 | The nodes met by following first children, as the second reading lists them, from each run's start to its end or to a leaf, and the runs keyed by their start |
| Collapse.SkipTest | src/activations/arbor/views.rs:421-426 | The two set lookups skip exactly the nodes met in a run that start none |
| Collapse.CopyOne | src/activations/arbor/views.rs:428-471 | One turn of the loop adds the right row and records its image, and leaves what is read of the source tree as it was |
| Collapse.ViewAddRange | src/activations/arbor/views.rs:153-203 | The source tree is read again; a range becomes one text node with the merged text, and a refusal adds nothing |
| Collapse.ViewCollapseTextRuns | src/activations/arbor/views.rs:361-475 | On the store, with a separate hash map order for each of the two readings: the refusal, or the runs of the first reading and exactly one row per kept node of the second, under consecutive ids |
| CollapseLaws.OnceEachExactly | src/activations/arbor/views.rs:361-475 | Every visited node is represented in the view exactly once, and in order, if and only if in every run reached each node but the last has the next as its first child in the second reading |
| CollapseLaws.SameOrderFits | src/activations/arbor/views.rs:361-405 | With one order for both readings the runs always fit |
| CollapseLaws.OnlyChildrenFit | src/activations/arbor/views.rs:389-396 | So they do, under any orders, when no node has two children |
| CollapseLaws.SecondReadingLoses | src/activations/arbor/views.rs:361-475 | A text with two texts below it, read in two orders: one of the two is lost and the other is there twice |
| CollapseLaws.ForkExists | src/activations/arbor/views.rs:361-475 | There is such a tree |
| CollapseLaws.CollapseKeepsText | src/activations/arbor/views.rs:361-475 | The texts of the view's nodes joined in creation order are the texts of the source nodes they stand for |
| CollapseLaws.CollapseCount | src/activations/arbor/views.rs:361-475 | One view node per run and one per other node that is shown |
| CollapseLaws.ViewHoldsDocument | src/activations/arbor/views.rs:361-475 | When the runs fit, the rows hold the whole document in order, and a node has a row exactly when it is not behind the start of a run |
| CollapseLaws.ShapeKept | src/activations/arbor/views.rs:430-471 | A view node hangs below the image of its source parent if and only if that parent was kept; otherwise a copy has no parent and a run hangs from the view root |
| Render.RenderMessages | src/activations/claudecode/storage.rs:905-1061 | What the renderer answers for every store, path error, start node, unreadable node included |
| Render.RenderNodes | src/activations/claudecode/storage.rs:931-1061 | The loop over the path: external and blank nodes are skipped, anything else must parse |
| Render.TakeEvent | src/activations/claudecode/storage.rs:956-1047 | One event moves role, gathered blocks and messages as the state machine says |
| Render.RendererState | src/activations/claudecode/storage.rs:926-1060 | The open role and the blocks gathered with no role open can be read off the log alone |
| Render.RunConserves | src/activations/claudecode/storage.rs:926-1060 | At every moment the blocks sent out and still gathered are, as a multiset, those the log has recorded |
| Render.RenderConserves | src/activations/claudecode/storage.rs:926-1060 | On every log the rendered blocks and the orphaned blocks of the end are together the recorded blocks, with multiplicity |
| Render.RenderedNonEmpty | src/activations/claudecode/storage.rs:926-1060 | No rendered message is empty |
| RenderLaws.OrderKeptExactly | src/activations/claudecode/storage.rs:926-1060 | Rendered blocks followed by orphans are the log's blocks in the log's order if and only if no tool result overtakes waiting content |
| RenderLaws.CleanRenders | src/activations/claudecode/storage.rs:926-1060 | From any state a clean log renders to what its grammar says |
| RenderLaws.TranscriptExactly | src/activations/claudecode/storage.rs:926-1060 | Rendering attributes every block to its own turn if and only if no content stands under a user message and no marker opens while orphaned content waits |
| Turns.RenderSplits | src/activations/claudecode/storage.rs:963-1003 | A log that opens with a marker renders on its own, whatever was before, if and only if nothing before it is orphaned |
| Turns.SessionCount | src/activations/claudecode/storage.rs:926-1060 | Rendering a whole session has as many blocks more than rendering turn by turn as earlier turns left to be adopted |
| Turns.SessionRendersTurnByTurn | src/activations/claudecode/storage.rs:926-1060 | A session renders turn by turn if and only if no turn but the last leaves content orphaned |
| Turns.TurnRenders | src/activations/claudecode/storage.rs:926-1060 | A completed turn renders to its prompt, its non-empty block list before the first tool result, and its tool results |
| Turns.TurnOrphans | src/activations/claudecode/storage.rs:990-1028 | What a completed turn leaves to be adopted is the content after its first tool result |
| Chain.ChainAppended | src/activations/arbor/storage.rs:732-764 | Creating nodes one below the other succeeds whenever the tree and the parent exist, and adds exactly that chain of rows |
| Chain.ChainPath | src/activations/arbor/storage.rs:912-929 | The path to the end of a chain is the path to its parent followed by the chain |
| Chain.LinearPreorder | src/activations/claudecode/sessions.rs:413-441 | Traversing a linear tree reads it from top to bottom, whatever the hash map order |
| EventLog.AppendEvent | src/activations/claudecode/activation.rs:136-148 | create_event_node: the event becomes the next text node of the chain |
| EventLog.LogReadBack | src/activations/claudecode/storage.rs:938-954 | A log written as a chain is read back unchanged |
| Sessions.CollectAll | src/activations/claudecode/sessions.rs:484-503 | Inside an assistant message the exporter gathers every block, signatures erased |
| Sessions.RoundTripExactly | src/activations/claudecode/sessions.rs:289-592 | Import then export gives the session's normal form if and only if no assistant message holds a tool result |
| Sessions.ExportedIsNormal | src/activations/claudecode/sessions.rs:445-584 | Whatever the log, what is exported is in normal form |
| Sessions.TwiceIsOnce | src/activations/claudecode/sessions.rs:289-592 | Exporting, importing and exporting again changes nothing, for every log |
| SessionFiles.ImportToArbor | src/activations/claudecode/sessions.rs:289-396 | Importing adds one new tree that holds the session's log as one chain, and nothing else |
| SessionFiles.ImportAssistant | src/activations/claudecode/sessions.rs:330-388 | An assistant message becomes a start node, one node per block and a completion node |
| SessionFiles.ExportFromArbor | src/activations/claudecode/sessions.rs:401-592 | Exporting refuses what the store refuses, and appends to the file the events grouped from the tree in preorder |
| SessionFiles.ExportNodes | src/activations/claudecode/sessions.rs:444-584 | The grouping loop over the nodes, those that are no events passed over |
| SessionFiles.ExportEvent | src/activations/claudecode/sessions.rs:464-577 | One event moves the grouping machine |
| SessionFiles.ImportThenExport | src/activations/claudecode/sessions.rs:289-592 | Through the store, under any hash map order: the exported tree is the normal form of the imported session if and only if no assistant message holds a tool result |
| TwoReaders.ReadersAgreeExactly | src/activations/claudecode/sessions.rs:445-584 | Two machines, one meaning: on every log with content inside turns, exported events correspond to rendered messages one to one if and only if no turn starts over one that has content |
| TwoReaders.ImportedSessionRenders | src/activations/claudecode/sessions.rs:289-396 | A session without tool results in assistant messages renders to messages that correspond to its normal form |
| TwoReaders.AdoptionSplitsReaders | src/activations/claudecode/storage.rs:990-1003 | On any log, once content is orphaned when the user speaks, the rendering corresponds to no session at all, whatever follows |
| TurnReaders.ReadersAgreeOnTurns | src/activations/claudecode/sessions.rs:445-584 | For all completed turns: export and rendering correspond if and only if no turn but the last has content after a tool result and the last has none there or some before its first |
| TurnReaders.ChatsReadAlike | src/activations/claudecode/activation.rs:170-581 | The same of the history that any sequence of chats leaves |
| Chat.ViewsAgree | src/activations/claudecode/activation.rs:243-467 | For every sequence of raw events: content shown, content nodes and reply text say the same, and the events shown are the nodes that are not debug nodes, one for one in order |
| ChatStore.ClaudeCodeStorage.SessionCreate | src/activations/claudecode/storage.rs:154-256 | A session with its own tree, the root as head, and a name made unique with the session id; a second collision fails and leaves the tree behind |
| ChatStore.CreatedSessionsValid | src/activations/claudecode/storage.rs:186-236 | Session names stay unique |
| ChatStore.ClaudeCodeStorage.MessageCreate | src/activations/claudecode/storage.rs:522-612 | A message row for an existing session, none otherwise |
| ChatStore.ClaudeCodeStorage.SessionUpdateHead | src/activations/claudecode/storage.rs:355-390 | The head moves, the Claude id is replaced only by a new one, the tree id never changes |
| ChatLoop.RelayRaw | src/activations/claudecode/activation.rs:294-470 | One raw event: the nodes appended, the events shown and the variables after it |
| ChatLoop.RelayAll | src/activations/claudecode/activation.rs:294-470 | The whole loop, ended by the first reported error |
| ChatLoop.CloseTurn | src/activations/claudecode/activation.rs:487-579 | The reply is stored, the turn completed, its node created, the head moved unless ephemeral |
| ChatLoop.ChatStream | src/activations/claudecode/activation.rs:184-581 | The streamed chat: the whole new store and every event yielded, on every path including each refusal |
| BackgroundTurn.LoopsKeepStep | src/activations/claudecode/activation.rs:1353-1572 | For every sequence of raw events the background loop, written out by itself, and the streamed loop have the same variables, nodes, reply and unknown events, and the one has pushed what the other has yielded |
| BackgroundTurn.BackgroundSummary | src/activations/claudecode/activation.rs:1202-1698 | The background chat, operation by operation, leaves the store, pushes the events and ends its stream as its summary says |
| BackgroundTurn.FinalStatusLast | src/activations/claudecode/activation.rs:1504-1697 | A final status is set exactly once, as the last thing done to the stream |
| BackgroundChat.RelayRawToStream | src/activations/claudecode/activation.rs:1353-1572 | One raw event of the background loop: status changes, nodes and pushes in the order of the code |
| BackgroundChat.RelayToStream | src/activations/claudecode/activation.rs:1353-1572 | The whole loop, ended by the first reported error |
| BackgroundChat.EndBackground | src/activations/claudecode/activation.rs:1574-1698 | The reply stored, the head moved unless ephemeral, the completion pushed and the status set; nothing after a reported error |
| BackgroundChat.RunChatBackground | src/activations/claudecode/activation.rs:1202-1698 | The background chat: the whole new store, and its stream exactly as the operations leave it, status, position and error included; no other stream is touched |
| ChatLaws.BackgroundShowsTheSame | src/activations/claudecode/activation.rs:479-485 | What the background loop pushes is what the streamed chat yields if and only if the reply is not silent |
| ChatLaws.BackgroundStoresTheSame | src/activations/claudecode/activation.rs:471-485 | Both leave the same store if and only if the reply is not silent and it is not an ephemeral chat that was told a new Claude session id; refused and failed chats included |
| ChatLaws.PollerSeesTheStream | src/activations/claudecode/activation.rs:893-920 | Polling while the chat runs, at any moments: a prefix of what the streamed chat yields, each event once; a final status if and only if the chat is over, and the right one; everything exactly when the buffer is drained |
| ChatLaws.StoredReplyAgrees | src/activations/claudecode/activation.rs:487-520 | A completed chat stores as the assistant's message the text of the content it showed, which is the text of its content nodes |
| ChatRuns.TurnIsOneChain | src/activations/claudecode/activation.rs:213-560 | A completed chat adds one parent chain below the old head: the user's node, the turn's events in order, the assistant's node; the head is its end, or unchanged if ephemeral |
| ChatRuns.AnnouncedHead | src/activations/claudecode/activation.rs:562-579 | The completion event names the session's tree and the head the session has after it |
| ChatRuns.ChatTells | src/activations/claudecode/activation.rs:170-581 | One chat adds its turn to the history on the path to the head if it completed and was not ephemeral, and otherwise leaves the history as it was |
| ChatRuns.TurnsRender | src/activations/claudecode/storage.rs:926-1060 | The log of some turns renders to their messages if and only if no turn but the last received content after a tool result |
| ChatRuns.EveryRunRenders | src/activations/claudecode/activation.rs:170-581 | Over every sequence of chats on a new session, rendering root to head gives the completed non-ephemeral turns in order, if and only if no turn but the last received content after a tool result |
| Streams.ActiveStreams.StreamCreate | src/activations/claudecode/storage.rs:735-763 | A new empty buffer under an id not used before |
| Streams.ActiveStreams.StreamPushEvent | src/activations/claudecode/storage.rs:779-798 | The event is appended under the next number; an unknown stream changes nothing |
| Streams.ActiveStreams.StreamSetStatus | src/activations/claudecode/storage.rs:801-821 | Status and, if given, the error are set |
| Streams.ActiveStreams.StreamPoll | src/activations/claudecode/storage.rs:833-860 | The events from a number, or from the reading position, up to the limit, and the position moved past them |
| Streams.DeliveredOnceInOrder | src/activations/claudecode/storage.rs:779-860 | Under every interleaving of pushes and default polls of any size, the polls have returned a prefix of the pushes, each once, in order |
| Streams.DrainedExactly | src/activations/claudecode/storage.rs:833-860 | Everything pushed has been delivered if and only if the reading position equals the event count |
| Loopback.LoopbackStorage.CreateApproval | src/activations/claudecode_loopback/storage.rs:100-140 | The row, then the session's notifier, then its parent's |
| Loopback.LoopbackStorage.NotifySession | src/activations/claudecode_loopback/storage.rs:296-312 | notify_one on the session's notifier and on its parent's, where they exist |
| Loopback.LoopbackStorage.ResolveApproval | src/activations/claudecode_loopback/storage.rs:156-180 | Status and message are overwritten whatever they were; an unknown id is reported |
| Loopback.LoopbackStorage.ListPending | src/activations/claudecode_loopback/storage.rs:197-239 | Exactly the pending rows of the session and its registered children, or all pending rows, each once, oldest first |
| Loopback.LoopbackStorage.GetOrCreateNotifier | src/activations/claudecode_loopback/storage.rs:269-275 | One notifier per session, never shared |
| Loopback.LoopbackStorage.RegisterSessionParent | src/activations/claudecode_loopback/storage.rs:280-289 | Both maps record the child |
| Loopback.LoopbackStorage.RemoveNotifier | src/activations/claudecode_loopback/storage.rs:315-319 | The session has no notifier any more; whoever waits on it keeps waiting |
| Wakeup.ShapeKept | src/activations/claudecode_loopback/activation.rs:237-295 | Every action keeps: a waiter holds its session's notifier, at most one waiter per notifier, no permit stored while one is queued |
| Wakeup.CoveredKept | src/activations/claudecode_loopback/activation.rs:237-295 | Every action keeps: a waiter that has missed an approval has a permit or a notification on its way |
| Wakeup.NoLostWakeup | src/activations/claudecode_loopback/storage.rs:100-140 | In every disciplined interleaving no waiter sleeps while an approval visible to it is pending, with no permit stored and no notification on its way |
| Wakeup.DeliveryWakes | src/activations/claudecode_loopback/storage.rs:291-312 | A sleeping waiter with something pending is awake once that approval's creator has finished |
| Wakeup.TwoWaitersLose | src/activations/claudecode_loopback/storage.rs:296-312 | Without the discipline: with two waiters on a session one is lost |
| Wakeup.LateChildLoses | src/activations/claudecode_loopback/storage.rs:280-312 | A child registered after its approval was announced is lost on its parent's waiter |
| Wakeup.RemovedNotifierLoses | src/activations/claudecode_loopback/storage.rs:315-319 | So is an approval announced after the notifier was removed under its waiter |
| LostWakeups.SaneOnEveryRun | src/activations/claudecode_loopback/storage.rs:100-319 | In every interleaving, however waiters and families behave: queued waiters wait on that notifier, each once, and a stored permit means an empty queue |
| LostWakeups.LosesExactly | src/activations/claudecode_loopback/storage.rs:100-319 | With no discipline: a step leaves a waiter stuck on an approval if and only if it is one of the losses listed, a late child and a notification taken by somebody else among them |
| LostWakeups.StuckSinceLoss | src/activations/claudecode_loopback/storage.rs:100-319 | Whoever is stuck in any interleaving has been so ever since the one step that lost its wakeup |
| LostWakeups.AnnouncementLosesExactly | src/activations/claudecode_loopback/storage.rs:100-140 | A sleeper is stuck on an approval created and announced in full if and only if it asked for that session and stands in its queue behind as many others as the announcement wakes there |
| Shell.ReadQuoted | src/activations/claudecode/executor.rs:402-405 | Inside the single quotes of the escaping a shell reads back the text itself, embedded quotes included |
| Shell.CommandRoundTrip | src/activations/claudecode/executor.rs:402-414 | A shell splits the assembled command into the path and the arguments if and only if none of them contains a NUL |
| Shell.BuildArgs | src/activations/claudecode/executor.rs:185-246 | The arguments, in order, for every configuration, ending in the separator and the query |
| Shell.InsertMcp | src/activations/claudecode/executor.rs:378-386 | The option and its path are inserted before the first argument that equals the separator |
| Shell.McpPlacement | src/activations/claudecode/executor.rs:378-386 | After the insertion the last two arguments are still the separator and the query, and the option stands right before them if and only if no earlier value equals the separator |
| Outline.RenderNode | src/activations/arbor/types.rs:326-361 | The recursive loop over the indexed children appends the drawing of the subtree |
| Outline.Render | src/activations/arbor/types.rs:245-249 | The outline of the whole tree, empty if the root is missing |
| Outline.DrawnDecodes | src/activations/arbor/types.rs:326-361 | An outline in front of any text decodes to its nodes with depths in front of the text's |
| Outline.OutlineUnambiguous | src/activations/arbor/types.rs:245-249 | With newline-free labels what is drawn decodes to the preorder with depths, from which the tree is rebuilt |
| Outline.TextLabelExactly | src/activations/arbor/types.rs:335-346 | A text node has a label if and only if its text is short or a character ends after 57 bytes, and the label is one line |
| Outline.CutSplitsCharacter | src/activations/arbor/types.rs:335-341 | Fifty-six one-byte characters and then two-byte ones: the cut falls inside a character |
| Outline.ReadInOrder | src/activations/arbor/storage.rs:296-395 | The child lists that tree_get delivers hold the tree's own children in insertion order |
| Outline.OutlineTellsTree | src/activations/arbor/types.rs:245-361 | For every tree the store reads: the text decodes to the nodes below the root, each once, siblings in insertion order, each with its label and its number of ancestors |
| Feeds.Marketwatch.GroupByMarket | scripts/marketwatch_resolve.py:139-143 | Markets in order of first appearance, each with its forecasts in order, unusable pairings left out |
| Feeds.Marketwatch.PhaseA | scripts/marketwatch_resolve.py:137-197 | The rows appended, and counts that add up to the markets checked |
| Feeds.Marketwatch.LatestFeedStatus | scripts/marketwatch_resolve.py:126-134 | The first row with the greatest time |
| Feeds.Marketwatch.PhaseB | scripts/marketwatch_resolve.py:200-254 | The feed rows appended, as many as counted fed or failed |
| FeedLaws.SweepsKeepOnce | scripts/marketwatch_resolve.py:137-254 | Over any sweeps: one resolution row per market, and with increasing attempt times each market is fed successfully to a program at most once and never tried again |
| FeedLaws.SettledExactly | scripts/marketwatch_resolve.py:126-134 | A success counts as one if and only if it is later than every earlier failed attempt of its pair |
| FeedLaws.QuietExactly | scripts/marketwatch_resolve.py:224-254 | Phase B appends nothing if and only if every feed it looks at is settled |
| FeedLaws.QuietAfterSuccess | scripts/marketwatch_resolve.py:137-254 | With increasing times a further sweep, whatever it newly resolves, appends no feed row if and only if it skips phase B or every pair it then looks at has a success |
| FeedLaws.TiedTimesFeedTwice | scripts/marketwatch_resolve.py:126-134 | A failure and a success within one second tie, and the pair is fed again |

## Left out

- fork, cone set_head and concurrent chats on one session: nothing checks that the head node lies in the session's tree, and the last writer of the head wins.
- Messages and sessions are kept without their timestamps, model names and token counts; the ephemeral marker of a message is a flag instead of a negative timestamp.
- ChatLoop.RelayAll: the launch itself (reachability check, environment, process) is a parameter, the sequence of raw events; so is the difference that only the streamed chat passes allowed tools and the loopback session id.
- BackgroundChat.RunChatBackground: stream and event timestamps are not modelled.
- Arbor.ArborStorage.TreeGet: the references, states beyond each row's own, metadata and timestamps of the tree that is returned are not modelled.
- Streams.ActiveStreams.StreamSetStatus: the time at which a stream ended is not modelled.
- Streams.DeliveredOnceInOrder: polls that name a sequence number are modelled and may move the reading position back; the law is about default polls.
- TwoReaders.ReadersAgreeExactly: about logs that record content inside assistant turns, as imported ones do; the logs that chats write are the subject of `TurnReaders.ReadersAgreeOnTurns`.
- Lifecycle.BooksOnEveryRun: runs claim and release one or more references at a time; `Lifecycle.ClaimKeepsBooks` says exactly what happens otherwise.
- Wakeup.NoLostWakeup: under the discipline stated in `Wakeup.Disciplined`; what happens without it is `LostWakeups.LosesExactly`. Errors of the approval database are not modelled.
- The `permit` loop only polls its own row until it is resolved or five minutes have passed; the tool-to-session map only chooses a session id.
- Collapse.ViewCollapseTextRuns: nobody else writes to the source tree meanwhile; node and view metadata are not modelled.
- Collapse.ViewAddRange: the metadata that records the range, and the structure-reference and custom collapse types, are not modelled.
- Views.RangeGet: only the TextMerge payload; the custom and structure-reference payloads are not modelled.
- Outline.Render: labels are a parameter, tied to the nodes by `Outline.Labelled`; the text of a handle, and resolving it, are not modelled.
- SessionFiles.ExportFromArbor: the envelope of a session event (uuids, timestamps, directory) is not modelled, and a session file is the sequence of its parsed events.
- Shell.CommandRoundTrip: a shell that meets an unquoted special character is not followed; the assembled command has none.
- Feeds.Marketwatch.PhaseA: the descriptive fields of a resolution row are not modelled; pairings without a market id are not modelled, and a row with an empty market id is not seen by the next sweep, so the law of one row per market is about the others.
- SQLite, migrations, serde, file and process I/O are taken as maps, an inverse pair of functions and parameters.
- Leaf and handle listings, metadata queries, cone and changelog tables, the agent loop, the program index and benchmark statistics would only add easy members.
- src/activations/claudecode/render.rs is not part of the module tree and not part of this model.
