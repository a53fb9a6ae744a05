# CIT classroom fabric: a verified model of its five state machines and translators

This project models the parts of the CIT extended-reality classroom that keep state or translate programs, and proves
what they promise. `dafny verify dfyconfig.toml` checks all of it.

## The compiler and its round trip

A lesson is a forest of blocks. `Catalog` holds the block types with their fields and inputs, `Values` the field values
as JavaScript coerces them, and `Generate` what each block becomes: lines with a depth, the block a line came from,
warnings, and the SDK names used. `Emitting` is the generator object itself; its methods append line by line and are
proved to produce what `Generate` says, source map included.

The target language is modelled apart from the generator. `Python` parses depth-annotated lines by indentation as
section 2.1.8 of the Python 3 Language Reference prescribes, decodes string and number literals as section 2.4 does,
loads a module and runs coroutine bodies to a trace of effects under a sensor oracle. `PythonText` renders lines to
characters; `PythonReader` reads characters back to lines, ending a line at CR LF, CR and LF as section 2.1.2 says, and
`PythonLines` proves what that does to a text whose writer thought in line feeds only. The meaning of a block tree
(`Meaning`) is a trace defined on the blocks alone.

The main theorem, `FileText.GeneratedFileMeansTheBlocks`, goes from characters to effects: read the generated text, parse
it, load it, and there is a handler for every enabled timer and gesture block, in order, which leaves exactly the trace of
its enabled blocks, and a `main()` exactly when the program has another enabled block, which leaves the trace of what hangs
under the start blocks and then of the loose blocks, for every oracle. The program's trace is defined on the list of blocks
(`Meaning.PerformProgram`); `TopLevel` proves that the generator's sorting of the list stands for it. The theorem is stated
for compilable programs with quiet comments: devices resolve, event blocks are at the top level only, alias identifiers are
distinct, no keywords, and hide no name the module uses, conditions start with a value block, parallel children are waits,
messages or device calls, and no comment holds a null character or goes on with code after a carriage return.

On the way the exact conditions come out. The lines parse if and only if no suite consists of comments only and no timer has
a negative period. A string literal decodes if and only if its text holds no carriage return and no null character, which
the generator does not escape. The generator splits comments at line feeds only, so what follows a carriage return in one is
a line of its own to Python: the file of a compilable program reads as what was emitted if and only if every such rest is
blank or a comment, and otherwise the rest becomes code or a syntax error (`Pitfalls.CommentRuns`: programs that run it). The
identifier of an alias is the alias if and only if the alias is an identifier. The order in which devices were bound decides
between aliases that the locale's comparison ties, and nothing else: the file is the same if and only if tied bindings stand
in the same order (`BindingOrder`). `SourceMaps` proves the source map, `Trails` that its entries are exactly the blocks with
a line of their own, in order, each on the line it starts with, and `Notices` that warnings and imports are exactly those the
blocks give rise to. `Pitfalls` collects the places where the generator does less than one would guess.

`Serialize` and `RoundTrip` model the other direction: the stored tree becomes the editor's linked form and is walked back.
Together they are one normaliser, idempotent on every project. `BlockIds` models that the editor replaces an id that is empty
or already taken on its canvas; a project comes back unchanged if and only if its trees are well formed and its ids distinct.

## The Agent Mesh bridge

`Tables` holds the durable tables with their uniqueness rules and one function per transaction; `Outbox` is the object
over them, `Commands` the handler that confirms commands without executing them. `Bridge` is the protocol: a step is one
durable write or one event outside the process, poll and handler interleave freely, a crash may fall between any two
steps. Random identifiers are new tokens; the semantic hash is an arbitrary function. The upstream is assumed to offer each
feed in ascending sequence, without gaps apart from acknowledged items, and with unique ids.

`Delivery` and `Mirror` prove what every step keeps, `Runs` and `Losses` what holds in every run: no item is lost, a pending
event goes only when it is acknowledged or at a flush of another session or after its time to live, receipts are written once
and stay until their own event is dropped, success is only ever reported for a command that was received and decided in
time and that an item fetched before confirms, a command ends at most once, sequence numbers are never reused. `BridgeLoop`
is the bridge object with its loops; its history is proved to be a run of the protocol, so that these results are about the
loops as well.

## The hub agent, autosave and roles

`HubFrame` is the framed line codec with the protocol's table, `HubAgent` the agent object. `HubCommands` relates each line
to the one command it gives the hardware, the subscription it adds and the messages that answer it, and each poll to what it
stops and reports. `HubSafety` holds the guarantees: every line is answered with a decodable line, every command to the
hardware is bounded, and the watchdog stops everything unless a single motor was stopped while something else moved.
`Autosave` is the saving object with its timer, its one write in flight, failures and stop. `Roles` assigns devices to
lesson roles, each default at its requirement's turn the first free candidate, and reconciles a tutor's choices on every
poll: bound roles follow the last binding, a choice stays exactly when every requirement of the role offers it, another
session starts afresh. Of a role required twice a dropped choice may come back as the default
(`Roles.DroppedChoiceReturns`). Reconciliation reaches a fixed point exactly for role lists in which every family of two has
two numbered members.

Where a comment in the code promises more than the code does, the model follows the code. A failed save does drop a
document: the newer one that came in while the save ran. A stop of one motor does leave another one running. A comment
above a block that only warns does break the file.

## Model

| member | source | states |
|---|---|---|
| Catalog.DeviceFieldsDeclared | packages/blockly-cit/src/catalog.ts:179-447 | the blocks that act on a device, read a sensor or wait for a gesture are exactly the ones whose catalogue entry has a device field |
| Catalog.AtMostOneInputEach | packages/blockly-cit/src/catalog.ts:85-447 | every catalogue entry has at most one value input and one statement input, the value input first |
| Values.ReadNumText | packages/blockly-cit/src/generate.ts:102-107 | a rendered number read as a Python literal is the same number |
| Literals.ThreePassesEscapeOnce | packages/blockly-cit/src/generate.ts:111-114 | the three replacement passes together escape every character exactly once |
| Literals.PythonStringDecodes | packages/blockly-cit/src/generate.ts:109-116 | decoding the literal gives the text back, and fails exactly when the text holds a carriage return or a null character |
| Literals.PythonStringNoLineFeed | packages/blockly-cit/src/generate.ts:109-116 | no string literal holds a line feed |
| Literals.PythonNumberDecodes | packages/blockly-cit/src/generate.ts:102-107 | a number argument decodes to the coerced value or the fallback |
| Literals.AliasIdentifierIsIdentifier | packages/blockly-cit/src/generate.ts:119-124 | every alias, the empty one included, becomes an identifier |
| Literals.AliasIdentifierKeeps | packages/blockly-cit/src/generate.ts:119-124 | an alias is its own identifier exactly when it already is one |
| Literals.AliasIdentifierCollides | packages/blockly-cit/src/generate.ts:119-124 | two different aliases with one identifier exist |
| Emitting.Emitter.constructor | packages/blockly-cit/src/generate.ts:70-74 | a new emitter has emitted nothing |
| Emitting.Emitter.Emit | packages/blockly-cit/src/generate.ts:76-89 | one line is appended at its depth, with a map entry for its line number exactly when it has an origin |
| Emitting.Emitter.Warn | packages/blockly-cit/src/generate.ts:91-93 | one warning is appended and nothing else changes |
| Emitting.Emitter.ResolveAlias | packages/blockly-cit/src/generate.ts:140-172 | the alias is the only binding's, the requested one or that of the first binding with the device id; otherwise exactly one warning |
| Emitting.Emitter.EmitBody | packages/blockly-cit/src/generate.ts:174-197 | the enabled children in order, or `pass` when they emit no line |
| Emitting.Emitter.EmitExpression | packages/blockly-cit/src/generate.ts:199-218 | a sensor reading on the resolved device, or `None` with a warning |
| Emitting.Emitter.EmitStatement | packages/blockly-cit/src/generate.ts:220-342 | comment, device lookup and the block's own lines, warnings and imports, in that order |
| Emitting.Emitter.EmitIf | packages/blockly-cit/src/generate.ts:289-296 | the first child is the condition, the rest the body, `True` without children |
| Emitting.Emitter.EmitParallel | packages/blockly-cit/src/generate.ts:297-315 | one bracketed call per enabled child, or `pass` |
| Emitting.Emitter.ParallelCall | packages/blockly-cit/src/generate.ts:344-358 | waits and messages as calls, device calls on the resolved device, `None` otherwise |
| Emitting.Emitter.DeviceCall | packages/blockly-cit/src/generate.ts:360-450 | the SDK path and arguments of a device block, or a warning that it has no Python form |
| Emitting.EmitProgram | packages/blockly-cit/src/generate.ts:461-501 | event functions first, then one `main()` with the start blocks' children and the loose blocks; what these lists are is stated by the members of `TopLevel` |
| TopLevel.EventsListed | packages/blockly-cit/src/generate.ts:469-479 | the event functions stand for exactly the enabled timer and gesture blocks, in the order of the list |
| TopLevel.MainExactly | packages/blockly-cit/src/generate.ts:485 | there is a `main()` exactly when an enabled block is neither a timer nor a gesture block |
| TopLevel.MainPerforms | packages/blockly-cit/src/generate.ts:481-484 | the steps of `main()` leave the trace of what hangs under each enabled start block, in list order, and then of each enabled loose block, in list order |
| TopLevel.MainCompilable | packages/blockly-cit/src/generate.ts:468-484 | what is asked of each enabled block of the list holds of the steps of `main()` and of every event function |
| Emitting.EmitHeader | packages/blockly-cit/src/generate.ts:506-525 | the import line in catalogue order, then the sorted aliases |
| Emitting.GeneratePython | packages/blockly-cit/src/generate.ts:456-552 | text, shifted source map, warnings and imports are those of the specified file, without trailing blank lines |
| Emitting.BlockForLine | packages/blockly-cit/src/generate.ts:555-566 | the entry with the greatest line at or before the given one, or none |
| Structure.OwnStart | packages/blockly-cit/src/generate.ts:220-342 | a block emits code exactly when it has a Python form, and its first line is at its own depth |
| Structure.ParseStatementLines | packages/blockly-cit/src/generate.ts:220-342 | parsing a statement's flat lines by indentation gives its translated tree, and fails exactly when it is not suited |
| Structure.ParseChildrenLines | packages/blockly-cit/src/generate.ts:174-197 | the same for a list of children at one depth, in front of any outer lines |
| Structure.ParseSuiteLines | packages/blockly-cit/src/generate.ts:174-197 | the suite below a header parses, exactly when it is not made of comments only |
| Structure.EveryNameIdentifier | packages/blockly-cit/src/generate.ts:260-270 | the name of a timer's function is an identifier exactly when the period is not negative |
| Correct.TargetIsDevice | packages/blockly-cit/src/generate.ts:140-172 | a resolved alias is the alias of the very device the block means, and resolves exactly when there is one |
| Correct.ActionCorrect | packages/blockly-cit/src/generate.ts:344-450 | the emitted call has the effect of the wait, message or device block |
| Correct.StatementCorrect | packages/blockly-cit/src/generate.ts:220-342 | running a compilable block's translation leaves the trace of the block, for every oracle and starting trace |
| Program.FileParses | packages/blockly-cit/src/generate.ts:456-552 | the whole file parses into the translated program, and fails exactly for a comment-only suite or a negative timer period |
| Program.HeaderLoads | packages/blockly-cit/src/generate.ts:503-525 | the import line lists every SDK name the body uses, and each alias is bound to its device |
| Program.LoadEvents | packages/blockly-cit/src/generate.ts:476-479 | every event function is registered with its trigger and body, in order |
| Program.SortedMembers | packages/blockly-cit/src/generate.ts:515-521 | sorting loses and invents no binding |
| Program.CompilerCorrect | packages/blockly-cit/src/generate.ts:456-552 | compiling preserves meaning: for a compilable program the file parses and loads; for every enabled timer or gesture block, in list order, there is a handler with its trigger that leaves the trace of its enabled blocks; and there is a `main()` exactly when the program has another enabled block, which leaves the program's trace, for every sensor oracle |
| FileText.FileSplits | packages/blockly-cit/src/generate.ts:546-547 | splitting the file on line feeds gives back the emitted lines and the empty text after the last one |
| PythonLines.CommentLine | packages/blockly-cit/src/generate.ts:239-243 | what Python reads of a comment's line adds no code exactly when each piece after a carriage return is blank or a comment |
| PythonLines.CutLine | packages/blockly-cit/src/generate.ts:109-116 | a carriage return in a line of code leaves a string literal open at a line end, and Python reads no such line |
| LineEnds.FileLegible | packages/blockly-cit/src/generate.ts:239-243 | for a compilable program every emitted line is legible exactly when the comment of every enabled block that emits one is quiet |
| FileText.FileReads | packages/blockly-cit/src/generate.ts:546-547 | for a suited program whose alias identifiers are no keywords, what Python reads of the file is the emitted code exactly when no literal holds a carriage return or a null character and no comment holds a null character or goes on with code after a carriage return |
| FileText.CompilableReads | packages/blockly-cit/src/generate.ts:456-552 | for a compilable program that is so exactly when its comments are quiet |
| FileText.GeneratedFileMeansTheBlocks | packages/blockly-cit/src/generate.ts:456-552 | the same from the characters of the file on, for a compilable program with quiet comments |
| SourceMaps.FileNested | packages/blockly-cit/src/generate.ts:174-342 | every header is followed at once by a line one level deeper and every decorator by its function |
| SourceMaps.SourceMapExact | packages/blockly-cit/src/generate.ts:527-544 | after offset and trimming the map is strictly increasing, in range, on code lines only, and holds exactly the lines that came from a block |
| SourceMaps.NearestUnique | packages/blockly-cit/src/generate.ts:555-566 | the answer of the lookup is unique, and an entry answers for its own line |
| SourceMaps.TracebackFindsBlock | packages/blockly-cit/src/generate.ts:555-566 | a line that a block emitted maps back to that block |
| Trails.SourceMapTrail | packages/blockly-cit/src/generate.ts:220-358 | the source map is, entry for entry, the enabled blocks that leave a line of their own, each before what hangs under it, with the alias their device is known under, on the line the block starts with; `main()` belongs to the first start block or else the first loose block |
| Trails.AliasNamed | packages/blockly-cit/src/generate.ts:140-172 | the alias the generator finds is the one under which the device the block means is known |
| Notices.ReportExactly | packages/blockly-cit/src/generate.ts:456-552 | the warnings are exactly those each enabled block gives rise to, in the order of the file, and the imports are `device` and exactly the names some emitted block needs |
| BindingOrder.SortedOrder | packages/blockly-cit/src/generate.ts:515 | under any consistent comparison of the bound aliases the earlier alias comes first, and of two that tie the one bound first |
| BindingOrder.OutputIgnoresBindingOrder | packages/blockly-cit/src/generate.ts:140-172 | permuted bindings with distinct aliases and device ids give the same text exactly when tied ones keep their order, and then the same source map and warnings |
| BindingOrder.AnyOrderExactly | packages/blockly-cit/src/generate.ts:515-521 | every order of the bindings gives the same text exactly when no two aliases tie |
| Pitfalls.CommentOnlySuiteRefused | packages/blockly-cit/src/generate.ts:174-197 | a commented block that only warns makes the file unparsable |
| Pitfalls.ConditionIgnoresDisabled | packages/blockly-cit/src/generate.ts:289-296 | a disabled first child is read as the condition all the same |
| Pitfalls.StatementAsConditionRunsNothing | packages/blockly-cit/src/generate.ts:289-296 | an `if` whose first child is no value warns and never runs any of its blocks |
| Pitfalls.ParallelWarnsWithoutNeed | packages/blockly-cit/src/generate.ts:344-358 | a wait or message in `parallel` warns about a missing device exactly when there is not just one binding |
| Pitfalls.CollidingAliasesLoseDevice | packages/blockly-cit/src/generate.ts:515-521 | of two aliases with one identifier only the later device can be reached |
| Pitfalls.CommentRuns | packages/blockly-cit/src/generate.ts:239-243 | a comment that goes on with a call of `log` after a carriage return runs: `main()` says its message before the block's own, which the blocks do not |
| Serialize.ToSerialized | packages/blockly-cit/src/serialize.ts:46-93 | the loops fill fields, the value input and the statement chain as specified |
| Serialize.WrittenExactly | packages/blockly-cit/src/serialize.ts:46-68 | type, id, switch and comment are the block's, and the fields are exactly its values of the fields the catalogue declares |
| Serialize.Chain | packages/blockly-cit/src/serialize.ts:96-101 | statements stored side by side are linked one after another |
| Serialize.ChainWalk | packages/blockly-cit/src/serialize.ts:75-101 | along the `next` links stand exactly the children that are not routed to a value input, in their order |
| Serialize.ToNode | apps/studio-web/src/blockly-workspace.ts:217-250 | the walk over inputs and `next` links gives the specified stored block |
| Serialize.ReadInput | apps/studio-web/src/blockly-workspace.ts:231-242 | one input's blocks are its chain, in order |
| RoundTrip.ReadBackIsNormal | apps/studio-web/src/blockly-workspace.ts:217-250 | writing and reading back is one normaliser, on every tree |
| RoundTrip.WellFormedFixed | packages/blockly-cit/src/serialize.ts:46-101 | well-formed trees normalise to themselves |
| RoundTrip.NormalisedWellFormed | packages/blockly-cit/src/serialize.ts:46-101 | whatever is read back is well formed and of the same type |
| BlockIds.CreateExact | apps/studio-web/src/blockly-workspace.ts:192-209 | blocks put on a canvas keep their ids exactly when those are distinct, not empty and not taken |
| RoundTrip.RoundTripExact | packages/blockly-cit/src/serialize.ts:40-101 | the round trip of a block is the identity exactly on well-formed trees with distinct ids, and idempotent on all |
| RoundTrip.ProjectRoundTrip | packages/blockly-cit/src/serialize.ts:40-44 | a project comes back unchanged exactly when each of its blocks is well formed and no id is empty or occurs twice in it, and a second round trip changes nothing, whatever ids are drawn |
| Tables.KeysApart | apps/agent-mesh-bridge/src/outbox.ts:124 | counters of different nodes and the three cursors never share a key |
| Tables.EnqueueReturnsExactly | apps/agent-mesh-bridge/src/outbox.ts:187-221 | enqueueing returns exactly when the key is pending or accepted afterwards |
| Tables.EnqueueConsistent | apps/agent-mesh-bridge/src/outbox.ts:187-200 | an insert keeps message ids and source keys unique |
| Tables.AcknowledgeConsistent | apps/agent-mesh-bridge/src/outbox.ts:357-391 | moving a row to the receipts keeps both tables' uniqueness |
| Tables.RecordConsistent | apps/agent-mesh-bridge/src/outbox.ts:416-454 | no two commands share an idempotency key |
| Tables.LifecycleStored | apps/agent-mesh-bridge/src/outbox.ts:304-324 | a lifecycle is pending under its derived identifier once it is enqueued |
| Tables.PendingUnique | apps/agent-mesh-bridge/src/outbox.ts:393-396 | the pending receipt of a message is that of its only row |
| Tables.AcknowledgeKeepsKeyExactly | apps/agent-mesh-bridge/src/outbox.ts:373-388 | acknowledging loses a source key exactly when the message was accepted before under other keys only |
| Tables.AcknowledgeKeepsReceiptExactly | apps/agent-mesh-bridge/src/outbox.ts:373-388 | it loses a message's receipt exactly when the key was accepted before under other messages only |
| Tables.EnqueueIgnoresAccepted | apps/agent-mesh-bridge/src/outbox.ts:187-200 | an accepted key is stored and delivered again |
| Outbox.BridgeOutbox.constructor | apps/agent-mesh-bridge/src/outbox.ts:58-117 | a new database is empty and consistent |
| Outbox.BridgeOutbox.StateNumber | apps/agent-mesh-bridge/src/outbox.ts:133-145 | the stored number, 0 when there is none |
| Outbox.BridgeOutbox.SetStateNumber | apps/agent-mesh-bridge/src/outbox.ts:147-157 | one key is set and nothing else changes |
| Outbox.BridgeOutbox.NextNodeSequence | apps/agent-mesh-bridge/src/outbox.ts:123-131 | the counter is one higher, stored before it is returned |
| Outbox.BridgeOutbox.EnqueueEvent | apps/agent-mesh-bridge/src/outbox.ts:159-227 | insert or ignore; the answer is the row under the source key or the given frame with the accepted receipt, and it throws exactly when there is neither |
| Outbox.BridgeOutbox.AcknowledgeFrame | apps/agent-mesh-bridge/src/outbox.ts:357-391 | the row leaves the outbox, its receipt is kept unless message or key is taken, and the answer is its receipt |
| Outbox.BridgeOutbox.DiscardUndeliverableFrames | apps/agent-mesh-bridge/src/outbox.ts:246-286 | an event stays exactly when its frame has the session and the time is before its timestamp plus time to live, a lifecycle exactly when it has the session; both counts are right |
| Outbox.BridgeOutbox.ReceiptForMessage | apps/agent-mesh-bridge/src/outbox.ts:393-407 | the pending receipt comes before the accepted one |
| Outbox.BridgeOutbox.Command | apps/agent-mesh-bridge/src/outbox.ts:409-414 | the stored row, if there is one |
| Outbox.BridgeOutbox.RecordCommand | apps/agent-mesh-bridge/src/outbox.ts:416-454 | a new row is inserted, the same operation answers with its row, a reused identity throws |
| Outbox.BridgeOutbox.UpdateCommand | apps/agent-mesh-bridge/src/outbox.ts:456-477 | only stage and time of the row change; an unknown command throws |
| Outbox.BridgeOutbox.EnqueueLifecycle | apps/agent-mesh-bridge/src/outbox.ts:288-329 | insert or ignore, and the stored lifecycle is the answer |
| Outbox.BridgeOutbox.AcknowledgeLifecycleFrame | apps/agent-mesh-bridge/src/outbox.ts:349-355 | the lifecycle goes, and the answer says whether there was one |
| Outbox.BridgeOutbox.RecordAgentRoute | apps/agent-mesh-bridge/src/outbox.ts:491-508 | the route of the session is inserted or replaced |
| Outbox.BridgeOutbox.AgentRoute | apps/agent-mesh-bridge/src/outbox.ts:510-524 | the stored route, if there is one |
| Commands.ExactText | apps/agent-mesh-bridge/src/command-handler.ts:311-326 | there is a text exactly when it is the only parameter, not blank and within its bytes |
| Commands.SucceedsExactly | apps/agent-mesh-bridge/src/command-handler.ts:66-254 | a command succeeds exactly when it is in time and its causing message left a receipt that mirrors it |
| Commands.VerdictTerminal | apps/agent-mesh-bridge/src/command-handler.ts:66-269 | every verdict ends the command, and there is a route exactly for a successful prompt whose cause was dispatched to a session: from that session to the command's target, with its correlation and the time |
| Commands.VerdictExplained | apps/agent-mesh-bridge/src/command-handler.ts:66-254 | the code says which check failed first, or which success it was, and the stage follows from the code |
| Commands.DeliveryExactly | apps/agent-mesh-bridge/src/command-handler.ts:34-97 | a reused identity throws and a finished operation is silent, both without a change; any other delivery stores stage and time of the command, its route if it has one, nothing else, and answers with the terminal lifecycle, after an accepted one on success |
| Commands.HandledTerminal | apps/agent-mesh-bridge/src/command-handler.ts:34-64 | a delivery that returned leaves the command stored, as the same operation, at a terminal stage |
| Commands.RedeliverySilent | apps/agent-mesh-bridge/src/command-handler.ts:40-54 | a redelivery of a finished operation changes nothing and reports nothing |
| Commands.MirrorCommandHandler.Handle | apps/agent-mesh-bridge/src/command-handler.ts:34-64 | the new tables and the lifecycles are those of the specified decision; a reused identity throws |
| Commands.MirrorCommandHandler.AgentPrompt | apps/agent-mesh-bridge/src/command-handler.ts:99-192 | the six prompt outcomes in the order of their checks, with the route recorded on success |
| Commands.MirrorCommandHandler.Display | apps/agent-mesh-bridge/src/command-handler.ts:194-254 | the four display outcomes in the order of their checks |
| Commands.MirrorCommandHandler.Finish | apps/agent-mesh-bridge/src/command-handler.ts:66-97 | expiry first, then the capability |
| Commands.MirrorCommandHandler.Terminal | apps/agent-mesh-bridge/src/command-handler.ts:256-269 | the terminal stage is stored and its report built |
| Delivery.StoreKept | apps/agent-mesh-bridge/src/outbox.ts:68-116 | every step keeps the uniqueness rules of all tables |
| Delivery.PollStep | apps/agent-mesh-bridge/src/bridge.ts:250-453 | the rest of the page stays complete above the cursor through every step |
| Delivery.ReceiptsStep | apps/agent-mesh-bridge/src/outbox.ts:159-227 | every step keeps the receipts of both tables equal to what was first written for the message |
| Delivery.AcknowledgeSafe | apps/agent-mesh-bridge/src/outbox.ts:357-391 | acknowledging a frame loses no key of a reachable state |
| Delivery.SequencesStep | apps/agent-mesh-bridge/src/outbox.ts:123-131 | every stored frame keeps a number of its own below its node's counter |
| Delivery.LossStep | apps/agent-mesh-bridge/src/bridge.ts:250-453 | every step keeps every passed item safe |
| Mirror.ReceiptAgrees | apps/agent-mesh-bridge/src/outbox.ts:393-407 | the two-table lookup is one write-once map, while either table has the message |
| Mirror.SuccessConfirmed | apps/agent-mesh-bridge/src/command-handler.ts:99-254 | a verdict of success has a polled item with the right id, session and hash |
| Mirror.RowsStep | apps/agent-mesh-bridge/src/outbox.ts:416-477 | no step removes a command, changes its identity or leaves a terminal stage |
| Mirror.HandlerStep | apps/agent-mesh-bridge/src/command-handler.ts:34-97 | between its writes the handler's command stays stored and open, its verdict is terminal, and its reports state the stored end |
| Mirror.ReportsStep | apps/agent-mesh-bridge/src/command-handler.ts:175-191 | pending lifecycles state the stored end of their command |
| Mirror.EndsStep | apps/agent-mesh-bridge/src/command-handler.ts:256-269 | every step keeps at most one terminal report a command |
| Runs.EnqueueNeverThrows | apps/agent-mesh-bridge/src/outbox.ts:207-215 | in no run does storing an event fail on a taken message id |
| Runs.ReceiptsWriteOnce | apps/agent-mesh-bridge/src/outbox.ts:393-407 | two lookups of one message that answer, at any two moments, answer the same |
| Runs.ReceiptStays | apps/agent-mesh-bridge/src/outbox.ts:357-407 | an item's receipt is found from its enqueueing until a step drops its own event, whatever else is dropped meanwhile, and for good once accepted |
| Runs.ReceiptGoesExactly | apps/agent-mesh-bridge/src/outbox.ts:246-286 | a step takes an item's receipt away exactly when it drops the item's event before that was accepted |
| Runs.MirrorSafe | apps/agent-mesh-bridge/src/command-handler.ts:99-254 | in every run a stored or pending success goes back to a receipt of that very command, a decision on it before its expiry, and an intent or completion fetched before the decision that confirms this command under the mapping it was received with |
| Runs.ConfirmedExactly | apps/agent-mesh-bridge/src/command-handler.ts:99-254 | in every run, while an item has a receipt, a command it caused succeeds exactly when it is in time, carries just one bounded text and the item confirms it, and a successful prompt leaves exactly the route from the session the intent was dispatched to |
| Runs.CommandsAbsorbing | apps/agent-mesh-bridge/src/outbox.ts:416-477 | over every run commands stay, keep identity and terminal stage, and correspond one to one to idempotency keys |
| Runs.EndsOnce | apps/agent-mesh-bridge/src/command-handler.ts:256-269 | a command's end is handed over at most once, and exactly once in a crash-free run at rest |
| Runs.UnreportedForever | apps/agent-mesh-bridge/src/bridge.ts:228-235 | an end stored but not reported is never reported |
| Runs.CrashUnreports | apps/agent-mesh-bridge/src/command-handler.ts:267-268 | a crash right after the end was stored always has that effect |
| Runs.CrashLosesReport | apps/agent-mesh-bridge/src/bridge.ts:228-235 | such a run exists |
| Runs.HandlerIsProtocol | apps/agent-mesh-bridge/src/command-handler.ts:34-97 | uninterrupted, the steps of one delivery are what the handler object does |
| Runs.SequencesDistinct | apps/agent-mesh-bridge/src/outbox.ts:123-131 | in every run no two events of one node ever share a sequence number |
| Losses.NoItemLost | apps/agent-mesh-bridge/src/bridge.ts:250-453 | in every run, for each item its cursor has passed or whose acknowledgement Agent Mesh heard, every event of it is pending, accepted, or was dropped by a flush of another session than it was stored for or after the item's time and the event's time to live; only a completion without a route to a registered node is passed over |
| Losses.DropExactly | apps/agent-mesh-bridge/src/outbox.ts:246-286 | in every run a flush keeps exactly the events of its session before timestamp plus time to live and the lifecycles of its session, unchanged, and touches nothing else |
| Losses.EventGoesExactly | apps/agent-mesh-bridge/src/outbox.ts:246-286 | in every run a pending event goes exactly when it is acknowledged or at a flush of another session or at or after timestamp plus time to live, and until then it does not change |
| Losses.LifecycleGoesExactly | apps/agent-mesh-bridge/src/outbox.ts:275-282 | in every run a pending lifecycle goes exactly when it is acknowledged or at a flush of another session |
| Losses.RowStored | apps/agent-mesh-bridge/src/bridge.ts:250-337 | in every run a pending event was stored by an earlier step for the item then worked on, with that step's session, the item's time and the time to live of its kind |
| BridgeLoop.CitAgentMeshBridge.constructor | apps/agent-mesh-bridge/src/bridge.ts:85-100 | a bridge on a new database starts the empty run |
| BridgeLoop.CitAgentMeshBridge.Reopen | apps/agent-mesh-bridge/src/bridge.ts:510-520 | a restart on the same database continues the run after a crash, with nothing in flight |
| BridgeLoop.CitAgentMeshBridge.Acknowledge | apps/agent-mesh-bridge/src/bridge.ts:209-213 | an acknowledgement is two protocol steps, and the frame is in flight no more |
| BridgeLoop.CitAgentMeshBridge.HandleCommand | apps/agent-mesh-bridge/src/bridge.ts:228-235 | the steps taken are exactly those of the delivery, all lifecycles of the answer are enqueued, no crash lies between, and a command that reports has ended exactly once |
| BridgeLoop.CitAgentMeshBridge.ReportAll | apps/agent-mesh-bridge/src/bridge.ts:232-234 | one report step a lifecycle, in order; the tables are those with every lifecycle enqueued, each stands under its identifier, and the end is counted once |
| BridgeLoop.CitAgentMeshBridge.EnqueuePart | apps/agent-mesh-bridge/src/bridge.ts:263-280 | drawing a number and storing the event are two protocol steps, and one more event of the item is done |
| BridgeLoop.CitAgentMeshBridge.DrawNumber | apps/agent-mesh-bridge/src/bridge.ts:263-268 | the node's counter is raised and remembered for the event |
| BridgeLoop.CitAgentMeshBridge.StoreEvent | apps/agent-mesh-bridge/src/bridge.ts:269-280 | the event with the drawn number is stored, which never fails, and the item has one more event done |
| BridgeLoop.CitAgentMeshBridge.PollItem | apps/agent-mesh-bridge/src/bridge.ts:255-337 | an item is stored, acknowledged upstream where its feed has acknowledgements, and passed by the cursor, or the connection ends |
| BridgeLoop.CitAgentMeshBridge.PollFeed | apps/agent-mesh-bridge/src/bridge.ts:348-401 | a page moves the cursor to its last item with every item acknowledged, an empty answer to its next cursor if that is ahead |
| BridgeLoop.CitAgentMeshBridge.Flush | apps/agent-mesh-bridge/src/bridge.ts:475-491 | what is left are exactly the events of the session before their time is up and its lifecycles; of up to a hundred of each exactly those are sent, once, that were not sent in the last five seconds |
| HubFrame.FindOperation | firmware/lego-hub-agent/hub_agent.py:132-134 | the operation of that name, and none exactly when no operation has it |
| HubFrame.Decode | firmware/lego-hub-agent/hub_agent.py:112-147 | a decoded frame has a sequence below 10000 and as many well-formed arguments as its operation takes |
| HubFrame.RoundTrip | firmware/lego-hub-agent/hub_agent.py:89-147 | decoding an encoded frame gives the sequence modulo 10000, the operation, and the arguments less the blanks at the end of the last |
| HubFrame.RoundTripExactly | firmware/lego-hub-agent/hub_agent.py:117 | the arguments come back unchanged exactly when the last one does not end in a blank |
| HubFrame.DecodedEncodes | firmware/lego-hub-agent/hub_agent.py:89-147 | whatever decodes encodes again, to a line that decodes to the same frame |
| HubFrame.ReadIntText | firmware/lego-hub-agent/hub_agent.py:158-162 | every integer is read back from its decimal text |
| HubFrame.DecodeExactly | firmware/lego-hub-agent/hub_agent.py:112-147 | a line decodes to a frame exactly when its stripped text has at most 96 characters, the tag, a sequence of digits below 10000, a listed name with a listed number of arguments, and plain arguments of at most 24 characters |
| HubFrame.EncodeExactly | firmware/lego-hub-agent/hub_agent.py:89-109 | a frame is encoded exactly as that line, with the sequence modulo 10000, when the line is not too long |
| HubAgent.Clamp | firmware/lego-hub-agent/hub_agent.py:150-155 | the nearest value in the range |
| HubAgent.PercentToSpeed | firmware/lego-hub-agent/hub_agent.py:165-169 | ten degrees per second a percent, never more than 1000 either way |
| HubAgent.HubAgent.constructor | firmware/lego-hub-agent/hub_agent.py:175-182 | a new agent has seen no frame and commanded nothing |
| HubAgent.HubAgent.Emit | firmware/lego-hub-agent/hub_agent.py:186-188 | the sequence is spent, and the line is the encoded frame or a FrameError |
| HubAgent.HubAgent.StopAllMotors | firmware/lego-hub-agent/hub_agent.py:338-340 | everything is stopped and the flag cleared |
| HubAgent.HubAgent.ReportPorts | firmware/lego-hub-agent/hub_agent.py:345-350 | one code letter a port, in port order |
| HubAgent.HubAgent.HandleLine | firmware/lego-hub-agent/hub_agent.py:198-210 | state, hardware commands and replies of one line, with its two error replies |
| HubAgent.HubAgent.DispatchFrame | firmware/lego-hub-agent/hub_agent.py:212-289 | the effect and reply of each operation; which they are is stated by the members of `HubCommands` |
| HubAgent.HubAgent.DispatchToAngle | firmware/lego-hub-agent/hub_agent.py:249-261 | the two angle commands on a motor port, clamped |
| HubAgent.HubAgent.DispatchToBase | firmware/lego-hub-agent/hub_agent.py:291-304 | the three drive base commands, clamped; `HubCommands.CommandsExactly` says which frame gives which |
| HubAgent.HubAgent.Poll | firmware/lego-hub-agent/hub_agent.py:308-334 | button, watchdog and subscriptions in that order, ending early where a reading cannot be encoded |
| HubAgent.HubAgent.Report | firmware/lego-hub-agent/hub_agent.py:325-332 | exactly the due subscriptions report, each marked before it is read |
| HubCommands.CommandsExactly | firmware/lego-hub-agent/hub_agent.py:198-304 | a line gives the hardware exactly the one command that its operation, port and numbers order, the numbers brought within their limits, and none where the port, a number or the base is missing; the running flag follows the command |
| HubCommands.SubscriptionsExactly | firmware/lego-hub-agent/hub_agent.py:273-280 | a line adds a subscription exactly when it asks for one of a sensor that answers, at an interval from 50 to 5000 |
| HubCommands.AnsweredExactly | firmware/lego-hub-agent/hub_agent.py:198-289 | a line is answered by exactly the messages its frame asks for under the next sequence numbers: the refusal with its code, the ports, the reading, or an acknowledgement; when one cannot be encoded a single refusal takes their place |
| HubCommands.PolledExactly | firmware/lego-hub-agent/hub_agent.py:308-334 | a poll stops everything exactly when the button is pressed or a flagged agent was left alone too long, says so, then reports exactly the due subscriptions with a reading, in order, and marks the due ones; it raises exactly when one of these messages cannot be encoded |
| HubSafety.RepliesDecode | firmware/lego-hub-agent/hub_agent.py:198-210 | every line is answered, whatever the hardware says, and every reply decodes |
| HubSafety.PollDecodes | firmware/lego-hub-agent/hub_agent.py:308-334 | every line of a poll decodes |
| HubSafety.PollAnswers | firmware/lego-hub-agent/hub_agent.py:308-334 | with good subscriptions, a poll does not raise while the hardware's readings fit a frame |
| HubSafety.NoPollRaises | firmware/lego-hub-agent/hub_agent.py:308-334 | in every run, a poll does not raise while the hardware's readings fit a frame |
| HubSafety.NeverActsOnBadFrame | firmware/lego-hub-agent/hub_agent.py:201-204 | a line that does not decode changes nothing but the reply number |
| HubSafety.FlagKeptExactly | firmware/lego-hub-agent/hub_agent.py:230-239 | a line keeps "something moves implies the flag" exactly when it is not a stop of one motor while something else moves |
| HubSafety.WatchdogStops | firmware/lego-hub-agent/hub_agent.py:320-323 | after a poll of a flagged agent nothing moves past the watchdog's time, even when the poll raises |
| HubSafety.NothingRunsAway | firmware/lego-hub-agent/hub_agent.py:198-334 | in every run without such a stop, after a poll nothing moves longer than the watchdog's time after the last decodable line |
| HubSafety.RiskyStopRunsAway | firmware/lego-hub-agent/hub_agent.py:237-238 | after such a stop what still moves keeps moving over any later events, until the button, a stop or a new motor command |
| HubSafety.RunawayExists | firmware/lego-hub-agent/hub_agent.py:237-238 | on every hub, such a run exists for any two of its motor ports that a frame can name |
| HubSafety.CommandsBounded | firmware/lego-hub-agent/hub_agent.py:240-304 | in every run each command is within its limits and motor commands go to motors |
| Autosave.Autosave.constructor | apps/studio-web/src/autosave.ts:48-58 | a new object waits for nothing |
| Autosave.Autosave.Change | apps/studio-web/src/autosave.ts:61-66 | the document replaces the waiting one, the timer starts again, and a stopped object ignores it |
| Autosave.Autosave.FlushNow | apps/studio-web/src/autosave.ts:69-75 | the timer goes and the write starts if it can |
| Autosave.Autosave.Stop | apps/studio-web/src/autosave.ts:78-85 | the waiting edit and the timer are forgotten |
| Autosave.Autosave.Arm | apps/studio-web/src/autosave.ts:87-93 | one timer is armed in place of any other |
| Autosave.Autosave.TimerFires | apps/studio-web/src/autosave.ts:89-92 | the handle is cleared and the write starts if it can |
| Autosave.Autosave.Write | apps/studio-web/src/autosave.ts:95-107 | a write starts only without one in flight, not stopped, and with something waiting |
| Autosave.Autosave.SaveSucceeds | apps/studio-web/src/autosave.ts:108-135 | the shown state tells of newer work, and newer work without a timer gets one |
| Autosave.Autosave.SaveFails | apps/studio-web/src/autosave.ts:113-122 | the document is put back and the failure shown; timer and handles are as before |
| Autosave.StoresOnlyNewer | apps/studio-web/src/autosave.ts:95-135 | in every run there is at most one write in flight and the stored edit numbers strictly increase |
| Autosave.WritesExactly | apps/studio-web/src/autosave.ts:61-122 | after any run, an event accepts an edit, starts a write of the waiting edit, or ends one exactly under the stated conditions, and waiting, written and stored edits change with that only |
| Autosave.TimersExactly | apps/studio-web/src/autosave.ts:61-135 | after any run, a timer is given out exactly for an accepted edit and for newer work behind a save that went through, and goes with a flush, a stop or its firing |
| Autosave.ShownExactly | apps/studio-web/src/autosave.ts:61-122 | after any run, what is on show follows from what the event did: an edit, the start of a write, its failure or its success |
| Autosave.FailureArmsNothing | apps/studio-web/src/autosave.ts:123-134 | in every run a failed save gives out no timer |
| Autosave.FailureWaits | apps/studio-web/src/autosave.ts:123-134 | after a failure without a timer no write starts and no timer is given out until the next edit or flush, whatever else happens |
| Autosave.LatestHeldExactly | apps/studio-web/src/autosave.ts:61-135 | in every unstopped run the latest edit is held exactly when no failed save was put back over a newer one since, and a waiting edit has a timer, a write or a shown failure |
| Autosave.FailureKeepsLatestExactly | apps/studio-web/src/autosave.ts:113-119 | a failing save keeps the latest edit exactly when none came in while it ran |
| Autosave.SavedHonestExactly | apps/studio-web/src/autosave.ts:108-112 | "saved" on show means that the latest edit is stored, exactly under the same condition |
| Autosave.FailureLosesNewerEdit | apps/studio-web/src/autosave.ts:113-119 | a run in which an edit is lost and "saved" is shown |
| Autosave.StoppedForGood | apps/studio-web/src/autosave.ts:78-85 | a stopped object starts no further write |
| Autosave.BurstIsOneSave | apps/studio-web/src/autosave.ts:61-66 | a burst of edits is one save, of its last document |
| Roles.NumberedExactly | apps/studio-web/src/fabric-session-selection.ts:84 | the pattern matches exactly the texts of its shape, with a unique first group |
| Roles.FamilyExactly | apps/studio-web/src/fabric-session-selection.ts:137-138 | a numbered role belongs to the family in front of its number, any other role to itself |
| Roles.AutomaticRoleAssignments | apps/studio-web/src/fabric-session-selection.ts:91-135 | the loops compute the specified greedy assignment |
| Roles.AssignedExactly | apps/studio-web/src/fabric-session-selection.ts:91-135 | a bound role has its last binding's node; a requirement at its turn gives its role a default exactly when the role has no node yet and there is a free candidate that is the only one or for a bank, and then it is the first free one |
| Roles.AssignedKeepsAndPicks | apps/studio-web/src/fabric-session-selection.ts:91-135 | bindings stay, every new node is a candidate of its role and new to its family |
| Roles.BankEmptyExactly | apps/studio-web/src/fabric-session-selection.ts:115-133 | a role of a numbered bank is left empty exactly when its family uses all of its candidates |
| Roles.ReconciledRoleSelections | apps/studio-web/src/fabric-session-selection.ts:151-195 | the loops compute the specified reconciliation |
| Roles.ReconciledExactly | apps/studio-web/src/fabric-session-selection.ts:151-195 | a bound role has its last binding's node, a choice stays exactly when it is of the same session, required, unbound and offered by every requirement of the role, and the rest are defaults given turn by turn |
| Roles.OtherSession | apps/studio-web/src/fabric-session-selection.ts:157-159 | for another session the answer is the automatic assignment, whatever the current choices |
| Roles.ChoiceKeptExactly | apps/studio-web/src/fabric-session-selection.ts:170-182 | in the same session an unbound role that is required once keeps its choice exactly when its requirement offers it |
| Roles.DroppedChoiceReturns | apps/studio-web/src/fabric-session-selection.ts:170-193 | of a role required twice, a choice that only one requirement offers is dropped and comes back as the default |
| Roles.SettlesExactly | apps/studio-web/src/fabric-session-selection.ts:151-195 | for a list of distinct roles, reconciling its own result changes nothing for all candidates, bindings and choices exactly when every family of two or more has two numbered members |

## Left out

- Blockly: injection, positions, validators, the toolbox and its translations; only inputs, `next` links and fields are modelled. `readWorkspace` does not follow the chain below a top-level block, so the round trip is stated from the stored tree, not from an arbitrary workspace.
- JavaScript details of values: numbers that print in exponent form, lone surrogates, prototype keys of plain objects, and field values that are neither text, number, boolean nor empty keep only their text.
- The locale's comparison of aliases is an arbitrary function; the results on the binding order ask that it be consistent on the bound aliases.
- Python beyond the emitted subset: definitions inside functions have no meaning here, only the escapes of the emitted literals decode, code after a comment's carriage return counts as read only in the emitted forms, and indentation with tabs and joined lines are not read. The SDK's own behaviour is a trace of effects.
- Program.CompilerCorrect: asks for whole repeat counts and for texts without a carriage return or a null character, because Python refuses the others.
- SQLite, JSON, the protocol schemas, the frame size limits and the safe-integer limit; a table is a map with its uniqueness rules, a transaction one step.
- The Agent Mesh command id of a receipt and of a command row, which no decision reads.
- WebSocket framing, timeouts, the heartbeat and the control inventory; a connection that ends is one step.
- Losses.NoItemLost: the second event of a spoken launch phrase is covered for attempts in which the node published the flight intent, because otherwise the code makes none.
- BridgeLoop.CitAgentMeshBridge.PollFeed: one call of a feed runs without another task in between; interleavings are the protocol's, in `Runs`.
- BridgeLoop.CitAgentMeshBridge.Flush: which hundred frames are taken when there are more, and a socket that closes while it is written to.
- The hub's hardware: readings are values given to each call, one reading of a sensor per call; `build_machine` and `main` are not modelled. White space and integers are read as CPython does, digits as ASCII. A stop of one motor of the drive base leaves the base commanded.
- Autosave: callbacks that call back into the object, and a `save` that throws before it returns a promise.
- Roles.SettlesExactly: role lists with a repeated role; two requirements of one role could disagree about a candidate.
- React panels, discovery and sensor cards, session sorting, course versions, downloads and host glue.
