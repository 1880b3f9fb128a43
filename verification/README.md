# laneboard: a verified model of the browser half

These Dafny modules model the protocols, indexes, algorithms and scanners of laneboard's
browser code and prove what they keep over every run and every input.

- **Room link** (`LinkSpec`, `LinkSafety`, `LinkNumbers`, `Replication`, `LinkShown`, `RoomServer`, `RoomLink`): one WebSocket with
  epochs, numbered messages, multi-part snapshots, replay, gaps, close codes (private-use codes, section 7.4.2 of
  RFC 6455) and timers, as a transition system driven by any events; a class that runs the same steps in place; and the
  room as a numbered log per epoch that is bound by its contract only. `RoomServer` shows that the room's own answer
  obeys it, `LinkShown` says when the page reads `live` or the room gone.
- **Fleet store** (`Keys`, `SessionIndex`, `StoreSpec`, `StoreLaws`, `StoreDerived`, `StableSort`, `StoreCore`, `StoreModes`, `StoreRun`, `StoreRate`,
  `StoreContent`, `FleetContent`, `FleetStore`, `Source`): builders with their session maps, the flat index over them, caps, the event window, key modes,
  and the frames held before a source's kind is known.
- **Fuzzy matcher** (`FuzzySpec`, `Fuzzy`, `Palette`, `PaletteRank`): the dynamic program with its running maximum and back
  pointers against all alignments; marking and ranking.
- **Turn view** (`TurnTools`, `TurnRuns`, `TurnLines`, `TurnReply`, `TurnSpec`, `TurnLaws`, `TurnHistory`, `TurnView`): where blocks, tool lines and
  prompts stand, how calls fold and split, what STOP freezes, and what every block, call and prompt is after any run. A node's children are a sequence.
- **Prompts on their way** (`PromptSpec`, `PromptLaws`, `PromptCauses`, `PanePrompts`): the maps of sent, waiting and unsent prompts and the timers.
- **Merges** (`TranscriptSpec`, `TranscriptGap`, `Transcript`, `Samples`, `LaneMix`), **router** (`Percent`, `RouteSpec`, `RouteLaws`, `RouteContent`, `Router`),
  **scanners** (`Strings`, `Highlight`, `HighlightLaws`, `Inline`, `InlineLaws`), **broadcast** (`BroadcastPlan`, `BroadcastRound`), **shell quoting** (`Shell`).

Objects whose handlers change state are classes whose methods are proved against functions on values; the results over
runs are lemmas about those functions. Sockets, timers, fetch and the user are abstract events or function parameters;
clocks are parameters.

Six properties that one might expect do not hold of the code; each has a lemma that shows it and the exact condition
under which it does hold:

- A local source can hold more than one builder: `fleet` rows are applied whatever the source is
  (`StoreModes.LocalSourceTwoBuilders`, `StoreModes.OneLocalBuilder`, over runs `StoreRun.RunOwn`). The index still agrees.
- A builder can get more than 40 events a second accepted: the window is its record's, and fleet rows can drop and remake
  the record. The bound of a second is exactly 40 and 20 for each record made in it, so 40 hold exactly for the seconds
  in which none is made (`StoreRate.RateIff`, `StoreRate.FortyIff`; the messages that reach it: `StoreRate.RushShows`).
- A refusal learned live can leave other tool lines than a reload that knows it (`TurnRuns.LateRefusalDiffers`): exactly
  when the call was strictly inside its line (`TurnLines.LateRefusalIff`, over runs `TurnLines.RunCanonicalIff`).
- Not every hash comes back from format and parse: the comment of `#session=` promises a selection that a name of 300
  characters or more does not keep, and a query cut at 200 units can end inside a surrogate pair
  (`RouteLaws.LongSessionNameIsLost`, `RouteLaws.CutPairHash`, `RouteLaws.ReparseIff`).
- A retried prompt can read NOT SENT before its 5 s: a refusal or error deletes the wait and leaves its timer running
  (`PromptLaws.RetryMarkedEarly`). Such a refusal, of a prompt whose timer runs, is exactly what makes it possible
  (`PromptLaws.EarlyIff`, `PromptLaws.RetryEarlyIff`).
- The transcript window can get a gap: the older button asks for more rows than are held, after a cut inside one line
  (`TranscriptGap.GapReached`, `TranscriptSpec.OlderContiguousIff`).

`markPieces` is documented to return no empty piece; for an empty text it returns one (`Palette.MarkPieces`).

`dafny verify dfyconfig.toml` checks the whole project.

## Model

| member | source | states |
|---|---|---|
| LinkSafety.NeverWedged | public/js/cockpit/link.js:69-123 | after every run of events a started link that was not stopped or refused for good holds exactly one of a current socket and a retry timer, a stopped or refused one holds neither, and `live` means that a snapshot was drawn |
| LinkSafety.StepSound | public/js/cockpit/link.js:173-267 | one event of any kind, of a current or a stale socket, a timer or the page, keeps that; ended stays ended, stopped stays stopped |
| LinkSafety.RefusedForever | public/js/cockpit/link.js:192-203 | a close with 4002, 4401, 4402 or 4403 ends the link: no socket is ever made again and no retry is pending, whatever events follow |
| LinkSafety.BackoffSeries | public/js/cockpit/link.js:214-235 | the delay in force after any run is min(500·1.8^k, 15000) ms for the k losses since the socket last opened; 4503, 4429 and RETRY NOW leave the series where it is |
| LinkSafety.StepDelay | public/js/cockpit/link.js:215-235 | an event that is a loss takes the next delay and schedules exactly it, an open resets the delay, nothing else moves it |
| LinkSafety.FrameLeaves | public/js/cockpit/link.js:125-181 | a frame makes the link leave its socket exactly when the page asks for a gap at what the frame hands on, or a message of it, held ones included, is not the next one; then the link is on a new socket, or on none when none could be made |
| LinkSafety.NextDelay | public/js/core/net.js:19-26 | the backoff rule steps from one delay of the series to the next, the cap included |
| LinkNumbers.StepCounts | public/js/cockpit/link.js:246-251 | an event keeps the outgoing numbers of the current socket 1, 2, 3 … exactly when it is not a send that the socket itself refuses |
| LinkNumbers.OutgoingNumbers | public/js/cockpit/link.js:76-95 | in every run where no send of a socket fails, what is written to each socket is numbered 1, 2, 3 … from the hello on |
| Replication.OrderedKeeps | public/js/cockpit/link.js:165-170 | a numbered message extends the replica by exactly the log's next entry, is dropped as already applied, or makes the link leave the socket |
| Replication.SnapshotKeeps | public/js/cockpit/link.js:141-156 | a whole snapshot and the messages held behind its parts leave the screen equal to the log up to the last number applied, or the socket is left |
| Replication.StepKeeps | public/js/cockpit/link.js:125-181 | every event that the room's contract allows keeps what was handed on equal to the fold of the epoch's log up to `lastSeq` |
| Replication.RunKeeps | public/js/cockpit/link.js:125-181 | the same over every legal run, with reconnects, replays, epoch changes, multi-part snapshots, gaps and events of left sockets |
| Replication.Replicates | public/js/cockpit/link.js:125-181 | in every reachable state with `lastSeq` set the screen shows exactly the log of the current epoch up to `lastSeq`: no entry twice, skipped or reordered |
| RoomServer.AnswerLegal | server/cockpit/link.mjs:400-440 | what the room answers to any hello, a replay or a snapshot in parts, obeys the contract that the replication result assumes |
| RoomServer.CatchesUp | server/cockpit/link.mjs:400-440 | a link that gets the room's whole answer, replay or snapshot, stays on its socket, reads `live` with no loss shown, ends at the room's last message, and then applies each next message as it comes |
| RoomLink.RoomLink.RetryNow | public/js/cockpit/link.js:254-258 | RETRY NOW acts only on a pending try of a link that is not refused for good, and answers whether it did |
| RoomLink.RoomLink.Send | public/js/cockpit/link.js:247-251 | a screen message goes out only on a welcomed open socket, with the next number, which is used up even when the socket throws |
| RoomLink.RoomLink.On | public/js/cockpit/link.js:69-267 | the object's fields after any event, handled in place, are the transition's, and stay sound: never wedged, never doubled, `live` only once drawn |
| RoomLink.RunLink | public/js/cockpit/link.js:237-267 | a link started and driven by any run ends in the state the run results speak of, sound, holding exactly one of a socket and a retry timer |
| Keys.ParseOfFkey | public/js/core/keys.js:18-33 | parsing undoes `fkey` for every valid builder id and every non-empty name, slashes in the name included |
| Keys.FkeyOfParse | public/js/core/keys.js:25-38 | and whatever parses is the `fkey` of what it parses to |
| Keys.FkeyInjective | public/js/core/keys.js:18-33 | a fleet key names one builder and one local name |
| SessionIndex.SetAgrees | public/js/core/store.js:307-320 | filing a session under a key of its own and setting that key keeps the index the exact union of the builders' sessions |
| SessionIndex.RemoveAgrees | public/js/core/store.js:314-319 | dropping a session and its key keeps it so |
| SessionIndex.AgreeUnique | public/js/core/store.js:307-312 | the builders alone decide the index: two indexes that agree with them are equal |
| SessionIndex.KeysApart | public/js/core/store.js:146-154 | no two sessions share a key: by fleet keys always, by names when one builder holds them all |
| SessionIndex.IndexByFkey | public/js/core/store.js:146-178 | by fleet keys a key is in the index exactly when it names a builder and a session that builder holds, and gives that session |
| SessionIndex.NameModeAgrees | public/js/core/store.js:307-312 | an index by name agrees with the builders when no name has two sessions |
| SessionIndex.NameModeOnlyThen | public/js/core/store.js:307-312 | and only then: with two sessions of one name no index by name agrees |
| StoreLaws.DeltaWithinCap | public/js/core/store.js:362-388 | after every delta a builder holds at most 500 sessions, though its upserts may pass the cap until the removals |
| StoreLaws.UpsertsMayPassTheCap | public/js/core/store.js:369-379 | a full record with one name about to leave is over the cap between the upserts and the removals |
| StoreLaws.SnapshotHeld | public/js/core/store.js:346-359 | a snapshot leaves a record within every cap, every session stamped and filed under its own name |
| StoreLaws.DeltaHeld | public/js/core/store.js:362-388 | so does a delta |
| StoreLaws.ScopedWellHeld | public/js/core/store.js:505-550 | so does every builder-scoped message |
| StoreLaws.OtherLeavesAlone | public/js/core/store.js:509-548 | an event, a health frame, an approval and repos leave sessions, lanes, attention and status alone |
| StoreLaws.EventRate | public/js/core/store.js:497-503 | for a clock that never goes back a window accepts at most 40 of any events in any half-open second |
| StoreLaws.OfferSpaced | public/js/core/store.js:497-503 | accepted events come in windows of at most 20, each window starting a second or more after the last |
| StoreRate.OnlyEventsAsk | public/js/core/store.js:497-550 | only an event asks the window; every other builder-scoped message leaves it as it is and accepts nothing |
| StoreRate.WindowStep | public/js/core/store.js:391-550 | of everything that can happen to the store only an event of the builder asks its window, and is accepted exactly when the window lets it; fleet rows, hellos, statuses and other builders' messages leave the window of a record that stays as it is |
| StoreRate.RecordRate | public/js/core/store.js:497-503 | over any run of the store from no records, at most 40 events were accepted in any half-open second of every record it holds, counted from when that record was made |
| StoreRate.BuilderRate | public/js/core/store.js:497-503 | of one builder at most 40 are accepted in any half-open second, and 20 more for every record of it that was made in that second |
| StoreRate.RateIff | public/js/core/store.js:403-503 | this is exact: a number bounds the events accepted in a second with k records made, over all runs of a new store with a clock that counts from 0, exactly when it is at least 40 + 20·k |
| StoreRate.FortyIff | public/js/core/store.js:403-503 | so 40 a second hold for a builder exactly for the seconds in which no record of it is made |
| StoreRate.RushShows | public/js/core/store.js:391-503 | the messages that come up to it: a hub that lists a builder, 20 events at 999 and 20 at 1000, then k times fleet rows without it, with it, and 20 events |
| StoreLaws.RoutingFieldsIgnored | public/js/core/store.js:216-270 | a builder-scoped message does exactly what it does with every nested `key`, `laneKey`, `builder` and `fkey` removed: same record, same answer |
| StoreRun.MessageErased | public/js/core/store.js:467-550 | one message of any type, its nested routing fields removed, leaves the same records and source and is answered the same |
| StoreRun.RunErased | public/js/core/store.js:209-550 | so does a whole run of messages and switches |
| StoreRun.IndexErased | public/js/core/store.js:307-320 | and an index that agrees with the builders after the one run is the index that agrees after the other |
| StoreModes.FrameBuilderIgnored | public/js/core/store.js:209-214 | on a local source the builder a scoped frame claims changes neither its route nor its effect |
| StoreModes.OthersKeepTheirEntries | public/js/core/store.js:505-550 | by fleet keys a change of one builder's record leaves the index the same under every key that does not name it |
| StoreModes.OneLocalBuilder | public/js/core/store.js:391-439 | a local source that holds no builder but its own keeps it so exactly when it gets no fleet rows for another one |
| StoreRun.RunOwn | public/js/core/store.js:391-572 | over any run a local source never holds a builder but its own exactly when no fleet rows bring it another and no switch to local finds a hub's builders |
| StoreModes.LocalSourceTwoBuilders | public/js/core/store.js:391-418 | a `fleet` message is not refused on a local source: two rows give it two builders |
| StoreModes.NameConvBack | public/js/core/store.js:578-594 | a local name survives the move to fleet keys and back exactly when it does not read as a fleet key itself |
| StoreModes.FkeyConvBack | public/js/core/store.js:578-594 | a fleet key survives the move to names and back exactly when it is the local builder's and its name is no fleet key |
| StoreModes.ConvFinds | public/js/core/store.js:578-594 | a cursor or pin on a local session finds the same session after the key mode changed |
| StoreModes.RebuiltByName | public/js/core/store.js:307-312 | a rebuilt index by name agrees with the builders exactly when no name has two sessions |
| StoreDerived.AttentionIsSorted | public/js/core/store.js:271-303 | the attention list is a permutation of every builder's entries, live first, then by score, time and builder |
| StableSort.SortedIsStable | public/js/core/store.js:295 | entries that tie keep the order in which they were merged |
| FleetStore.FleetStore.constructor | public/js/core/store.js:68-100 | a new store is empty and in order |
| FleetStore.FleetStore.DropIndexOf | public/js/core/store.js:314-319 | exactly the builder's own entries leave the index |
| FleetStore.FleetStore.Derive | public/js/core/store.js:286-303 | `lanes` and `attention` are derived from all builders in the order they came |
| FleetStore.FleetStore.ApplySnapshot | public/js/core/store.js:346-359 | a snapshot replaces one record by what the message says and keeps index and derived lists right |
| FleetStore.FleetStore.ApplyDelta | public/js/core/store.js:362-388 | a delta does the same with its upserts first and its removals after, and names what it set |
| FleetStore.FleetStore.ApplyStuck | public/js/core/store.js:527-538 | a stuck flag changes one session in the record and in the index alike |
| FleetStore.FleetStore.ApplyBuilders | public/js/core/store.js:391-418 | the fleet rows leave exactly the listed builders, each with its first row's info, and drop the others from the index |
| FleetStore.FleetStore.ApplyHello | public/js/core/store.js:420-439 | a local source's hello leaves exactly its own builder; on a hub it is ignored |
| FleetStore.FleetStore.SetSourceStatus | public/js/core/store.js:562-572 | a local source's builders mirror the connection's status and the lists are derived again |
| FleetStore.FleetStore.Reindex | public/js/core/store.js:307-312 | the index rebuilt from nothing: exact by fleet keys, some session of every name by names |
| FleetStore.FleetStore.SetKeyMode | public/js/core/store.js:578-594 | cursor, open session and pins are converted, the lane filter cleared, the index rebuilt; by names it agrees exactly when no name has two sessions |
| FleetStore.FleetStore.SetSourceKind | public/js/core/store.js:553-559 | a hub forgets the local builder and keys by fleet key; the local id is forgotten first, so pins move under the fallback id |
| FleetStore.FleetStore.IngestScoped | public/js/core/store.js:505-550 | a builder-scoped message has its effect on its own record and nothing else changes |
| FleetStore.FleetStore.Ingest | public/js/core/store.js:467-494 | one message of any type: which builders there are after it, what its builder's record is, what other builders' index entries keep |
| FleetStore.FleetStore.Do | public/js/core/store.js:467-594 | one thing of any kind that happens leaves source and records as the step says, in order, and gives the step's answer |
| FleetStore.FleetStore.Run | public/js/core/store.js:467-594 | after any run of messages, source switches, status changes and moves between key modes (to names only when no other builder holds a session) the index is the exact union of the builders' sessions, the derived lists are right, every builder holds at most 500 sessions; source and records are the run's, and of the events the run itself accepted, read off its answers, at most 40 a second are of one record and at most 40 + 20 for each record made of one builder |
| FleetStore.FleetStore.ToNameKeys | public/js/core/store.js:578-594 | a move to key mode `name` is taken exactly by a local source whose other builders hold no session, and keeps the index exact |
| Source.Source.Message | public/js/core/net.js:77-107 | one frame of a connection: held, dropped, handed on, or the one that names the kind, after which the held ones follow in order |
| Source.NoClaimBeforeKind | public/js/core/net.js:87-94 | until `hello` or `fleet` came no frame that claims a builder is handed to the store |
| Source.NoneIsLost | public/js/core/net.js:48-107 | every frame is handed on, held, or counted as dropped |
| FuzzySpec.AlignsIffSubsequence | public/js/ui/fuzzy.js:5-11 | there is an alignment exactly when the query is a subsequence of the text |
| FuzzySpec.PathAligns | public/js/ui/fuzzy.js:32-36 | the back pointers of a full cell lead through an alignment whose score is the cell |
| FuzzySpec.CellIsBest | public/js/ui/fuzzy.js:32-36 | no alignment that ends in a column scores more than its cell, and an empty cell has none |
| FuzzySpec.LastRowIsMaximum | public/js/ui/fuzzy.js:86-91 | the greatest cell of the last row is the maximum over all alignments |
| Fuzzy.CellStep | public/js/ui/fuzzy.js:55-72 | choosing between the adjacent predecessor and the running maximum gives the best way through any predecessor |
| Fuzzy.RunStep | public/js/ui/fuzzy.js:53-60 | `run` is exactly the best gapped predecessor so far and `runAt` the first column that has it |
| Fuzzy.FillRow | public/js/ui/fuzzy.js:49-79 | one row of the table is right, cell by cell, scores and back pointers |
| Fuzzy.Align | public/js/ui/fuzzy.js:38-84 | the whole table of the clipped query and text is right, or there is none because the query is longer |
| Fuzzy.BestEnd | public/js/ui/fuzzy.js:87-92 | the first of the greatest cells of the last row, or none |
| Fuzzy.FuzzyScore | public/js/ui/fuzzy.js:94-100 | null exactly when the clipped query is no subsequence, else the maximum over all alignments of +8 per word start, +5 per adjacent pair, +1 per exact case, −1 per skipped inner character |
| Fuzzy.Merge | public/js/ui/fuzzy.js:113-118 | increasing positions become sorted, disjoint, non-touching ranges that cover exactly them |
| Fuzzy.Trace | public/js/ui/fuzzy.js:108-112 | following the back pointers collects the path of the best cell |
| Fuzzy.FuzzyRanges | public/js/ui/fuzzy.js:102-120 | the ranges are sorted, disjoint and non-touching and are the positions of an alignment with the greatest score |
| Palette.MarkPieces | public/js/ui/palette.js:338-350 | for any ranges the pieces concatenate back to the text, none is empty unless the text is, and exactly the usable ranges are hits |
| Palette.MarkMatch | public/js/ui/palette.js:338-350 | on the ranges of a match the hit pieces spell the query up to case |
| Palette.CoverTheQuery | public/js/ui/fuzzy.js:102-120 | a match's ranges cover exactly as many characters as the query has |
| PaletteRank.RankItems | public/js/ui/fuzzy.js:147-171 | exactly the matching items of the wanted kind are ranked, by score, recency and given order, and no item left out by the cap is better than one listed |
| PaletteRank.ScoreItem | public/js/ui/fuzzy.js:162-168 | an item's score is its label's, or ten less than its sub-label's |
| PaletteRank.ScoreIsOne | public/js/ui/fuzzy.js:94-100 | a query and a text have one score |
| TurnTools.AddCallSound | public/js/cockpit/turns.js:361-381 | a call with an index of its own leaves every call in exactly one line, the one its record names, and every longer line ascending, of one read-only tool, without a refused call |
| TurnTools.ToolEndSound | public/js/cockpit/turns.js:585-604 | so does the end of a call, refused or not |
| TurnTools.RefusedIsAlone | public/js/cockpit/turns.js:579-597 | a refused call is alone in its line |
| TurnTools.SplitParts | public/js/cockpit/turns.js:585-597 | a split keeps every call once, and the line keeps its first call |
| TurnRuns.LinesAreMaximalRuns | public/js/cockpit/turns.js:397-400 | a reload, which adds the calls in ascending order, draws exactly the maximal runs of calls that fold |
| TurnRuns.MaximalUnique | public/js/core/tool-words.js:129-141 | a list has one partition into maximal runs |
| TurnRuns.LinesAreUnique | public/js/cockpit/turns.js:397-400 | so the lines of a reload are decided by the calls alone |
| TurnRuns.LateRefusalDiffers | public/js/cockpit/turns.js:579-597 | a refusal learned live can leave another partition than a reload that already knows it |
| TurnLines.LiveLines | public/js/cockpit/turns.js:555-604 | over any live run from a turn without calls, ends, deltas, prompts, retries and STOP in between: when counted starts ascend and no call is refused, the lines are exactly the maximal runs of consecutive calls of one read-only tool, and the very lines a reload of the same calls draws |
| TurnLines.RunCanonicalIff | public/js/cockpit/turns.js:555-604 | over any run from canonical lines, refusals included, the lines are canonical after every message exactly when no counted start comes before a call that folds onto it and every counted refusal hits the first or last call of its line |
| TurnLines.LiveIsReload | public/js/cockpit/turns.js:397-400 | after such a run the page shows the same set of lines as a reload of its calls |
| TurnLines.AddCallCanonical | public/js/cockpit/turns.js:361-381 | a new call keeps the lines canonical exactly when no call that is there already folds onto it |
| TurnLines.ToolEndCanonical | public/js/cockpit/turns.js:585-604 | an end keeps the lines canonical exactly when the call, if it is refused, is the first or last of its line and, if not, takes back no earlier refusal beside a call it would fold with |
| TurnLines.LateRefusalIff | public/js/cockpit/turns.js:579-597 | a refusal learned live leaves the lines that a reload knowing it draws exactly when the call was not strictly inside its line |
| TurnLines.CanonicalUnique | public/js/core/tool-words.js:129-141 | the calls alone decide the canonical lines, in whatever order the lines were made |
| TurnLines.ReloadIff | public/js/cockpit/turns.js:397-400 | the lines on the page are, as a set, the reload's exactly when they are canonical |
| TurnReply.InsertShows | public/js/cockpit/turns.js:336-341 | inserting before the node of the next higher key, or before the retry row, is inserting in key order |
| TurnReply.LeastAbove | public/js/cockpit/turns.js:338-339 | the next higher key among the placed ones |
| TurnReply.PlacedAdd | public/js/cockpit/turns.js:336-341 | a node with a key of its own is placed once and in order among the others |
| TurnReply.DropShows | public/js/cockpit/turns.js:522-529 | removing a node's keys and the node leaves the others as they were |
| TurnSpec.TakeKeyBetween | public/js/cockpit/turns.js:515-519 | a taken prompt's key lies strictly between the block before its own and its own, for fewer than 500 000 takes |
| TurnSpec.TakeKeyOrder | public/js/cockpit/turns.js:515-519 | keys order prompts by block, then by take, and two takes never share one |
| TurnLaws.StepSound | public/js/cockpit/turns.js:336-622 | every message that fits keeps the reply's children exactly the placed nodes in strictly increasing key order and the tool lines right |
| TurnLaws.EverythingStands | public/js/cockpit/turns.js:336-356 | every text block, tool line and taken prompt stands in the reply exactly once, and nothing else |
| TurnLaws.PromptStandsBetween | public/js/cockpit/turns.js:515-519 | a taken prompt stands after every block and line before its block and before all others |
| TurnLaws.PromptsInTakeOrder | public/js/cockpit/turns.js:233 | prompts taken at one block stand in the order they were taken |
| TurnLaws.FrozenStays | public/js/cockpit/turns.js:559-622 | after STOP no message of any run changes a block's text or a call |
| TurnLaws.EndedStep | public/js/cockpit/turns.js:559-578 | after the turn's end no delta and no new call counts |
| TurnView.TurnView.Place | public/js/cockpit/turns.js:337-341 | the map of placed nodes and the children stay the items in key order |
| TurnView.TurnView.BlockOf | public/js/cockpit/turns.js:344-354 | a block is made and placed on its first use |
| TurnView.TurnView.Delta | public/js/cockpit/turns.js:559-565 | a delta appends to its block, removes the retry row and moves the cursor, unless the turn ended or is frozen |
| TurnView.TurnView.Block | public/js/cockpit/turns.js:567-574 | a whole block replaces its text unless the turn is frozen |
| TurnView.TurnView.AddCall | public/js/cockpit/turns.js:361-381 | a call joins the first line it may join or starts a line at its own place; a known call is ignored |
| TurnView.TurnView.ToolEnd | public/js/cockpit/turns.js:585-604 | a refused call in company leaves its line, or the calls after it do when it was the first, and the records follow |
| TurnView.TurnView.Retrying | public/js/cockpit/turns.js:452-458 | the retry row stands last |
| TurnView.TurnView.TakePrompt | public/js/cockpit/turns.js:515-541 | a queued prompt leaves the queue for its place and the answer says whether it is this turn's; one applied already stays |
| TurnView.TurnView.RemovePrompt | public/js/cockpit/turns.js:522-529 | a removed prompt leaves queue, keys and children |
| TurnView.TurnView.End | public/js/cockpit/turns.js:606-617 | every block is done, the retry row and the cursor go |
| TurnView.TurnView.Run | public/js/cockpit/turns.js:336-622 | after any run of messages that fit the page shows what the messages say |
| TurnView.TurnView.LoadCalls | public/js/cockpit/turns.js:397-400 | a snapshot's calls are drawn as the canonical lines |
| PromptLaws.StepNoHang | public/js/cockpit/pane.js:521-806 | every event keeps each sending prompt with a pending timer, or a null wait while the link is not live |
| PromptLaws.RunNoHang | public/js/cockpit/pane.js:590-668 | so in every reachable state no prompt hangs in SENDING |
| PromptLaws.TimerEndsTheWait | public/js/cockpit/pane.js:626-634 | on a live link the prompt's own timer is pending and ends the wait |
| PromptLaws.NoneIsLost | public/js/cockpit/pane.js:640-668 | a prompt leaves SENDING only because the room had it, or to read NOT SENT with its block kept |
| PromptLaws.StepClean | public/js/cockpit/pane.js:640-645 | no timer outlives its wait exactly as long as no refusal or error hits a prompt whose timer runs |
| PromptLaws.EarlyIsNotItsOwn | public/js/cockpit/pane.js:626-645 | a timer that marks a prompt NOT SENT before its 5 s are over is one left behind by an earlier send |
| PromptLaws.NeverEarly | public/js/cockpit/pane.js:626-634 | in a run without such a refusal every prompt gets its whole 5 s |
| PromptLaws.EarlyIff | public/js/cockpit/pane.js:626-645 | after a run without such a refusal, one more event opens the way for some prompt to be marked NOT SENT before its 5 s, in a run that goes on without another, exactly when it is the refusal of a prompt whose timer runs |
| PromptLaws.RetryEarlyIff | public/js/cockpit/pane.js:640-645 | after such a refusal the old timer can end the retry's wait before its 5 s exactly when it had been running when RETRY was tapped |
| PromptLaws.RetryMarkedEarly | public/js/cockpit/pane.js:640-645 | refused at 1 s, retried at 2 s, NOT SENT at 5 s: the first send's timer ends the second send's wait |
| PanePrompts.PanePrompts.On | public/js/cockpit/pane.js:521-806 | the maps after any tap, timer, message or change of the link, handled in place, are the transition's, and no prompt hangs |
| PanePrompts.Run | public/js/cockpit/pane.js:521-806 | a page driven by any run ends in the state the run results speak of, every sending prompt with a pending timer or, while the link is not live, a null wait |
| TranscriptSpec.RunWindow | public/js/core/transcript-rows.js:148-200 | with one `keep` throughout, after any run of faithful pages the rows held are a contiguous part of the log of at most `keep` rows, even after a cut through one line's rows |
| TranscriptSpec.NewerWindow | public/js/core/transcript-rows.js:179-200 | a faithful newer page extends the window to its end |
| TranscriptSpec.OlderWindow | public/js/core/transcript-rows.js:176-200 | a faithful older page extends it to its start, or a full window stays as it is |
| TranscriptSpec.MergeTwice | public/js/core/transcript-rows.js:155-189 | merging the same page again changes nothing, when every offset is one and nothing was dropped |
| TranscriptSpec.OlderContiguousIff | public/js/core/transcript-rows.js:176-200 | an older page leaves the rows contiguous exactly when it is empty, the window starts at a line, or the window is full |
| TranscriptSpec.OlderButtonGap | public/js/views/peek.js:338-339 | the older button grows `keep` past what is held, so on a window that was cut inside a line it leaves a gap |
| TranscriptGap.GapReached | public/js/views/peek.js:290-339 | such a window is reached: the tail page, eight polls and one tap on the older button, every page faithful and of at most 50 rows, show rows that are no part of the transcript |
| Transcript.KeyRows | public/js/core/transcript-rows.js:159-168 | each row's key is its offset, its role and how many rows before it share both |
| Transcript.Dedup | public/js/core/transcript-rows.js:183-189 | the set of seen keys keeps exactly the rows that the first list does not hold already |
| Transcript.MergeTail | public/js/core/transcript-rows.js:148-200 | rows, offsets, `hasOlder` and `dropped` after one response of any direction, a reset included |
| Samples.MergeSamples | public/js/views/box.js:264-270 | the map and the sort give the samples put one by one at their times, the newest 60 |
| Samples.MergedIs | public/js/views/box.js:264-270 | times strictly rise, at most 60 samples, each the last written at its time, and newer than every one cut |
| Samples.TruncationCommutes | public/js/views/box.js:264-282 | merging capped histories again and again keeps exactly what one big merge would |
| Percent.DecodeEncode | public/js/core/router.js:61-63 | decoding undoes encoding for every string that can be encoded, over UTF-16 and UTF-8 |
| Percent.EncodesIffWellFormed | public/js/core/router.js:152-153 | encoding throws exactly on a surrogate out of its pair |
| Percent.EncodedIsPlain | public/js/core/router.js:152-153 | no `+`, `&`, `=`, `?` or `/` is left raw in an encoded value |
| RouteLaws.GetField | public/js/core/router.js:71-83 | every field of a formatted query is read back as it was said |
| RouteLaws.ParseOfFormat | public/js/core/router.js:99-157 | parsing a formatted route gives its view and every field that fits its parameter, and never a miss |
| RouteLaws.HashRoundTrip | public/js/core/router.js:90-157 | every canonical route is what its hash parses to |
| RouteLaws.EveryHashParses | public/js/core/router.js:99-136 | any hash parses to a route whose view is routable and whose values fit, but for the length of a legacy `sel` |
| RouteLaws.ReparseIff | public/js/core/router.js:90-157 | formatting and parsing the route of any hash gives it back, `b=all` as null, exactly when its q and sel have no split surrogate pair and its sel is at most 300 long |
| RouteLaws.LongSessionNameIsLost | public/js/core/router.js:101-109 | a legacy `#session=` link with a long name selects a session that its own hash does not select again |
| RouteLaws.CutPairThrows | public/js/core/router.js:126 | a route whose q was cut at 200 units inside a surrogate pair cannot be formatted |
| RouteLaws.SearchAgainIff | public/js/core/router.js:126 | a link that searches for q formats, parses to q cut at 200 units, and that route cannot be formatted exactly when the cut splits a pair |
| RouteLaws.CutPairHash | public/js/core/router.js:126-157 | 199 letters and one character beyond the basic plane: a hash that formats and whose parsed route does not |
| Router.ParseQuery | public/js/core/router.js:71-83 | each key has the value of the first of its parts that decodes |
| Router.ResolveHash | public/js/core/router.js:99-136 | the route of any hash, legacy forms and run paths included, and whether it missed |
| Router.FormatHash | public/js/core/router.js:146-157 | the parts in their stable order, defaults left out |
| Inline.Inline | public/js/core/md.js:73-122 | the scanner that stops looking for closers it did not find returns exactly the runs of the scanner that looks again at every character |
| Inline.MarkupAt | public/js/core/md.js:84-116 | at one character: with the flags as without them, and what the flags say stays true |
| Inline.LinkEndLater | public/js/core/md.js:93-98 | a link's end that is not ahead now is not ahead later |
| Inline.SplitConcatenates | public/js/core/md.js:48-60 | splitting at marks concatenates back to the string: texts without marks, never empty, never two in a row |
| Inline.SplitMarks | public/js/core/md.js:48-60 | the loop is that splitting |
| Highlight.Tokenize | public/js/core/hl.js:115-176 | for every language table the scan ends, tokens are non-empty, neighbours differ in kind, they concatenate to the line, and every character has the kind the reference gives it |
| Highlight.ScanAt | public/js/core/hl.js:134-171 | one step of the scan takes the branch the reference takes and ends past its start |
| Highlight.FindStringEnd | public/js/core/hl.js:98-108 | the string's end: the first quote no backslash takes, or the line's end, also when the last backslash reaches past it |
| Highlight.TokensUnique | public/js/core/hl.js:122-127 | line and kinds decide the tokens |
| BroadcastPlan.PlanBroadcast | public/js/core/broadcast-plan.js:89-106 | every considered target is planned or skipped with the first reason that applies |
| BroadcastPlan.PlanIsSound | public/js/core/broadcast-plan.js:89-106 | as many verdicts as targets up to 30, no lane twice, exactly the sendable ones, and planning the planned lanes again skips nothing |
| BroadcastPlan.PlanInOrder | public/js/core/broadcast-plan.js:84-106 | the planned lanes are first places of targets, in their order |
| BroadcastPlan.ConfirmIsCount | public/js/core/broadcast-plan.js:147-152 | a typed count confirms a plan exactly when it is the number of lanes that can be sent to and not 0; planning the planned lanes again confirms the same counts |
| BroadcastRound.SendBroadcast | public/js/ui/broadcast.js:171-200 | against any hub and any user: at most four posts, the first without a plan hash, each later one with exactly the hash of the 409 just before and the count confirmed for it, and the outcome the last answer says |
| BroadcastRound.DoneWasConfirmed | public/js/ui/broadcast.js:163-200 | a call that is done after a plan was asked for was confirmed by the user on the plan whose hash it carried |
| Shell.QuoteReadsBack | public/js/core/review-format.js:48-50 | a reader of shell words reads any quoted string back as that one word |
| Shell.LineReads | public/js/core/review-format.js:231-254 | a line of plain and quoted words reads as the words that were meant |
| Shell.PullCommands | public/js/core/review-format.js:231-254 | each command is its words separated by blanks; none when a check failed |
| Shell.CommandsRead | public/js/core/review-format.js:231-254 | whatever repo, branch, lane and CI repo hold, every command splits into the intended words |
| Shell.WorktreeCommandWords | public/js/core/review-format.js:240-249 | a shell reads the worktree command as exactly the words meant, directory and refs one argument each whatever they hold: a local branch is added as it is, any other fetched first and tracked |
| Shell.PrCommandWords | public/js/core/review-format.js:232-252 | there is a second command exactly for a PR in a known repository, and a shell reads it as checking that PR out there |
| LaneMix.CountLanes | public/js/ui/components.js:194-208 | one pass counts every bucket, the troubled and the calm lanes and the worst trouble |
| LaneMix.MixAdds | public/js/ui/rail.js:230-234 | the mix of two lists together is the sum of their mixes |
| LaneMix.RailTotal | public/js/ui/rail.js:242-254 | the ALL row's mix is the mix of every builder's lanes |
| LaneMix.SegsSumToTotal | public/js/ui/components.js:295-303 | the bar's segments always add up to the number of lanes |
| RoomServer.OpensAndCatchesUp | server/cockpit/link.mjs:400-440 | the hello that a link writes on an open socket asks for what it lacks, and the room's answer to that very hello brings it to `live` and to the room's last message |
| LinkShown.StatusLaw | public/js/cockpit/link.js:126-213 | over every event the status becomes `live` exactly on a replay welcome of a drawn link or a whole snapshot, `room-down` and `unpaired` exactly on the closes and timers that say so, and else stays |
| LinkShown.SinceLaw | public/js/cockpit/link.js:113-228 | the date shown with it: none once back, the grace's own date, the load for a page that never drew |
| LinkShown.RefusedLaw | public/js/cockpit/link.js:125-204 | a refusal is shown from its close until a welcome |
| LinkShown.LossLaw | public/js/cockpit/link.js:125-228 | a loss is dated at its first moment, starts the grace unless the room is down already, and ends with a welcome |
| LinkShown.BackForGood | public/js/cockpit/link.js:125-181 | over runs: a link welcomed with a replay while drawn, or given a whole snapshot, reads `live` with no loss shown for as long as it keeps that socket |
| LinkShown.RetryDelays | public/js/cockpit/link.js:203-235 | after every loss a try is pending and shown in exactly its delay; 30 s after 4503 and 4429 |
| LinkShown.TriesAgain | public/js/cockpit/link.js:69-90 | a try that comes due, or RETRY NOW, makes the next socket and is shown as being tried |
| LinkShown.RunShowsTry | public/js/cockpit/link.js:69-235 | in every reachable state a try is shown only while one is pending, and as being tried only on a socket |
| LinkShown.HelloLaw | public/js/cockpit/link.js:91-98 | the hello carries the epoch and last number exactly when both are known, so a link that left on a gap asks for a snapshot |
| LinkShown.WelcomedLaw | public/js/cockpit/link.js:69-128 | a link is welcomed exactly from a welcome until it moves to another socket |
| LinkShown.SilenceLaw | public/js/cockpit/link.js:112-123 | the silence is timed exactly from an open or a frame until a close, a stop or its own end |
| StoreContent.StampLaw | public/js/core/store.js:216-253 | what a builder's entry is filed as: its routing fields the frame's own, every other field as sent; an entry without a valid name is none |
| StoreContent.FillLaw | public/js/core/store.js:346-379 | filling a map by name with room for so many: who is held, and that each holds its last entry, or what it had when the list has none |
| StoreContent.DeltaSessionsLaw | public/js/core/store.js:362-388 | after a delta a name is held exactly when it is not removed and was held or found room, and has its last entry of the list, or the old session without one; nothing else is there |
| StoreContent.SnapshotSessionsLaw | public/js/core/store.js:346-359 | the same after a snapshot, from nothing |
| StoreContent.OtherSessionsLaw | public/js/core/store.js:505-550 | every other message leaves the sessions, but a `stuck` one that sets that one field of the named session |
| StoreContent.DeltaReportLaw | public/js/core/store.js:362-388 | a delta names the entries it set one by one in their order, and counts exactly the others as dropped |
| StoreContent.CountsLaw | public/js/core/store.js:259-359 | a snapshot loses nothing uncounted: sessions and approvals that are not held after it, and the lanes and attention entries behind the 200 it takes |
| StoreContent.DroppedLaw | public/js/core/store.js:509-548 | an event, approval or repository that finds no room is counted as dropped, and nothing else is by such a message |
| StoreContent.ListsLaw | public/js/core/store.js:259-326 | lanes and attention are the first 200 entries that count, in their order, when the message carries them, else as before |
| StoreContent.ApprovalsLaw | public/js/core/store.js:331-336 | which approvals are held after any message, and each one's content |
| StoreContent.ReposLaw | public/js/core/store.js:540-548 | the same of repositories |
| FleetContent.FleetRowsLaw | public/js/core/store.js:391-418 | after fleet rows exactly the named builders are held, each its old record, or a new one, told by its first row |
| FleetContent.OrderLaw | public/js/core/store.js:391-418 | new builders come behind the old ones, in the order of their first rows |
| FleetContent.HelloLaw | public/js/core/store.js:420-439 | a local hello leaves its builder alone in the store, told its code, mode and version; a hub's changes nothing |
| FleetContent.ScopedLaw | public/js/core/store.js:467-494 | any other message changes at most one builder's record: a local source's own whatever it says, or the one the hub stamped on it |
| FleetContent.AnswerLaw | public/js/core/store.js:467-494 | what the page is told of a message, and of which builder |
| FleetContent.ConnectionLaw | public/js/core/store.js:562-572 | a local source's builders read as its connection, a hub's as before |
| StoreDerived.LanesLaw | public/js/core/store.js:286-296 | every builder's lanes stand behind those of the builders before it, in its own order |
| StoreDerived.EntriesLaw | public/js/core/store.js:286-296 | so do the attention entries before sorting, each stale exactly when its builder is stale or down |
| StoreDerived.AttentionOrder | public/js/core/store.js:272-284 | no later entry is live before a stale one, scores more, began sooner, or is of a builder earlier in the dictionary, all before it alike |
| Source.EarlyLaw | public/js/core/net.js:84-107 | while no frame names the kind: where each unclaimed frame is handed on, and which 64 claimed ones are held |
| Source.KindLaw | public/js/core/net.js:84-107 | once one does: where every frame before, the frame itself, the held ones and every later frame stand in what is handed on |
| FuzzySpec.ScoreLaw | public/js/ui/fuzzy.js:66-97 | in closed form: 8 for each matched word start, 5 for each match right after the one before, 1 for each exact case, one off for each skipped character |
| PaletteRank.ListedLaw | public/js/ui/fuzzy.js:160-170 | of two listed items the first scores more, or as much and was used later, or stood first in the pool |
| PaletteRank.ItemScoreLaw | public/js/ui/fuzzy.js:161-168 | an item scores as its label, and only without a match there as its sub-label less ten |
| TurnHistory.RunTexts | public/js/cockpit/turns.js:344-573 | after any run from a new turn a block's text is that of its last whole block followed by the deltas for it since, in order, counting only what came before the end or STOP that cuts it off |
| TurnHistory.RunFlags | public/js/cockpit/turns.js:606-640 | a turn is ended or stopped after a run exactly when it was or a message said so |
| TurnHistory.RunCursor | public/js/cockpit/turns.js:384-573 | the cursor stands at the block of the last delta until that block is whole, or the end or STOP |
| TurnHistory.RunRetry | public/js/cockpit/turns.js:452-463 | the retry row shows exactly from a retry until text comes or the turn ends |
| TurnHistory.RunCalls | public/js/cockpit/turns.js:575-604 | a call is the one its first start said, with the end of its last end message, counting only messages that are not cut off |
| TurnHistory.PromptStep | public/js/cockpit/turns.js:492-551 | what each message makes of a prompt: queued, taken before its block as the next take, cancelled, or gone |
| TurnHistory.OutLaw | public/js/cockpit/turns.js:515-531 | who is taken or removed leaves the queue and the others in their order |
| TurnLaws.PartsInOrder | public/js/cockpit/turns.js:337-341 | blocks and lines stand in the order of their indices |
| TurnTools.FoldLaw | public/js/core/tool-words.js:134-141 | a call joins a line exactly when it comes right after its last call, neither was refused, and both are of one reading tool |
| PromptCauses.SendingLaw | public/js/cockpit/pane.js:590-806 | a prompt is SENDING after an event exactly when it was sent or retried, or was and none of the four causes came: its echo, a snapshot with it, its refusal, a pending timer of its id on a live link |
| PromptCauses.NotSentLaw | public/js/cockpit/pane.js:590-806 | and NOT SENT exactly when a refusal or its timer said so, or it was and nothing confirmed or took it away |
| PromptCauses.TimersLaw | public/js/cockpit/pane.js:521-668 | which timers run after each event, and since when |
| PromptCauses.EchoEndsIt | public/js/cockpit/pane.js:770-778 | after its echo a prompt is in none of the three maps and the timer its wait named is gone |
| PromptCauses.ConfirmedForGood | public/js/cockpit/pane.js:770-806 | over runs: a prompt that the room confirmed and nobody sends again is never SENDING, and never NOT SENT without another tab's refusal |
| TranscriptSpec.AnswerLaw | public/js/core/transcript-rows.js:148-200 | the rows after any answer, which are dropped, and the offsets, size and older flag by the side that was read |
| TranscriptSpec.NewLaw | public/js/core/transcript-rows.js:160-193 | a row of the second list is kept exactly when the first holds fewer rows of its offset and role than stand before it, or it has no offset; in order |
| RouteContent.GetLaw | public/js/core/router.js:69-82 | a key's value is that of the first part that gives it one, a part whose value does not decode giving none |
| RouteContent.PathLaw | public/js/core/router.js:116-141 | for any slashes around any path and any query: the view, the parameters that fit, the run, and whether it missed |
| RouteContent.BareLaw | public/js/core/router.js:110-114 | a hash that is no path: a view's name, home, or a miss |
| RouteContent.SessionLaw | public/js/core/router.js:101-109 | `#session=` opens exactly a session whose name a key can carry, and never misses |
| RouteContent.FormatLaw | public/js/core/router.js:149-161 | the text of any hash that is formatted: view and parameters in their order, defaults left out |
| RouteContent.EncodeLaw | public/js/core/router.js:155 | unreserved characters stand for themselves, every other ASCII character is a % and two upper-case digits |
| InlineLaws.CodeLaw | public/js/core/md.js:84-87 | code runs to the next back tick, exactly when one comes and not at once |
| InlineLaws.BoldLaw | public/js/core/md.js:88-91 | bold runs to the next two stars, and its texts and marks spell what stands between |
| InlineLaws.LinkLaw | public/js/core/md.js:92-105 | a link or image is exactly a label without `]`, its first `](` and the first `)` behind it |
| InlineLaws.UrlLaw | public/js/core/md.js:106-116 | a bare address is the longest run of address characters after its scheme, up to 2000, without its trailing punctuation |
| InlineLaws.NextRuns | public/js/core/md.js:82-119 | up to the first place where something starts the line is plain texts and marks that spell it; then come its runs, and the runs of the rest |
| HighlightLaws.StringEndFrom | public/js/core/hl.js:98-108 | a string ends after its first quote that no untaken backslash takes, or with the line |
| HighlightLaws.CommentLaw | public/js/core/hl.js:136-146 | a comment starts exactly at a block opener or a line opener in its place, and ends behind the next closer or with the line |
| HighlightLaws.WordLaw | public/js/core/hl.js:152-159 | a word is the maximal run, and a keyword exactly when the language has it |
| HighlightLaws.OtherLaw | public/js/core/hl.js:160-173 | what all other characters start, each to the end of its maximal run |
| BroadcastPlan.SentLaw | public/js/core/broadcast-plan.js:62-106 | a lane is planned exactly when it is one of the first 30 targets, a broadcast key, its builder up, its session known, working, done or idle, no shell, not paused, with no approval waiting and no dialog |
| BroadcastPlan.SkipLaw | public/js/core/broadcast-plan.js:62-106 | every other considered target is skipped in order, each with the first reason that stands against it by the session's own fields |
| BroadcastPlan.KeyLaw | public/js/core/broadcast-plan.js:37-54 | which keys are broadcast keys, by their characters |
| BroadcastRound.FollowsLaw | public/js/ui/broadcast.js:171-200 | a further post follows exactly a 409 that asks for a confirm with a plan and a hash of 64 digits, confirmed by the user, and carries that hash and that count |
| LaneMix.MixLaw | public/js/ui/components.js:174-208 | every count of the mix is the number of lanes whose own fields say so, and the worst trouble is one of theirs |
| LaneMix.BarLaw | public/js/ui/components.js:295-303 | the bar has one segment for each lamp with lanes, as long as they are many, red, amber, running, grey |

## Left out

- FleetStore.FleetStore.Run: a move to key mode `name` with sessions of other builders is not among its steps; what it leaves is stated by `FleetStore.FleetStore.SetKeyMode`.
- StoreDerived.AttentionIsSorted: a score or time that is not a number counts as 0; the source's subtraction would read a numeric string as its number.
- LinkSafety.BackoffSeries: delays are exact numbers, 500·1.8^k; their rounding in floating point is not modelled.
- Source.Source.Message: the held frames are handed on one after the other; a handler that closes or changes the socket meanwhile is not modelled.
- StoreRate.RateIff: times are milliseconds from 0 on, as the browser's clock gives them.
- FleetStore.FleetStore.Derive: only `lanes` and `attention` are kept derived; `box`, `vitals` and `generatedAt` are not, since an event or health frame that makes a second builder does not derive again.
- FleetStore.FleetStore.Ingest: the changed names of a delta stand for their index keys; `hub`, `aggregates`, `map`, `alarms`, `packages`, the extra fields of fleet rows and the listeners are plain copies and not modelled.
- Fuzzy.FuzzyScore: letters are lowered one by one and keep their number; characters whose lower case is longer or depends on its neighbours are not modelled.
- PaletteRank.RankItems: the prefix that picks a kind (`parsePrefix`) is an input.
- TurnSpec.TakeKeyBetween: keys are exact numbers; floating-point rounding is not modelled.
- TurnLaws.StepSound: a text block and a call never share an index, as the protocol says (docs/plans/cockpit/spec/protocols.md:459); the age, labels, error lines and the cursor's element are not modelled.
- PromptLaws.RunNoHang: the nodes of the blocks, the turn a confirmed prompt becomes and the header's state are not modelled.
- TranscriptSpec.RunWindow: pages are whole lines between their offsets, next to the window, as the server cuts them; the row texts (`rowFor`, `truncate`) are not modelled.
- Samples.MergeSamples: a sample that is no object or has no finite time is one without a time; fetching the history is not modelled.
- Router.ResolveHash: the words of a miss are not modelled, only that there is one; applying a route to the page is not either.
- Inline.Inline: white space, `trim` and a URL's host are parameters; blocks, tables and numeric cells of `parse` are not modelled.
- Highlight.Tokenize: the keyword tables are parameters.
- BroadcastPlan.PlanBroadcast: whether a preview shows a dialog is a flag of the session; the typed text's cleaning and the hash itself are not modelled.
- BroadcastRound.SendBroadcast: a hub's plan is read as its lanes and how many it skips; the preview is not.
- Shell.PullCommands: the allowlist checks of its inputs are one flag; the reader knows blanks, `&&`, backslashes and single quotes and refuses every other special character outside quotes.
- LaneMix.SegsSumToTotal: mixes without trouble counts (the health meters) are not modelled.
- Review text formatting, comment order, recent lists, `deriveCode` and `sanitizeId`: short string functions that would only add easy members.
- DOM building, styles, focus, scrolling, dialogs, motion, layout and everything drawn with `Intl` or the `URL` parser.
- The server, except the room's answer to a hello.
