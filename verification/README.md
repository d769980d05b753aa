# Cowboy: verified models

This project models four parts of Cowboy in Dafny and proves what they promise. Cowboy runs coding agents for several
clients; the modelled parts are the ones where a wrong step would be silent.

**The composition linker** (`contracts/composition-check.ts`, `contracts/strict-json.ts`). A composition is a text:
scopes that nest, nodes with ports, and bindings between ports. The text is parsed strictly, sorted, linked by loops
over string-keyed maps, ordered, divided among sites and printed canonically for a digest.
Files: `Strings`, `Orders`, `Results`, `Json`, `Lexer`, `Grammar`, `StrictJson`, `Canonical`, `Composition`, `Wire`,
`Weights`, `Graph`, `Scopes`, `Proposal`, `LinkSpec`, `Linker`, `Linking`, `Reordering`, `ErrorCodes`, `Faults`,
`Digest`, `Teardown`, `Sites`.
`Json` states RFC 8259 (sections 2 to 7) as concrete syntax trees and their texts; `StrictJson.Parser` is the cursor
parser; `LinkSpec` states what each loop computes and `Linking.Linkable` what a composition that links is, without order. `ErrorCodes.Complains`
says, without the functions that compute it, which code names the first thing wrong.

**The reconnecting bridge** (`src/acp_bridge.rs`). A bridge keeps a cache of each session, catches up after the daemon
connection was lost, and settles the prompts it submitted.
Files: `Transcript`, `Permissions`, `Paging`, `Cache`, `Reconnect`, `CacheRuns`, `PromptQueues`, `Bridge`, `PromptLaws`,
`PromptOutcomes`, `PromptCancels`.
`Reconnect.World` joins the daemon's log, the live stream, the cache and what the client received;
`PromptOutcomes.Earns` spells out which prompt each step settles, and with which outcome.

**The subagent fold and its projection** (`src/acp_subagents.rs`, `src/acp_bridge_subagents.rs`). The worker folds the
traffic of child sessions into bounded snapshots; the bridge turns complete snapshots back into deltas.
Files: `Texts`, `SubagentFold`, `Subagents`, `SubagentLaws`, `SubagentRuns`, `SubagentEvictions`, `SubagentTimers`,
`ChildHistory`, `ChildFields`, `ChildRuns`, `ChildClock`, `Words`, `Iteration`, `Projection`, `ProjectionLaws`, `ProjectionRuns`,
`ProjectionNotices`.
`ChildRuns.HistoryOf` lists everything that reached a child since it was announced; the `Child` files say what the
child and its snapshots show of such a list.

**The worker's prompts and configuration** (`src/acp.rs`). Prompt tasks under one lock with a cancellation generation,
and fences that hold a prompt until earlier configuration changes succeeded.
Files: `WorkerPrompts`, `WorkerHistory`, `WorkerRetries`, `ConfigFences`, `FenceHistory`, `PromptFences`, which runs the two side by side.
The two `History` files tie what a run published, and which fences opened, to the steps of the run alone.

Code that updates objects is modelled by classes and by methods with loops, each proved equal to a function of its
inputs or of the old state; the theorems are about those functions. Concurrent tasks are transition systems whose steps
are the pieces of the source between two points where another task can run.

Four promises do not hold as written. Each has a lemma with an input that fails, and the exact condition.

- A prompt can be sent while an earlier change of the mode is in flight: a mode change whose value is not a string
  replaces the fence of the change before it and is dropped at once, so the next mode change waits for nothing
  (`src/acp.rs:4378-4387`, `src/acp.rs:4940-4960`). `ConfigFences.ModeOvertaken` is such a run;
  `ConfigFences.OvertakesIff` gives the condition.
- A title, description, prompt or result of a subagent that a later snapshot no longer has stays at a standard client,
  because an absent label is left unchanged and an absent prompt or result is not sent
  (`src/acp_bridge_subagents.rs:289-298`, `src/acp_bridge_subagents.rs:302-331`). `ProjectionRuns.ClearedLabelsStay` is
  such a child; `ProjectionRuns.LabelsCurrentIff` gives the condition for each of the four.
- A message first projected without text never shows any, whatever it says later
  (`src/acp_bridge_subagents.rs:376-411`). `ProjectionRuns.EmptyStaysSilent` is such a message;
  `ProjectionRuns.DeltasRefine` says what the client shows in every case.
- Tearing down a scope leaves a composition that links, but the wire profile demands at least one node
  (`contracts/composition.generated.ts:407`). `Teardown.EmptiedByTeardown` is such a composition;
  `Teardown.TornDownProfile` gives the condition.

`dafny verify dfyconfig.toml` checks everything.

## Model

| member | source | states |
|---|---|---|
| Strings.CompareZero | contracts/composition-check.ts:69-71 | two strings compare equal exactly when they are equal |
| Strings.CompareTransitive | contracts/composition-check.ts:69-71 | the comparison of strings orders them |
| Strings.CompareBefore | contracts/composition-check.ts:69-71 | a string comes first exactly when it is a proper prefix, or has the smaller unit where the two first differ |
| Proposal.BindingsOrder | contracts/composition-check.ts:84-92 | bindings are ordered by consumer, provider and revision, the first that differs deciding |
| Proposal.SitesOrder | contracts/composition-check.ts:94-100 | services come before machines; then the service decides, then the machine |
| StrictJson.Parser.Space | contracts/strict-json.ts:9-11 | the cursor skips exactly the white space ahead |
| StrictJson.Parser.Scan | contracts/strict-json.ts:12-16 | the scan stops just after the quote that ends the string, or at the end |
| StrictJson.Parser.String | contracts/strict-json.ts:12-34 | a string token is read exactly when it is well formed, with its value, and the cursor advances past it |
| StrictJson.PairedSurrogates | contracts/strict-json.ts:23-29 | the loop accepts exactly the strings without an unpaired surrogate |
| StrictJson.Parser.Literal | contracts/strict-json.ts:69-81 | a literal is the longest token of the grammar; numbers beyond the safe range fail |
| StrictJson.Parser.Value | contracts/strict-json.ts:35-82 | one value is read, no deeper than the limit, and the cursor strictly advances |
| StrictJson.Parser.Elements | contracts/strict-json.ts:51-66 | the loop reads the elements of an array up to its bracket |
| StrictJson.Parser.Members | contracts/strict-json.ts:51-66 | the loop reads the members of an object, no key twice, up to its brace |
| StrictJson.Parser.Entry | contracts/strict-json.ts:53-57 | one member is read; a key already there fails |
| StrictJson.Parse | contracts/strict-json.ts:3-87 | the whole parser decides `Decode`: size test, value, end of input |
| StrictJson.DecodeIff | contracts/strict-json.ts:3-87 | a text is accepted with value v exactly when it is short enough and spells a JSON text of the grammar, with distinct keys, paired surrogates, bounded numbers and nesting, that denotes v |
| StrictJson.Utf8AtLeast | contracts/strict-json.ts:7 | the test on code units never rejects what the byte test accepts |
| Grammar.ValueSound | contracts/strict-json.ts:35-82 | what is parsed is a tree of the grammar, and its value |
| Grammar.ValueComplete | contracts/strict-json.ts:35-82 | every strict tree within the limits is parsed, to its value, whatever follows |
| Grammar.ParseTextIff | contracts/strict-json.ts:83-86 | exactly the strict texts are accepted, each with the value it denotes |
| Canonical.PrintParses | contracts/composition-check.ts:73-82 | parsing a printed value gives it back, exactly when it fits the depth and size limits |
| Canonical.CanonicalInjective | contracts/composition-check.ts:73-82 | two values print alike exactly when they are equal |
| Wire.LifetimeKeys | contracts/composition-check.ts:138-140 | equal keys of lifetimes mean equal lifetimes |
| Wire.SlotKeys | contracts/composition-check.ts:214-221 | equal keys of slots mean one site, plugin and generation |
| Wire.ReleaseKeys | contracts/composition-check.ts:215-219 | equal keys of releases mean equal releases |
| Wire.EdgeKeys | contracts/composition-check.ts:247-249 | equal keys of edges mean equal consumer and provider |
| Wire.ContractKeys | contracts/composition-check.ts:256-258 | equal keys of contracts mean equal contracts |
| Wire.PortKeys | contracts/composition-check.ts:268-274 | equal keys of ports mean one node and port |
| Wire.SiteKeys | contracts/composition-check.ts:296-299 | equal keys of sites mean equal sites |
| Scopes.Ancestry | contracts/composition-check.ts:120-132 | the walk up returns the chain of scopes, or which guard stopped it |
| Scopes.ChainWellKinded | contracts/composition-check.ts:124-130 | in a well-kinded tree a chain has at most five scopes, so no guard ever stops the walk |
| Scopes.ChainEncloses | contracts/composition-check.ts:120-132 | the chain of a scope is exactly the scopes that enclose it |
| Scopes.ValidateScopes | contracts/composition-check.ts:134-157 | the loop reports the first scope that does not fit, else the service |
| Scopes.ScopesOutcomeIff | contracts/composition-check.ts:134-157 | scopes are accepted exactly when they form one tree of distinct lifetimes whose kinds nest |
| ErrorCodes.ChainIs | contracts/composition-check.ts:120-132 | the walk ends at a missing scope exactly when one is met within 32 steps, and succeeds exactly when a service is met before; else it goes round or too far |
| ErrorCodes.ScopesOutcomeIs | contracts/composition-check.ts:134-157 | the scope phase answers with a code exactly when that code names what is wrong with the first scope that does not fit, or no service is there |
| Linker.CheckGeneration | contracts/composition-check.ts:209-221 | a plugin node is refused exactly when its slot already has another release |
| Linker.CheckPlacement | contracts/composition-check.ts:201-213 | placement is checked against the service and the machine on the chain |
| Linker.CheckOwner | contracts/composition-check.ts:222-233 | an owner is another node of the same site in an enclosing scope |
| Linker.CheckPorts | contracts/composition-check.ts:234-238 | port names are unique exactly when the sets of names are as large as the lists |
| Linker.LinkNodes | contracts/composition-check.ts:197-241 | the loop over nodes reports the first node that does not fit, else what each waits for; what each code says of that node is `ErrorCodes.CheckSays` |
| Linker.CheckBinding | contracts/composition-check.ts:250-267 | one binding fits, with whether it crosses sites, or the code of what is wrong |
| Linker.AddBinding | contracts/composition-check.ts:264-270 | a binding enters the edges, the counts, the remote list and the dependencies |
| Linker.LinkBindings | contracts/composition-check.ts:242-271 | the loop over bindings reports the first that does not fit, else all four accumulations |
| Linker.CheckCardinalities | contracts/composition-check.ts:272-281 | the counted bindings satisfy every cardinality |
| Linker.ProjectSites | contracts/composition-check.ts:293-300 | the map of sites, sorted, is the division of the order by site |
| Linker.LinkProposal | contracts/composition-check.ts:194-319 | the phases after the scopes, in their order |
| Linker.CheckComposition | contracts/composition-check.ts:168-320 | the linker's loops compute `LinkSpec.Check`: the report, or the first error in the order of the source, which `ErrorCodes.CheckSays` and `Faults.CodeBlames` spell out |
| Linking.OutcomeIff | contracts/composition-check.ts:192-292 | a sorted proposal is accepted exactly when it is linkable |
| Linking.OutcomeReports | contracts/composition-check.ts:282-319 | the report of an accepted proposal: the least topological order, its reverse, the sites, the remote bindings and the preimage |
| Reordering.CheckIff | contracts/composition-check.ts:168-292 | a composition is accepted if and only if it is linkable: one declarative predicate without any order |
| Reordering.LinkableForgets | contracts/composition-check.ts:180-191 | reordering keeps a composition linkable |
| Reordering.CheckForgetsOrder | contracts/composition-check.ts:180-193 | reordering scopes, nodes, ports and bindings changes neither the report nor the error code |
| ErrorCodes.CheckSays | contracts/composition-check.ts:168-292 | for every code: the checker answers with it exactly when it names the first thing wrong with the sorted composition, all earlier checks holding, in declarative predicates only |
| Faults.CodeBlames | contracts/composition-check.ts:168-292 | whatever the order of declaration, each code names a fault of the composition itself; a repeated node, a cardinality and a cycle are reported exactly when they are the first fault |
| Graph.DependencyOrder | contracts/composition-check.ts:282-292 | the loop that deletes ready nodes computes the greedy order, or fails on a cycle |
| Graph.FindReady | contracts/composition-check.ts:284-286 | the first node without open prerequisites, in map order |
| Graph.DeleteEverywhere | contracts/composition-check.ts:287-290 | a placed node is removed from every set of prerequisites |
| Graph.GreedyTopological | contracts/composition-check.ts:282-292 | the order lists every node once, each after all it waits for |
| Graph.GreedyLeast | contracts/composition-check.ts:284-291 | no topological order is lexicographically before it |
| Graph.TopologicalAcyclic | contracts/composition-check.ts:282-292 | a graph with a topological order has no cycle |
| Graph.StuckCycle | contracts/composition-check.ts:285-286 | when no node is ready the graph has a cycle |
| Graph.OrderCorrect | contracts/composition-check.ts:282-292 | the loop succeeds exactly on acyclic graphs, with the least topological order |
| Graph.ReverseTearsDown | contracts/composition-check.ts:315-316 | the reversed order puts every node before what it waits for |
| Sites.SitesCorrect | contracts/composition-check.ts:293-300 | the sites of the report are in order, one entry each, and divide the nodes among them in dependency order |
| Sites.RemoteCorrect | contracts/composition-check.ts:264-267 | the remote bindings are exactly those between nodes of different sites |
| Digest.CompositionJsonInjective | contracts/composition-check.ts:180-191 | two proposals of one canonical form are equal |
| Digest.PreimageInjective | contracts/composition-check.ts:301-303 | two proposals have one preimage exactly when they are equal |
| Digest.DigestIff | contracts/composition-check.ts:301-303 | two accepted compositions have one preimage exactly when they are equal up to order |
| Weights.CanonicalWeight | contracts/composition-check.ts:73-82 | the canonical text of a value without numbers is ASCII when the value is, and exactly as long as its weight |
| Weights.TreeHeavy | contracts/composition-check.ts:73-82 | no text of the grammar that denotes such a value is shorter than its canonical text |
| Digest.ProposedWeight | contracts/composition-check.ts:180-191 | sorting does not change the length of the canonical text |
| Digest.ProposalReadsBack | contracts/composition.generated.ts:419 | for every composition decoded from an accepted text, the digested text is accepted again and reads back as the sorted proposal |
| Teardown.PrerequisitesEnclose | contracts/composition-check.ts:224-263 | in an accepted composition all a node waits for lies in an enclosing scope |
| Teardown.TornDownLinks | contracts/composition-check.ts:120-281 | without the subtree of a scope the rest still links |
| Teardown.TornDownOrder | contracts/composition-check.ts:282-316 | and its dependency order is the old one without what went |
| Teardown.EmptiedByTeardown | contracts/composition.generated.ts:407 | a composition links whose only node is in the scope torn down: what is left has no node |
| Teardown.TornDownProfile | contracts/composition.generated.ts:403-412 | what is left keeps the profile's bounds on lists exactly when some node is outside the scope |
| Permissions.UnresolvedPermissionRequests | src/acp_bridge.rs:506-557 | the fold returns the requests that no later event ends |
| Permissions.UnendedIff | src/acp_bridge.rs:501-557 | a request is returned exactly when it was asked and no later event ends it |
| Permissions.EndsIff | src/acp_bridge.rs:501-557 | a request is over once its id is asked again or answered, its tool is done, its turn ended or its worker stopped |
| Permissions.SuffixAgrees | src/acp_bridge.rs:402-411 | folding only the missed part leaves the same requests of that part open as folding everything |
| Paging.FetchMissed | src/acp_bridge.rs:2189-2225 | the hydration is a tail of the log that holds everything after the position, unless 50 pages were fetched or the daemon has no older page |
| Paging.FetchHistory | src/acp_bridge.rs:1584-1623 | a successful load is the whole log; the errors say why not |
| Paging.PageBrings | src/core.rs:3076-3094 | a page joins the events already fetched without gap or overlap, and its cursor moves back |
| Cache.CachedSession.Apply | src/acp_bridge.rs:182-196 | a snapshot replaces the cached events; the position only moves forward |
| Cache.CachedSession.Live | src/acp_bridge.rs:2074-2107 | a live event is applied once, cached up to the limit, buffered while replaying, and forwarded otherwise |
| Cache.CachedSession.Begin | src/acp_bridge.rs:2166-2185 | a catch-up starts at the position the client had, and a second one keeps it |
| Cache.CachedSession.Complete | src/acp_bridge.rs:355-418 | the missed events, hydrated and buffered, in order, without answered requests; the cache adopts the hydration |
| Reconnect.FetchedHydrates | src/acp_bridge.rs:2189-2225 | what paging fetched, when nothing stopped it, is a hydration the protocol takes |
| Reconnect.AllMissedIs | src/acp_bridge.rs:368-401 | hydrated and buffered events together are the log from the position on, each once |
| Reconnect.DuplicateIff | src/acp_bridge.rs:2075-2086 | the duplicate test rejects exactly the events the hydration already covered |
| Reconnect.StepKeeps | src/acp_bridge.rs:2066-2185 | every append, delivery, loss, reconnect, hydration and completion keeps the invariant |
| Reconnect.ExactlyOnce | src/acp_bridge.rs:355-418 | in every run the client has received a stretch of the log from where it attached, each event once, but for requests already ended; only streamed events are missing |
| Reconnect.ReceivedIncreases | src/acp_bridge.rs:2071-2107 | what the client received is strictly increasing |
| CacheRuns.CacheIsStretch | src/acp_bridge.rs:2091-2103 | in every run, while no catch-up is open, the cached events are a stretch of the log that ends at the last event seen: a full cache drops its oldest |
| CacheRuns.GapMeanwhile | src/acp_bridge.rs:2074-2103 | during a catch-up the cache can miss an event appended while the daemon was lost |
| CacheRuns.LastDetailIs | src/acp_bridge.rs:185-193 | the detail a snapshot leaves is that of its last report of the worker, if it has one |
| CacheRuns.LiveStatus | src/acp_bridge.rs:2087-2097 | a new report of the worker becomes the status of the session, and no other event changes it |
| Bridge.BridgeState.RegisterPrompt | src/acp_bridge.rs:1253-1269 | a prompt joins the end of its session's queue under a new id |
| Bridge.BridgeState.FailPrompt | src/acp_bridge.rs:1271-1285 | exactly the named prompt fails |
| Bridge.BridgeState.FailRefused | src/acp_bridge.rs:2316-2341 | a refusal answers a deletion, else the first prompt not dispatched |
| Bridge.BridgeState.CancelPrompts | src/acp_bridge.rs:1287-1315 | every prompt is marked; the queued ones and whether a turn runs are reported |
| Bridge.BridgeState.MarkDispatched | src/acp_bridge.rs:422-433 | the echo marks its prompt started and tells whether it was cancelled before |
| Bridge.BridgeState.CorrelatePrompt | src/acp_bridge.rs:438-488 | one event settles at most one prompt: the cancelled one, or the started one when the turn ended; `PromptOutcomes.EventSettles` spells out which and how |
| Bridge.BridgeState.SettleIdlePrompt | src/acp_bridge.rs:339-349 | a started prompt of an idle session is settled, with the outcome `PromptOutcomes.IdleSettles` spells out |
| Bridge.BridgeState.HandleLiveEnvelope | src/acp_bridge.rs:2066-2128 | a live event changes cache and prompts together; a duplicate only marks |
| Bridge.BridgeState.CompleteCatchUp | src/acp_bridge.rs:355-418 | hydrated events are correlated in order, then an idle prompt is settled |
| Bridge.BridgeState.ApplySessionList | src/acp_bridge.rs:281-335 | listed sessions are adopted; deleted ones are released and their prompts settled |
| PromptLaws.CorrelateAccounted | src/acp_bridge.rs:438-488 | an event takes at most one prompt out of its queue and settles it |
| PromptLaws.DeleteAllAccounted | src/acp_bridge.rs:306-331 | deleting sessions settles exactly their prompts |
| PromptLaws.EveryPromptOnce | src/acp_bridge.rs:281-488 | over any run every registered prompt is pending in one queue or was settled once, never both, and no other |
| PromptLaws.OwnOutcome | src/acp_bridge.rs:464-472 | while no catch-up of the session breaks in, whatever lists arrive and whatever other sessions do, a turn end settles a prompt exactly when it is its own turn that ends, with that outcome |
| PromptOutcomes.EventSettles | src/acp_bridge.rs:438-498 | an event settles a prompt exactly when it withdraws it (cancelled), or ends the turn of the first dispatched one: with its own stop reason, normally when the session is seen running, cancelled when it exited, crashed or was interrupted |
| PromptOutcomes.IdleSettles | src/acp_bridge.rs:339-349 | after a catch-up the first started prompt is settled exactly when its session is listed as running (ended normally) or gone (cancelled) |
| PromptOutcomes.RefusalSettles | src/acp_bridge.rs:2316-2341 | a refusal fails, with its words, exactly the first prompt not dispatched, unless a deletion waits for an answer |
| PromptOutcomes.FailureSettles | src/acp_bridge.rs:1271-1285 | a failed command fails exactly its own prompt, with the words of the error |
| PromptOutcomes.DeletionSettles | src/acp_bridge.rs:306-331 | exactly the prompts of deleted sessions are settled: cancelled when the deletion was asked for, failed otherwise |
| PromptOutcomes.DeletedIff | src/acp_bridge.rs:281-314 | a session is deleted exactly when no open entry lists it and it is or was listed, or its deletion was asked for |
| PromptOutcomes.SessionsAfterList | src/acp_bridge.rs:281-335 | after a list exactly the sessions are kept that do not leave and are or were listed, or have a client |
| PromptOutcomes.EveryOutcomeEarned | src/acp_bridge.rs:281-498 | over any run, catch-ups included, the settlements are exactly those that some step earned: which prompt, and with which outcome |
| PromptOutcomes.OwnOutcomes | src/acp_bridge.rs:438-498 | while no catch-up of the session breaks in, every event of the session settles exactly the prompt it withdraws or the one whose turn it ends, with the outcome of that event |
| PromptCancels.FlagsAreTold | src/acp_bridge.rs:1287-1315 | in every run a waiting prompt is marked cancelled exactly when its session was cancelled after it was registered |
| PromptCancels.CancelRouted | src/acp_bridge.rs:422-433 | when a prompt is dispatched its turn is to be stopped exactly when the session was cancelled since the prompt was registered |
| Texts.TextBuffer.AppendText | src/acp_subagents.rs:68-85 | text is kept up to the limit, cut at a character boundary and marked; says whether anything changed |
| Texts.TextBuffer.SetText | src/acp_subagents.rs:60-66 | setting forgets the old text; says whether anything changed |
| Texts.BoundaryIff | src/acp_subagents.rs:77-80 | the boundary test of UTF-8 (RFC 3629 section 3) holds exactly where a whole number of characters ends |
| Texts.CutLongest | src/acp_subagents.rs:77-81 | the cut is the longest prefix of whole characters within the limit |
| Texts.ChunkingForgotten | src/acp_subagents.rs:68-85 | however a text is split into chunks, the buffer ends up with the clipped whole |
| Texts.ClipBest | src/acp_subagents.rs:68-85 | the clipped text is the text if it fits, else its longest prefix of whole characters and an ellipsis, at most limit + 3 bytes |
| Subagents.FoldInto | src/acp_subagents.rs:584-682 | one update of a child: what changes and whether it is published at once; what the child keeps of all its updates is `ChildFields.TellsNext` |
| Subagents.FindTool | src/acp_subagents.rs:650-654 | the search from the newest entry finds the last entry of the tool |
| Subagents.Subagents.Publish | src/acp_subagents.rs:722-751 | a snapshot of the whole child under the next revision, or none for a child that is gone |
| Subagents.Subagents.ExpireRetired | src/acp_subagents.rs:527-531 | the loop drops the oldest retired ids down to the cap |
| Subagents.Subagents.Insert | src/acp_subagents.rs:512-542 | a new child is admitted, evicting the oldest idle one, else the oldest, at the cap |
| Subagents.Subagents.Announce | src/acp_subagents.rs:446-510 | an announcement inserts, patches and publishes its child |
| Subagents.Subagents.LinkMessage | src/acp_subagents.rs:546-580 | a root message reaches the child it is linked to, or links itself |
| Subagents.Subagents.AbsorbChildMessage | src/acp_subagents.rs:684-720 | a message of the child's own transcript reaches its prompt or reply |
| Subagents.Subagents.Absorb | src/acp_subagents.rs:584-682 | an update from inside a child |
| Subagents.Subagents.Due | src/acp_subagents.rs:385-402 | children whose text waited long enough are published in order |
| Subagents.Subagents.Quiet | src/acp_subagents.rs:408-433 | silent running children are published once as no longer reporting |
| Subagents.Subagents.ParentTurnEnded | src/acp_subagents.rs:437-443 | the silence of working children counts from now |
| Subagents.Subagents.Route | src/acp_subagents.rs:335-382 | one notification: what is published and whether it belongs to the root timeline |
| SubagentLaws.CountConserves | src/acp_subagents.rs:168-174 | omitted plus shown entries equal tool calls plus messages, below saturation |
| SubagentLaws.FoldKeeps | src/acp_subagents.rs:584-682 | every update conserves the counts and moves the activity only forward |
| SubagentLaws.FoldKeepsMirror | src/acp_subagents.rs:602-613 | an update that is not published changes nothing but streamed text |
| SubagentLaws.InsertBooks | src/acp_subagents.rs:512-542 | admitting a child keeps the listings, the caps, and links to live children |
| SubagentRuns.StepKeeps | src/acp_subagents.rs:335-443 | every notification and timer keeps the whole invariant |
| SubagentRuns.EveryRun | src/acp_subagents.rs:335-751 | in every reachable state the books agree, counts are conserved, each child's last snapshot shows it up to waiting text, and revisions strictly increase |
| SubagentRuns.SnapshotsEvolve | src/acp_subagents.rs:168-174 | while a child is kept, an absolute position names the same entry in all its snapshots, and only the newest message grows |
| SubagentEvictions.EvictionFair | src/acp_subagents.rs:516-525 | a step evicts at most one child, only at the cap, and a working one only when all work |
| SubagentEvictions.OwnedStaysOut | src/acp_subagents.rs:285-288 | an evicted id stays owned for 1024 later evictions, and what it sends stays out of the root timeline |
| SubagentTimers.DueShowsAll | src/acp_subagents.rs:385-402 | after the text timer no child has text that waited a second, and exactly those that had are published |
| SubagentTimers.QuietIff | src/acp_subagents.rs:408-433 | after the silence timer a child is quiet exactly when it was, or runs and was silent for ten minutes |
| SubagentTimers.RevisionsDated | src/acp_subagents.rs:722-724 | every snapshot has at least the time of its publication as revision |
| ChildHistory.EntriesNext | src/acp_subagents.rs:592-682 | whatever reaches a child, it keeps its 24 newest entries: each tool with its title and status, each message with its own chunks |
| ChildHistory.StatusIsLast | src/acp_subagents.rs:642-669 | the status kept of a tool is the last one named for it before another call takes its name, or pending |
| ChildHistory.TitleIsLast | src/acp_subagents.rs:625-669 | the title kept of a tool is the last one named for it, or the tool's id |
| ChildHistory.ChunksAre | src/acp_subagents.rs:592-623 | the chunks of a message are its first and those that go on with it before another entry opens |
| ChildFields.TellsNext | src/acp_subagents.rs:446-720 | one more thing reaches a child: entries, counts, labels, state, prompt, reply, last message, usage and model still are as last said |
| ChildRuns.RunTells | src/acp_subagents.rs:335-720 | in every run a kept child tells exactly what reached it since it was announced |
| ChildRuns.LinksTold | src/acp_subagents.rs:546-720 | every link was made by a message to its child, as prompt, or from it, as reply |
| ChildRuns.LatestTells | src/acp_subagents.rs:584-751 | in every run the latest snapshot of a kept child shows each kept tool with the title and status last named, each message clipped (only the newest may lag), and labels, counts, prompt and result as last said |
| ChildClock.ParentTold | src/acp_subagents.rs:446-459 | in every run a kept child belongs to the session whose update announced it when it was admitted |
| ChildClock.SilenceTold | src/acp_subagents.rs:335-443 | in every run silence counts from the last traffic or announcement of a child, or from the end of a turn of its parent while it worked |
| ChildClock.QuietTold | src/acp_subagents.rs:335-433 | in every run a kept child is shown as no longer reporting exactly when it was found silent and was not heard of since |
| Projection.SendChildActivity | src/acp_bridge_subagents.rs:338-412 | the loop over the entries sends what the client lacks |
| Projection.SubagentProjection.ProjectStandard | src/acp_bridge_subagents.rs:271-333 | announcement, prompt, activity and result, each only when new |
| Projection.SubagentProjection.ProjectLegacy | src/acp_bridge_subagents.rs:238-269 | one tool call, then updates of changed fields |
| Projection.SubagentProjection.Project | src/acp_bridge_subagents.rs:208-231 | a snapshot of a known or new child; an older revision yields nothing |
| ProjectionLaws.ActivitySync | src/acp_bridge_subagents.rs:346-411 | after the loop the client's tools and texts are those of all snapshots read so far |
| ProjectionLaws.SnapshotSynced | src/acp_bridge_subagents.rs:271-333 | one more snapshot keeps client and snapshots in agreement |
| ProjectionRuns.DeltasRefine | src/acp_bridge_subagents.rs:208-412 | for any deliveries, of every tool and position any of them showed that was not stale: each tool was announced once and no other, shows its last status, each message adds up to its last text unless first shown empty, and every label is the one last said |
| ProjectionRuns.LatestShown | src/acp_bridge_subagents.rs:346-411 | what was last shown of an entry in the latest snapshot is what that snapshot shows |
| ProjectionRuns.LegacyMirrors | src/acp_bridge_subagents.rs:238-269 | a legacy client sees one tool call with the fields of the latest snapshot |
| ProjectionRuns.LabelsCurrentIff | src/acp_bridge_subagents.rs:289-331 | title, description, prompt and result are each current exactly when the latest snapshot has one or none ever did |
| ProjectionRuns.ClearedLabelsStay | src/acp_bridge_subagents.rs:289-331 | a child seen again without title, description and result keeps all three at the client |
| ProjectionRuns.EmptyStaysSilent | src/acp_bridge_subagents.rs:376-411 | a message first shown empty stays empty at the client, whatever its text becomes |
| ProjectionRuns.FoldThenProject | src/acp_bridge_subagents.rs:346-412 | whichever snapshots of a kept child are delivered, in any order, the client ends with what all of them said, the latest last |
| ProjectionNotices.EveryNoticeSays | src/acp_bridge_subagents.rs:208-412 | every notice ever sent says what some delivered snapshot showed, and goes to whom it belongs: labels, prompt and result to the parent, activity to the child itself |
| ProjectionNotices.NoticeSaysSnapshot | src/acp_bridge_subagents.rs:238-333 | labels, prompt, result, and the title of the legacy call, are those of the snapshot, trimmed |
| ProjectionNotices.AnnouncedFirst | src/acp_bridge_subagents.rs:238-301 | a client first hears of a child by its announcement, or by the tool call that stands for it |
| ProjectionNotices.StatusIff | src/acp_bridge_subagents.rs:95-110 | what each word for the state of a child means |
| ProjectionNotices.LegacyStatusIff | src/acp_bridge_subagents.rs:113-119 | a legacy client sees a child in progress exactly while it works, and failed exactly when it ended badly or with an error |
| ProjectionNotices.StandardStateIff | src/acp_bridge_subagents.rs:175-192 | an error makes the idle state an error, and a quiet or unknown child has the unknown state |
| ProjectionNotices.LegacyTextSays | src/acp_bridge_subagents.rs:131-171 | the legacy text opens with what was asked and closes with the error, else with the result of a finished child |
| WorkerPrompts.HolderKeeps | src/acp.rs:4501 | a prompt between taking the lock and its end is the lock's holder |
| WorkerPrompts.RequestKeeps | src/acp.rs:4583-4613 | only the holder's request is outstanding |
| WorkerPrompts.EveryRun | src/acp.rs:4493-4835 | over all interleavings at most one request is in flight, and a done task published exactly one completion and one turn end, both with its outcome |
| WorkerPrompts.StopReaches | src/acp.rs:4599-4660 | a stopped prompt is never retried, sends at most the request it was past its check for, and every request is followed by a cancel |
| WorkerPrompts.EndsUnsent | src/acp.rs:4502-4568 | a prompt that ends before it sent anything is cancelled exactly when it was stopped |
| WorkerPrompts.EndsSent | src/acp.rs:4669-4834 | how a sent prompt ends, each way in both directions: it finishes exactly with the agent's good answer when nothing cancelled, stopped, recycled or gave it up; it is cancelled exactly when its wait noticed a cancel and nothing recycled it or gave it up; else it fails |
| WorkerHistory.PublishedOutcome | src/acp.rs:4669-4834 | over every run, read off its steps: a prompt publishes finished only on a good last reply, cancelled only if it was stopped or the watchdog stepped in; with neither, finished exactly when the reply was good |
| WorkerHistory.AnsweredFinishes | src/acp.rs:4739-4768 | a prompt whose request was answered well, and that no stop, tick or recycling reached, publishes finished |
| WorkerRetries.RetryIff | src/acp.rs:4613-4634 | a retry is decided exactly after the first failure that may be tried again and showed nothing, when nothing cancelled or recycled the prompt |
| WorkerRetries.SentTwice | src/acp.rs:4583-4660 | over every run a prompt sends at most two requests, the second only after such a failure and a pause in which neither a stop nor an update was seen |
| WorkerRetries.WithdrawnTold | src/acp.rs:4594-4603 | over every run the request of a prompt is withdrawn exactly when a stop was seen right after sending it |
| WorkerPrompts.ChangedIff | src/acp.rs:4880-4884 | the generation tells a stop unless a multiple of 2^64 stops came since |
| ConfigFences.WaitConfigFences | src/acp.rs:648-659 | the wait succeeds exactly when every fence opened; the first that failed refuses |
| ConfigFences.WaitDecides | src/acp.rs:648-659 | in whatever order its fences are waited for, a prompt may be sent exactly when the wait succeeds |
| ConfigFences.ClosingRefuses | src/acp.rs:631-659 | dropping fails closed: when the queues close every wait ends, and refuses the prompt unless all its fences had opened |
| ConfigFences.StepKeeps | src/acp.rs:4366-4387 | every submission, start and end keeps fences, queues and order |
| ConfigFences.DecidedStays | src/acp.rs:626-640 | each fence is decided once |
| ConfigFences.FencesHold | src/acp.rs:4495-4520 | when a prompt is sent the last change of each setting succeeded, and no earlier one is in flight unless an unreadable mode change came between; `FenceHistory.SendTold` says succeeded by the steps |
| FenceHistory.FenceTells | src/acp.rs:618-646 | over every run a fence has opened exactly when its change was finished well, or was readable and applied at once; it has failed exactly when the change was rejected or dropped |
| FenceHistory.SendTold | src/acp.rs:648-659 | a prompt can be sent exactly when, by the steps before, the last change of every setting ahead of it was finished well |
| ConfigFences.SendStays | src/acp.rs:4495-4520 | a prompt whose fences opened may be sent from then on |
| PromptFences.RequestsFenced | src/acp.rs:4493-4606 | over all interleavings of prompts, stops, replies and changes: for every request sent, the last change of each setting before its prompt succeeded, and no earlier one is in flight unless an unreadable mode change came between |
| PromptFences.PassesIff | src/acp.rs:4493-4520 | over every interleaving a prompt may pass its fences exactly when the changes ahead of it were finished well by the steps of the run |
| PromptFences.RequestSucceeded | src/acp.rs:4493-4606 | whenever a request of a prompt is in the log, the last change of each setting before the prompt had been finished well |
| PromptFences.LostBlocks | src/acp.rs:621-659 | if the last change of a setting before a prompt was rejected or dropped, no request of that prompt is ever sent |
| ConfigFences.OvertakesIff | src/acp.rs:4933-4960 | a prompt can be sent with an earlier change in flight exactly when every last change is readable and a readable mode change was followed by an unreadable one |
| ConfigFences.ModeOvertaken | src/acp.rs:4940-4960 | three mode changes, the second not a string, let a prompt overtake the first |

## Left out

- Hashing, freezing and branding: the digest is its preimage; SHA-256 and the frozen report object add no branch.
- Shape checks of `contracts/composition.generated.ts`: only its records, byte and depth bounds, and that identifiers are ASCII.
- JSON numbers are exact: a literal denotes a rational, and is accepted if it rounds to a double of magnitude at most 2^53 - 1, which is below 2^53 - 1/2; the rounded value itself is not modelled.
- JavaScript puts integer-like object keys first: the parser's result is a map, and the printer sorts keys, so that order is never seen.
- Code units: texts are UTF-16 code units, as the source sees them; a raw surrogate next to an escaped one pairs with it, as in the source.
- Transport: WebSocket, HTTP, authentication, retries of one request, process control and message decoding; a message arrives as its fields.
- Config options, status notifications and titles of the bridge: they are forwarded without affecting transcript or prompts.
- Loading and attaching a session: `Reconnect` starts from an attached client with a known position; a hydration that fails closes the gap without its events, so a successful one is assumed.
- Reconnect.ExactlyOnce: takes each hydration to hold what was missed, which `Paging.FetchMissed` and `Reconnect.FetchedHydrates` show up to the page limit; a session without a position must be hydrated from its start.
- Complete daemon bootstraps: snapshots pushed over the live connection, which the lazy protocol does not send.
- PromptLaws.OwnOutcome: excludes catch-ups of the session itself, in which buffered events are correlated before older hydrated ones; it starts anew after each, when no prompt waits. Turns are serialized by the daemon.
- PromptOutcomes.OwnOutcomes: excludes catch-ups of the session for the same reason; `PromptOutcomes.EveryOutcomeEarned` covers them, event by event.
- ChildRuns.LatestTells: takes the texts of updates to be UTF-8, as every string of the source is.
- ProjectionRuns.FoldThenProject: follows one stay of a child, projected from its announcement; a child evicted and announced again starts over in the fold, while the bridge keeps what it projected, and that mixture is not followed.
- Words of stop reasons: how they are read is a parameter of the model.
- Sorting by sequence number is stable here; the source's unstable sort may order events of one number, which do not occur, otherwise.
- Notifications that ACP cannot encode: the source drops them; here every notification reaches the client.
- Revisions and positions are unbounded: a 64-bit overflow of a revision, a sequence number or a position is not modelled; 32-bit counters of a child saturate as in the source.
- Times are milliseconds of one clock.
- A child's maps and lists are values in the map of children, replaced on update; aliasing of one child by two names does not occur in the source.
- Steering, permissions, elicitation, usage, memory and the managed review of the worker; the steering gate only delays a send.
- The order of waiting prompt tasks: any of them may take the lock next.
- The watchdog's clock: a tick may come at any time, with any verdict.
