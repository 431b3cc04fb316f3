# A model of bowl's evaluation engine

`crates/bowl` is an incremental, memoizing fact database. Entities carry
components; systems are functions over rows of joined queries; each matching
row is one invocation, memoized by the revisions it read, rerun when they move,
and the owner of whatever it writes. Almost every part of the engine is a fast
form of something simple: planning from a write-log tail instead of
re-enumerating, buckets and member lists instead of products, counters instead
of pairwise conflict checks, a cached snapshot instead of a clone, diffed
outputs instead of delete-and-rewrite. These files state the simple forms and
prove that the fast ones agree with them, over all inputs and over all runs.

## How it is laid out

| files | contents |
|---|---|
| `Base`, `Presence`, `World`, `WorldLemmas`, `Mutators`, `Removal`, `InPlace` | the world store: its state, its representation invariant (`World.Inv`), what may change together (`World.Evolves`), and every mutator |
| `WorldStore` | the same store as the object it is, with fields updated in place and mutators that re-enter each other, each proved to reach the state the specification gives |
| `WorldRuns`, `InverseStamps` | whole runs of the world; snapshot-cache validity; how far an inverse's revision vouches for its list |
| `Reconciling` | what reconciling in-place writes comes to, entry by entry |
| `Output`, `Emission`, `Losers`, `Anchors`, `Novelty`, `Removed` | output replacement by diffing; what a commit leaves of each component, and whom it lists as having lost one; what its sweep does to freshly captured anchors; which outputs move the world; the lists of removed things |
| `Retire`, `RootOrder`, `CutShort`, `Spawns` | ownership cascades, bound cleanup and the order of its roots, a commit whose cascade is cut short, spawn identity |
| `Queries`, `Joins`, `Matching`, `Reads`, `Hints`, `Handles` | rows and dependencies, pair-driven joins, what it takes to match and what a match reads in terms of the queries' own fields, hinted planning, and the bare handles that neither checks |
| `Planner`, `Cursors`, `Coverage`, `Compactions`, `Admission` | a system's gate, cursor and forced rows, and what they say; what it means that a row is covered; runs in which the log they read is compacted; admission of planned rows |
| `Phases`, `PhaseProofs`, `CommitProofs` | generations, phases, settles and their hooks as one step machine, the memo table handed from one to another, and the machine's invariant |
| `OutsideSteps`, `LoopSteps`, `EngineRuns` | every step keeps it: those of the generation, and those taken beside it |
| `TableHolders`, `NothingMissed` | who holds a memo table and how an entry is lost; the theorem that only rows with a lost entry are ever missed, exactly which, and when a phase has converged |
| `Exclusion`, `Memoized`, `Returns` | which rows get in each other's way, and that no two in flight do; that remembered rows are left alone; when a run that comes back counts, and what is on record afterwards |
| `LostMemo`, `StrayOutputs`, `OpenWindow` | what a driver that takes the table with it misses, what two settles that overlap miss, and a run of each; how far a commit's accounting reaches; what is in flight behind an open preemption window |
| `Walking`, `PhaseRunner`, `PhaseLoop` | the evaluator's own planning wave, commits and phase loop, on objects, proved to walk that machine |
| `Access`, `Tally`, `Reservations`, `TableAdmission` | row reservations: counters, generational slots, the pairwise oracle, and the table under the phase machine |
| `Epochs`, `InputRuns`, `Scheduler`, `Healing` | inputs, generations and preemption; when a queued input is applied; the shared state's methods and the phases of a generation with their budget; ambient healing |

Each state-lock section of the source is one atomic step. Component values are
opaque but for what the engine reads off them: an optional fingerprint, an edge
target, a member list, captured anchors. A fingerprint is an opaque number;
nothing here takes equal fingerprints for equal values. The order in which a
hash map or set is iterated is arbitrary everywhere, and the theorems hold for
every order.

## Assumptions

- Edge and inverse component types come in pairs, and an inverse is not itself
  an edge. Systems never write inverse components; in-place writes keep a
  value's edge target and member list (nothing in the source maintains the
  inverse for them).
- A joined query has one key and exactly one provider, which comes before it,
  as registration demands. Delta planning of joins is proved for providers that
  are themselves unjoined, which is what the source declares eligible.
- Parameters stand for what the engine cannot see: the commands a run returns,
  the values in-place writes leave, when external callers arrive, and when a
  driver is dropped.

## Where the code and its documentation differ

The model follows the code.

- An in-place change of an *untracked* component's fingerprint updates the
  index but moves no revision, mutation count, watermark or log. A join keyed on
  it can gain or lose rows unnoticed. `WorldRuns.RestampIsSilentIffUntracked`
  says exactly when, `UntrackedKeyMissesRow` gives the world, and the log tail
  covers a plan if and only if no such key was restamped outside the hint
  (`Hints.LogTailCovers`; across compactions `Compactions.CompactedHintCovers`).
- `Entity<H>` is documented to conform at least to shape `H`
  (spec/declared-outputs.md:164), and the shape to drive row matching. A bare handle
  takes whatever candidates it is given unchecked (query.rs:1133), be they a
  hint, a bucket, a member list or what its filter hands over; only the
  enumeration of its own rows looks at the shape. `Handles` has a world for each
  way in; `Queries.ListedRowsMatchIff`, `Joins.PairRowsAreAdmitted` and
  `PairDrivenIsPrunedProduct`, `Hints.HintedRowsAreRows` and
  `HintInventsNothingIff` say exactly when it makes no difference.
- `DerivedFrom` fingerprints its anchors "so a rerun keeps the stored entry
  untouched" (component.rs:287), but it is untracked, so every output that
  emits one raises the world revision (`NovelOutputs.AnchorsAlwaysMove`). It is
  excluded from `Output.IdempotentRerunIsQuiet` by its own condition.
- `DerivedFrom` inserts wait for the end of their buffer, so inserting one and
  then removing the entity in the same buffer puts the anchor back
  (`Output.DeferralReorders`).
- A preempting insert is documented to be drained by the restarted generation
  (bowl.rs:1668); the queue is applied only in `start_evaluation`, so it waits
  for the next generation. `InputRuns.AppliedIffStarted` and `RestartsApplyNothing`
  say so for every run, `PreemptingInputOutlivesGeneration` is one.
- `run_evaluation` disarms its guard before it awaits the state lock. A driver
  dropped there leaves the generation marked running with nobody behind it.
  `Epochs.OnlyDisarmedDropSticks` and `TargetsLost` give the exact condition,
  `DisarmedDropLosesTarget` the run, `StartUnsticks` what repairs it.
- The same drop loses the whole memo table, and so does a settle dropped while it
  runs its hooks or its phase, which hold the table with no guard (bowl.rs:1985, 2025).
  Nothing resets the planners then. `NothingMissed.LoseMissesWhatIsNotDue` says
  exactly which rows are missed, `LostMemos.LoseAfterCompletionMisses` that after a
  converged phase it is all of them, `DropMissesARow` gives a run.
- Overlapping settles are provided for (bowl.rs:2855), but a settle's hooks and its
  settle phase take the memo table in one lock section and put it back in another,
  with no runner lock between (bowl.rs:1979-2053). Two that overlap, or one and a
  generation, overwrite each other's table, and nothing resets the planners.
  `NothingMissed.PutBackMissesIff` and `PublishMissesIff` say exactly which rows that
  misses. It never happens unless a table is delivered between another's taking and
  its return (`UndividedMissesNothing`, `TableHolders.OverwritingNeedsDelivery`), which
  a caller avoids by not overlapping settles with other drivers. After a converged
  phase two settles that overlap miss all of it (`LostMemos.OverlapMissesAll`);
  `OverlapMissesARow` is such a run, with nobody dropped.
- External mutation is documented to block until a boundary (spec/epochs.md:122). Clone-on-write `for_each`,
  `take` and `drain` only settle first, and then take the state lock whatever
  runs by then (bowl.rs:564, 531, 756). The commits of a settle that overlaps a
  generation do not wait for its boundaries either. `BoundaryRuleConverges` needs the
  rule of both, `AloneConverges` has it of settles that do not overlap;
  `CompletedPhaseHasConverged` says what holds without it.
- A preemption is documented to drop every reader in flight and drain every writer,
  so that no mutation lands under a running evaluation (spec/epochs.md:230-247). That
  holds of the generation's own invocations
  (`Epochs.MutationsFindNothingInFlight`), but a settle that runs its hooks or its
  phase holds no runner lock, so its runs may be in flight when another's window opens
  and a mutation lands: `OpenWindows.WindowFindsSettleRun` is such a run. Where
  settles overlap neither each other nor a generation, nothing is in flight
  (`AloneWindowIsQuiet`). With no generation running a mutation needs no window, and
  may land while a settle's own runs are in flight.
- A commit accounts for what it removed in the memo table of whoever commits
  (bowl.rs:3336-3368), and settles hold a table of their own. An invocation that
  loses an output is forgotten and forced back if it has an entry in that table
  (`StrayOutputs.CommitReachesOwnTable`). One on record only in somebody else's keeps
  its entry and is not forced, and unless its system reads what it lost, its row is as
  current and as little due as before (`HookLeavesStray`). Where settles overlap
  neither each other nor a generation every entry is in reach (`AloneReachesAll`).
- Removing an entity is documented to return the owners of its components "so the
  caller can clear any remaining outputs" (world.rs:1543). An edge retracted because its
  target goes has no owner returned, and bound cleanup takes its roots in the order of a
  hash set: an invocation whose components on the roots are all edges between them may
  keep its memo and its other outputs. `Retirement.CleanupBound` says exactly who is
  found in a given order, `RootOrder.FoundInEveryOrderIff` who is found in all,
  `EdgeBetweenRootsIsMissed` has a world.
- In-commit retirement is joined by `||`, so retiring a component's owner skips
  the entity cascade. `Retirement.RetireInCommit` has the exact condition,
  `CutShort.MemoOutlivesItsKey` a commit that does it.
- A `DerivedFrom` anchor is exact at the flush, not after the commit: the stale
  sweep comes later and can move an anchored entity. `AnchorSweeps` says exactly
  when (`SourceOutlivesSweepIff`) and gives a commit (`CommitLeavesAnchorStale`).
- Spawn slots are documented as safe because "one invocation is never in flight
  twice" (world.rs:1065); overlapping settles launch one twice. No id is ever shared
  by two invocations (`Spawning.SlotListsStayDisjoint`), and no list names one twice
  while nothing is held back twice between two starts (`SlotsStayDistinct`); an id
  that is held back twice is listed twice (`HeldTwiceIsListedTwice`,
  `OverlapListsTwice`).
- A settle-phase commit finishes an invocation's slots without recording any: it
  keeps as many as the starts since the invocation's last commit have reinstated, so
  identity is kept in the usual cycle (`Spawning.SettledRerunReusesIds`) and lost
  where nothing was reinstated (`UnreinstatedRerunIsNew`); `HeldBackKeepsReinstated`
  has both.

## Model

| member | source | states |
|---|---|---|
| WorldRuns.RunKeepsInv | crates/bowl/src/world.rs:592-640 | In every state of every run of world operations, from an empty world, with or without a presence index: fingerprint buckets hold exactly the entries with that stamp and none is empty, presence bits are exactly the stored pairs, the ownership index lists exactly the owned entries, revision <= store watermark <= world revision, and inverses mirror edges |
| WorldRuns.OpKeepsInv | crates/bowl/src/world.rs:1131-1805 | Each single operation of such a run keeps that invariant; all but log compaction are steps of the world, so every presence or revision change raises its store's watermark past every earlier revision and is logged; compaction and the draining of the removal lists change nothing observed, and compaction empties the log under a later epoch |
| WorldRuns.InversesAreSources | crates/bowl/src/world.rs:955-999 | After any run, the inverse stored on a target is the strictly ascending list of exactly the entities whose edge points at it, and is absent exactly when there is none |
| WorldLemmas.WriteEvolves | crates/bowl/src/world.rs:1168-1262 | A component write, fresh or fingerprint-equal, moves revisions, watermarks, stamps, links and the log only in step with each other |
| WorldLemmas.WriteSound | crates/bowl/src/world.rs:1150-1262 | A component write keeps indexes, presence, owners, revision bounds and inverse shapes before relationship upkeep has run |
| WorldLemmas.WriteLists | crates/bowl/src/world.rs:1225-1262 | A write moves its pair from the previous owner's index entry to the new owner's, touches no other pair, and leaves no owner listed with nothing |
| WorldLemmas.EraseComponentSound | crates/bowl/src/world.rs:1626-1680 | Taking one component out keeps the same parts of the invariant, whoever removes it |
| Mutators.AddMemberLinks | crates/bowl/src/world.rs:955-971 | Adding a source to an inverse adds exactly that one listing, however often it is repeated |
| Mutators.RemoveMemberLinks | crates/bowl/src/world.rs:976-999 | Removing a source takes away exactly that one listing, tolerates a missing inverse, and never leaves an empty one |
| Mutators.RelinkMends | crates/bowl/src/world.rs:1264-1283 | Re-entrant upkeep after an edge changed its target mends exactly the one broken correspondence, and touches nothing but inverses |
| Mutators.InsertKeepsInv | crates/bowl/src/world.rs:1150-1285 | `insert`, with its nested inverse maintenance, keeps the whole invariant |
| Mutators.InsertReads | crates/bowl/src/world.rs:1150-1285 | `insert` leaves the value and owner it was given, and every other non-inverse entry as it was |
| Mutators.RemoveComponentKeepsInv | crates/bowl/src/world.rs:1626-1680 | `remove_component` keeps the invariant, removes the entry, and leaves every other non-inverse entry alone |
| Mutators.RemoveDerivedEntryKeepsInv | crates/bowl/src/world.rs:1454-1487 | Removing a derived entry keeps the invariant and removes it if its owner still holds it; a pair another owner took over stays |
| Removal.RemoveEntityKeepsInv | crates/bowl/src/world.rs:1545-1599 | Removing an entity, in whatever order its stores are visited, keeps the invariant, leaves no component on it and no edge pointing at it, and changes only inverses and entries whose edge pointed at it |
| Removal.RetractMends | crates/bowl/src/world.rs:1590-1595 | The retraction loop restores the edge/inverse correspondence one source at a time, although each step re-enters the mutators |
| InPlace.PokeKeepsInv | crates/bowl/src/world.rs:1316-1327 | A guard write that changes only a shared value, and not its links, breaks no index |
| InPlace.ReconcileAllKeepsInv | crates/bowl/src/world.rs:1329-1338 | Reconciling in-place writes keeps the invariant and is a step of the world's run |
| Reconciling.ReconcileAllReads | crates/bowl/src/world.rs:519-545 | For any list of writes: each entry there ends with its value's stamp; if tracked and its old stamp was absent or different, its revision and its store's watermark end above every earlier revision, and otherwise its revision stands; values, owners and all other entries are as before; the world's revision moves iff some entry was out of date; every write to an existing store is logged |
| InPlace.UpdateKeepsInv | crates/bowl/src/world.rs:1756-1805 | A live external mutation keeps the invariant |
| Reconciling.UpdateReads | crates/bowl/src/world.rs:1756-1805 | And does this: the new value and stamp are stored, revision, watermark and log move iff the component is tracked and its stamp was absent or different, and nothing else changes |
| WorldRuns.SnapshotCacheIsValid | crates/bowl/src/bowl.rs:138-144 | Two states of one run with the same (next entity, revision, mutations) agree on every presence, entry revision, watermark and tracked stamp |
| WorldRuns.CachedSnapshotPlansTheSame | crates/bowl/src/bowl.rs:2824-2834 | So a reused snapshot plans the same rows with the same dependencies, joined by key or by membership, as long as the links no counter tells of (untracked keys, member lists) were held |
| InverseStamps.RunKeepsHashed | crates/bowl/src/world.rs:955-999 | Over every run in which nobody writes an inverse in place, every stored inverse carries the fingerprint of its own member list, in its value and in the index |
| InverseStamps.UnmovedListIsHeld | crates/bowl/src/world.rs:1189-1223 | So a tracked inverse at an unmoved revision has the list it had, but for two lists of one fingerprint |
| WorldRuns.RestampIsSilentIffUntracked | crates/bowl/src/world.rs:1765-1804 | A live mutation that changes a stamp leaves the snapshot key unchanged if and only if the component is untracked |
| WorldRuns.UntrackedKeyOpensNoGate | crates/bowl/src/world.rs:1777-1802 | Nor does such a mutation open the planning gate of any system that was up to date |
| WorldRuns.UntrackedKeyMissesRow | crates/bowl/src/world.rs:1777-1802 | A concrete world in which a join on an untracked key gains a row under an unchanged snapshot key |
| WorldStore.LiveWorld.Insert | crates/bowl/src/world.rs:1150-1285 | The object's fields after `insert`, nested upkeep included, are the specified new state |
| WorldStore.LiveWorld.RelationshipAddMember | crates/bowl/src/world.rs:955-971 | The re-entrant member insertion reaches the specified state |
| WorldStore.LiveWorld.RelationshipRemoveMember | crates/bowl/src/world.rs:976-999 | The re-entrant member removal reaches the specified state |
| WorldStore.LiveWorld.RemoveComponent | crates/bowl/src/world.rs:1626-1680 | Reaches the specified state and returns the removed value, or nothing when there was none |
| WorldStore.LiveWorld.RemoveDerivedEntry | crates/bowl/src/world.rs:1454-1487 | Reaches the specified state and reports whether the owner still held the entry |
| WorldStore.LiveWorld.RemoveEntity | crates/bowl/src/world.rs:1545-1599 | The loops over stores, log, owners, edges and retractions reach the specified state, and the returned owners are those of the removed components |
| WorldStore.LiveWorld.StripStore | crates/bowl/src/world.rs:560-578 | One store loses the entity's entry together with its stamp, and its watermark takes the new revision |
| WorldStore.LiveWorld.TakeDerivedOutputs | crates/bowl/src/world.rs:1423-1428 | Returns exactly the owner's indexed outputs and clears its index entry |
| WorldStore.LiveWorld.RemoveDerivedStale | crates/bowl/src/world.rs:1436-1451 | Removes, in some order of the set, what the owner no longer owns; the state is the specified sweep |
| WorldStore.LiveWorld.FlushDerivedFrom | crates/bowl/src/world.rs:1026-1036 | Captures and inserts the deferred anchors in order, and leaves none pending |
| WorldStore.LiveWorld.Perform | crates/bowl/src/commands.rs:249-299 | One buffered command has its specified effect; an anchor insert is put aside instead |
| WorldStore.LiveWorld.ApplyCommands | crates/bowl/src/commands/arena.rs:210-228 | A buffer is applied in command order; exactly its anchor inserts end up deferred |
| WorldStore.LiveWorld.ReplaceOutput | crates/bowl/src/bowl.rs:3226-3252 | Take, apply, flush and sweep: the invariant holds again, and what the owner owns afterwards is exactly what its buffer wrote and did not later remove |
| WorldStore.LiveWorld.ReconcileWritten | crates/bowl/src/world.rs:1329-1338 | The loop over written rows reaches the specified state, vanished rows included; `Reconciling.ReconcileAllReads` has it entry by entry |
| WorldStore.LiveWorld.UpdateComponentLive | crates/bowl/src/world.rs:1756-1805 | Reaches the specified state; answers only if the entity carries the component |
| Presence.SetChangesOneBit | crates/bowl/src/world.rs:708-727 | Setting or clearing a presence bit changes that bit and no other, growing the table as needed; types outside the universe have none |
| Presence.ClearEntityClearsRow | crates/bowl/src/world.rs:729-739 | Clearing an entity clears exactly its row |
| Presence.MaskOf | crates/bowl/src/world.rs:741-748 | The mask of a conjunction exists iff every component is in the universe, and holds exactly their bits |
| Presence.MaskDecidesConjunction | crates/bowl/src/world.rs:750-762 | One word-parallel mask test decides the whole conjunction of presence probes |
| Presence.EntitiesMatching | crates/bowl/src/world.rs:764-779 | The row scan returns exactly the entities carrying all components, once each, ascending |
| Output.DeferralReorders | crates/bowl/src/world.rs:1026-1036 | Deferring the `DerivedFrom` inserts of a buffer is the same as moving them to its end |
| Output.FlushedAnchorsAreCurrent | crates/bowl/src/component.rs:265-280 | After a flush, every flushed anchor stands at the revision its source has in that very world, and the flush moved no source's revision |
| AnchorSweeps.SweepReads | crates/bowl/src/world.rs:1436-1487 | Of the ordinary entries the stale sweep removes exactly the previous outputs their owner still carries and has not emitted again, and changes none |
| AnchorSweeps.SweepSpares | crates/bowl/src/world.rs:1454-1487 | An inverse that no swept edge points at is left as it is |
| AnchorSweeps.RevisionStandsIff | crates/bowl/src/world.rs:1382-1393 | An entity keeps its newest tracked revision through any stretch of a run iff nothing tracked on it was written again and some component at that revision is still there |
| AnchorSweeps.SourceOutlivesSweepIff | crates/bowl/src/bowl.rs:3246-3252 | An anchored entity keeps, through the sweep that ends the commit, the revision its flush captured iff it stands; where no swept edge points at it, iff some tracked component at that revision is not swept |
| AnchorSweeps.AnchorsOutliveSweepIff | crates/bowl/src/component.rs:271-279 | A flushed value is still current after the commit iff every entity it is anchored at lives and stands |
| AnchorSweeps.SweptOutputMakesStale | crates/bowl/src/bowl.rs:3246-3252 | Over every world in which an invocation's only output is the newest tracked component of an entity: a rerun that emits only a value derived from that entity leaves it stale |
| AnchorSweeps.CommitLeavesAnchorStale | crates/bowl/src/bowl.rs:3226-3252 | A concrete commit that stores a stale anchor on a live source |
| Output.StepReplaces | crates/bowl/src/bowl.rs:3226-3246 | While an owner's old outputs are out of the index, each command keeps the invariant up to them, and the owner's index follows what it has emitted |
| Output.ReplaceOwnsEmitted | crates/bowl/src/bowl.rs:3226-3252 | After one accepted output the entries owned by its owner are exactly the pairs emitted, and everything owned before and not re-emitted is gone or someone else's |
| Emission.CommitLeavesExactly | crates/bowl/src/bowl.rs:3226-3252 | A commit leaves of every ordinary component, value and owner included, exactly what following its commands one by one leaves, less what the invocation had put there earlier and not again |
| Emission.AnchorsComeLast | crates/bowl/src/world.rs:1026-1036 | The order those commands take effect in holds the buffer's commands, each as often, with the `DerivedFrom` inserts and nothing else put off to the end |
| Emission.PutRevises | crates/bowl/src/world.rs:1189-1223 | A write keeps its entry's revision iff the component is tracked and the stamp is there and the same; else entry and watermark end above every earlier revision |
| Emission.SettleCommitOnlyRemoves | crates/bowl/src/bowl.rs:3233-3245 | A settle phase's commit only removes, and removes all it is told to: a component stays, as it was, iff no command removes it, by name, with its entity or with its edge's target, and it is no earlier output of the same invocation |
| Losers.CommitLists | crates/bowl/src/world.rs:1626-1680 | After a commit the listed owners are exactly those who lost something to its commands, at the moment they took effect, and the listed entities exactly those it removed; what it sweeps or drops of its own lists nobody |
| Losers.RemoveEntityLoses | crates/bowl/src/world.rs:1590-1598 | Removing an entity lists exactly the owners of the other entities' edges that pointed at it |
| Output.IdempotentRerunIsQuiet | crates/bowl/src/bowl.rs:3370-3376 | A rerun that re-emits equal-stamped tracked values for everything it owns moves no revision, mutation count or watermark, so it asks for no follow-up |
| Output.NovelWriteMoves | crates/bowl/src/world.rs:1189-1223 | Conversely, a write that is untracked or not fingerprint-equal raises the world revision |
| NovelOutputs.NovelOutputMoves | crates/bowl/src/bowl.rs:3226-3252 | So a whole output with such a write in it, judged at its turn in the order of effect, raises the world revision whatever its other commands and the sweep do |
| NovelOutputs.AnchorsAlwaysMove | crates/bowl/src/component.rs:282-291 | In particular an invocation that emits any `DerivedFrom` is never quiet, however equal its anchors |
| Queries.RowsAre | crates/bowl/src/query.rs:2981-2990 | Enumeration from a driving store lists exactly the entities that pass what full enumeration checks, ascending |
| Queries.ListedRowsMatchIff | crates/bowl/src/query.rs:1129-1135 | The listed rows are the rows meant, iff no bare handle is handed an entity by its filter that lacks its shape |
| Queries.NarrowedIsListed | crates/bowl/src/query.rs:2995-3007 | A candidate list is narrowed to listed rows, but for a bare handle without a filter, whose shape goes unchecked |
| Queries.DriverIsInvisible | crates/bowl/src/query.rs:1088-1123 | Which required store drives the enumeration does not show in the rows |
| Queries.BitmapRowsAgree | crates/bowl/src/world.rs:764-779 | Enumerating from the presence bitmap gives the rows that probing the stores gives |
| Queries.RowDepsSame | crates/bowl/src/query.rs:844-854 | If nothing of interest on a row's keys has another revision, the row's dependencies are the same; `Reads` has what they record |
| Reads.DepsAreReads | crates/bowl/src/query.rs:1234-1236 | A row's dependencies are exactly: for each tracked component that a query reads on its key (a part, optional or not, a `With`, or the join key), its revision or absence; and for each viewed store its watermark |
| Reads.SameDepsIffSameReads | crates/bowl/src/system.rs:1494-1496 | So they are equal in two worlds iff all those revisions and all those watermarks are |
| Reads.CurrentIffReadsStand | crates/bowl/src/query.rs:844-854 | And captured dependencies are all current iff nothing the row reads or views has moved since |
| Reads.RecordStandsIff | crates/bowl/src/query.rs:858-874 | What a commit records stands in the world published iff nothing the row reads has moved since but what the run itself wrote, and no store it views has |
| Matching.MatchesIff | crates/bowl/src/query.rs:2096-2104 | An entity matches a query iff it carries every part, every `With`, the join key and the facet, and nothing of `Without` |
| Matching.ListedIff | crates/bowl/src/query.rs:1129-1135 | It is listed iff it does, the facet aside where the filter of a bare handle hands it over |
| Matching.SpecifiedIff | crates/bowl/src/system.rs:1079-1189 | The rows of the pruned product are the picks that are listed one by one, where each joined one has its provider's stamp of the key, or an edge that points at its provider |
| Joins.PairDrivenIsPrunedProduct | crates/bowl/src/system.rs:1079-1189 | Pair-driven planning yields the same rows, in the same order and as often, as forming the full product and pruning it with the bindings, iff no planned row has a joined bare handle without its shape; so always when joined handles have a part or filter beside them |
| Joins.PrunedProductIsSievedPairs | crates/bowl/src/system.rs:1079-1189 | In every case the pruned product is what pair-driven planning enumerates, in the same order, less the rows whose joined bare handles lack their shape |
| Joins.PairRowsAreAdmitted | crates/bowl/src/system.rs:1369-1408 | A provider's bucket or member list is exactly the joined query's full enumeration narrowed by the binding, iff it hands no bare handle an entity that lacks its shape |
| Joins.BuildMembers | crates/bowl/src/system.rs:1365-1417 | A row is enumerated iff each of its entities was a candidate at its turn, in every planning mode |
| Joins.PlannedOnce | crates/bowl/src/system.rs:1365-1417 | No row is planned twice, in every planning mode |
| Hints.DirtyPartnerReachesProvider | crates/bowl/src/query.rs:2445-2505 | A dirty partner makes its provider dirty, through the key's bucket (index exactness) or through its edge (inverse exactness) |
| Hints.TouchedRowsArePlanned | crates/bowl/src/system.rs:1017-1077 | Every matching row with a hinted key is planned, however many drivers there are and whatever part of the row the hint names |
| Hints.HintedRowsAreRows | crates/bowl/src/system.rs:1017-1077 | A hinted row is a row of the full plan, iff the hint was not used to narrow a bare handle to an entity that lacks its shape |
| Hints.HintInventsNothingIff | crates/bowl/src/system.rs:454-456 | A lone query's hinted plan invents no row, iff no hinted entity that passes its filter lacks its shape |
| Handles.HintInventsRow | crates/bowl/src/query.rs:1133-1135 | A concrete world and hint in which a hinted plan invents a row |
| Handles.FilterHandsOverStranger | crates/bowl/src/query.rs:2981-2990 | A concrete world in which the full plan of a filtered bare handle lists an entity of another shape |
| Handles.MembersHandOverStranger | crates/bowl/src/query.rs:2995-3007 | A concrete world in which a member list hands a joined bare handle an entity of another shape, so the pair is planned and the pruned product has none |
| Hints.UntouchedRowIsOld | crates/bowl/src/system.rs:1017-1077 | A row none of whose keys is hinted was a row at the last plan, with the same dependencies |
| Hints.HintedPlanningIsComplete | crates/bowl/src/system.rs:1017-1077 | Every row of the full plan that the hinted plan leaves out had the same match and the same dependencies at the last plan |
| Hints.LogTailCovers | crates/bowl/src/bowl.rs:2403-2417 | With no compaction since the last plan, the unread log tail names every entity whose facts of interest moved since the last plan, iff no untracked join key was restamped on an entity it does not name |
| Hints.LogPlanningIsComplete | crates/bowl/src/bowl.rs:2398-2428 | So, along a run with no compaction since the last plan, planning from the log tail leaves out only rows of the pruned product that stand as they did, under that condition |
| Planners.BoxedSystem.Level | crates/bowl/src/system.rs:1788-1792 | One pass computes the highest watermark of the interest stores |
| Planners.BoxedSystem.PeekNeedsPlanning | crates/bowl/src/system.rs:1773-1794 | The gate is open iff rows are forced, the mark is unset, or an interest store moved past it; looking changes nothing |
| Planners.BoxedSystem.NeedsPlanning | crates/bowl/src/system.rs:1796-1810 | The same answer, advancing the mark exactly when it is yes |
| Planners.BoxedSystem.Force | crates/bowl/src/system.rs:1816-1825 | A delta-eligible system keeps its cursor and gains the row's keys; any other, or an empty row, is reset |
| Planners.BoxedSystem.Reset | crates/bowl/src/system.rs:1831-1836 | Mark and cursor are invalidated; forced rows stay |
| Planners.BoxedSystem.TakeHint | crates/bowl/src/bowl.rs:2398-2436 | The hint for one plan: the unread rows of interest and the forced ones, or everything when the cursor is not current; both are consumed |
| Planners.BoxedSystem.Compact | crates/bowl/src/system.rs:1840-1865 | Before the log is dropped, unread rows of interest are saved, but only if the gate is open anyway; an invalid cursor is left invalid |
| Cursors.InterestIs | crates/bowl/src/system.rs:989-993 | The stores a gate looks at are those its queries are concerned with, for presence, absence, value or join, and those the system tracks whole |
| Cursors.OpenIff | crates/bowl/src/system.rs:1773-1794 | The gate is open iff rows are forced, nothing has been planned, or some store of interest has passed the mark |
| Cursors.HintNamesExactly | crates/bowl/src/bowl.rs:2398-2436 | There is a hint iff the system has queries, views no store and has a cursor into this log; it names exactly the entities forced and those written in a store of interest since |
| Cursors.ForceNames | crates/bowl/src/system.rs:1816-1825 | Forcing opens the gate, and adds the row's keys to the hint where there is one; else the next plan is full |
| Cursors.PlannedIsQuiet | crates/bowl/src/system.rs:1796-1810 | Right after a plan the gate is shut and the hint, where there is one, is empty |
| Coverage.MovedRowIsDue | crates/bowl/src/system.rs:1773-1794 | If anything a row is planned from moved, its system's gate is open and its next hint or full plan names the row |
| Coverage.UnmovedRowIsSame | crates/bowl/src/query.rs:844-854 | If nothing moved, the row matches as before with the same dependencies |
| Coverage.WorldMovesCovered | crates/bowl/src/bowl.rs:2304-2502 | Coverage (every matching row is on record with its present dependencies, in flight, or due) survives any change of the world |
| Coverage.ForceCovers | crates/bowl/src/system.rs:1816-1825 | Forcing a row back covers it whatever is on record of it and whether or not it stays in flight, and uncovers no other row |
| Coverage.ResetCovers | crates/bowl/src/system.rs:1831-1836 | A full reset covers every row of the system |
| Coverage.CompactionKeepsHint | crates/bowl/src/system.rs:1840-1865 | One compaction, for every cursor: the gate is as it was; under an open gate the next hint is the same set, under a shut one it is empty, and a cursor that was not valid, or a startup system's, means a full plan |
| Coverage.CompactionCovers | crates/bowl/src/bowl.rs:2814-2820 | Compaction uncovers nothing: a valid cursor's unread rows survive as forced rows, an invalid cursor still means a full plan |
| Compactions.TurnKeepsOk | crates/bowl/src/system.rs:1840-1865 | World operations, compactions, forced rows, resets, captures and plans each keep this: whatever of interest moved since the world last planned from has opened the gate, and is named by the next plan, seen from the live world and from the one last captured |
| Compactions.MovesAreNamed | crates/bowl/src/system.rs:1840-1865 | So over every run, after any number of compactions, the forced rows and the new tail name every entity whose presence or revision of interest moved since the last plan, or the next plan is full; and the gate is open for it |
| Compactions.DroppedTailMovedNothing | crates/bowl/src/system.rs:1846-1850 | What a compaction drops, which it does under a shut gate alone, are writes to entities whose presence, revisions and tracked fingerprints of interest all stand as at the last plan |
| Compactions.InvalidCursorPlansAll | crates/bowl/src/system.rs:1852-1854 | Over every run, a cursor that is invalid stays so, whatever is written, compacted or forced, until the system plans, in full |
| Compactions.CompactedHintCovers | crates/bowl/src/bowl.rs:2398-2436 | After any number of compactions, what the next plan of a joined system names covers everything that changed for it, iff no untracked key was restamped and no member list changed at an unchanged revision on an entity it does not name |
| Compactions.CompactedPlanningIsComplete | crates/bowl/src/bowl.rs:2398-2436 | So over every run, whatever was compacted since its last plan, a joined system planning from forced rows and tail leaves out only rows of the pruned product that were rows at its last plan, with the same dependencies, under that condition |
| Admission.CurrentDepsAreDeps | crates/bowl/src/system.rs:121-130 | Dependencies captured in any earlier world are all current exactly when they equal the row's present ones |
| Admission.OwnWritesStayMemoized | crates/bowl/src/query.rs:858-874 | A memo entry refreshed after the run's own in-place writes equals the row's present dependencies, if nothing else of the row moved |
| Admission.AdmitRowsSettle | crates/bowl/src/dispatch/plan.rs:84-101 | Every planned row ends memo-current, in flight, or due again behind a conflicting run; no run and no due row is lost (that nothing else happens is `Memoization`) |
| Memoization.TurnRunsOnlyCalled | crates/bowl/src/system.rs:1494-1500 | In any state of a wave: what a system's turn puts in flight belongs to the running phase, starts from the wave's snapshot, was listed, and had no entry in the generation's table equal to its dependencies there; what it forces is a key of such a row, behind a run in flight; when every row listed has its entry, it starts and forces nothing, leaves no conflict, and its gate is shut |
| Memoization.RunsOnlyCalled | crates/bowl/src/bowl.rs:2389-2452 | So over every run, whatever is in flight was put there by such a turn and has been since |
| Memoization.LaunchRunsExactly | crates/bowl/src/bowl.rs:2029-2042 | A settle launches, from one snapshot that observes what the live world does, exactly the rows of settle systems that have no such entry in the table it took |
| Exclusion.RowAccessAre | crates/bowl/src/query.rs:1346-1348 | A row's access list holds writes to what it mutates, reads of whatever else it looks at, absence included, and shared access to the stores it views |
| Exclusion.ClashIff | crates/bowl/src/query.rs:394-402 | Two rows may not run together iff one mutates a component of an entity that the other mutates, looks at, or views with its store |
| Exclusion.FlightsStayApart | crates/bowl/src/dispatch/plan.rs:84-101 | Over every run, no two invocations that a generation has in flight do |
| Exclusion.WritersMutate | crates/bowl/src/access.rs:218-220 | An invocation counts as a writer iff it mutates something, and the rows reconciled for it are exactly those it mutates |
| Exclusion.PreemptionKeepsMutators | crates/bowl/src/bowl.rs:2305-2313 | A preemption keeps exactly the runs that mutate something |
| RemovedLists.RemoveEntityLists | crates/bowl/src/world.rs:1585-1598 | A removed entity is always listed, its owners only if it carried something, and then the revision moved |
| RemovedLists.ReplaceTracks | crates/bowl/src/bowl.rs:3226-3252 | Over one accepted output the lists of removed things grow only along with the revision, and whatever reappears on a removed entity is newer than the commit's start |
| CommitProofs.PublishedEvolves | crates/bowl/src/bowl.rs:3226-3330 | A commit as a whole keeps the world's invariant and is a step of the world's run |
| CommitProofs.CommittedCovers | crates/bowl/src/bowl.rs:3325-3330 | The committed row is on record as it stands, or due; every other row is as covered as the world's move left it |
| CommitProofs.RenewedRowIsDue | crates/bowl/src/bowl.rs:3379-3381 | A row keyed by an entity the commit removed, if it matches again, is due, so dropping its memo without forcing it loses nothing |
| CommitProofs.RetireCovers | crates/bowl/src/bowl.rs:3386-3402 | Forgetting the memos of owners that lost a component, and forcing their rows, uncovers nothing |
| CommitProofs.ReconciledCovers | crates/bowl/src/bowl.rs:3332-3368 | Accounting for everything a commit removed, in the table of whoever commits, leaves every system covered, also in the earlier view of a wave that has yet to plan it |
| CommitProofs.ReconciledLevel | crates/bowl/src/bowl.rs:3332-3368 | And in the world committed to |
| Returns.FreshIffReadsStand | crates/bowl/src/bowl.rs:3199-3203 | A run that comes back counts iff nothing its row reads or views has moved since its snapshot |
| Returns.ReturnReconciles | crates/bowl/src/bowl.rs:3204-3325 | Fresh or stale, it leaves what it mutates in place with its values' stamps, past every earlier revision where that changed; a stale one publishes nothing else |
| Returns.StaleRecordsNothing | crates/bowl/src/bowl.rs:2484-2488 | A stale run records nothing, and its row is due again whatever its system plans from |
| Returns.AcceptedIsOnRecord | crates/bowl/src/bowl.rs:3325-3330 | A run that counts is on record afterwards, unless its commit took one of its outputs or removed one of its keys; its entry is good iff the commit moved nothing the row reads but what the run mutated |
| Returns.TableAfterRemovals | crates/bowl/src/bowl.rs:3332-3368 | Of the committer's table exactly those entries stay whose invocation lost no output and, unless somebody on record did, is keyed by no removed entity |
| Returns.ReturnLeavesExactly | crates/bowl/src/bowl.rs:3199-3330 | Of every ordinary component a generation's run leaves what following its buffer leaves, if it counts, and else what was there, value and owner |
| Returns.SettleReturnLeavesExactly | crates/bowl/src/bowl.rs:3181-3252 | A settle's run that counts only removes, and all it is told to; one that does not leaves everything as it was |
| Returns.HookReturnLeavesExactly | crates/bowl/src/bowl.rs:1994-2001 | A hook's buffer takes effect whole |
| Returns.SettledIsOnRecord | crates/bowl/src/bowl.rs:2044-2046 | A settle's run is put on record in the settle's own table just as a generation's in its, and a stale one not at all |
| Returns.SettleReconciles | crates/bowl/src/bowl.rs:3204-3325 | And what it mutates in place is reconciled, fresh or stale |
| Returns.FollowupIff | crates/bowl/src/bowl.rs:3370-3376 | A batch asks for another wave iff some run of it was stale or moved a counter |
| Returns.BatchPlansAgainIff | crates/bowl/src/bowl.rs:2497-2500 | After it the loop plans iff a wave was still due, the batch asked for one, or a row waits behind a conflict |
| PhaseProofs.PlanEnumerates | crates/bowl/src/bowl.rs:2389-2428 | A full plan enumerates every matching row, a hinted one every matching row its hint touches |
| PhaseProofs.PlanCovers | crates/bowl/src/bowl.rs:2389-2452 | Planning a covered system from a snapshot leaves it covered in the live world, which may have moved in the meantime |
| PhaseProofs.TurnShutsGate | crates/bowl/src/bowl.rs:2389-2452 | A planned gate is shut in the live world unless a conflict put a row back or the world moved |
| OutsideSteps.SnapshotIsCurrent | crates/bowl/src/bowl.rs:2824-2834 | The snapshot a wave or a settle plans from, cached or fresh, observes what the live world does |
| LoopSteps.StartKeepsOk | crates/bowl/src/bowl.rs:2592-2658 | Starting a generation keeps the invariant: its inputs and what it removes are accounted for, and it takes the table |
| LoopSteps.PublishKeepsOk | crates/bowl/src/bowl.rs:2232-2248 | So does delivering its table over whatever is in the shared state by then; the invariant then excuses exactly the entries overwritten |
| LoopSteps.CompactKeepsOk | crates/bowl/src/bowl.rs:2814-2820 | So does log compaction between generations |
| LoopSteps.AcceptKeepsOk | crates/bowl/src/bowl.rs:3216-3376 | So does an accepted commit, with its removals and retirements |
| LoopSteps.DiscardKeepsOk | crates/bowl/src/bowl.rs:3199-3214 | So does a stale run, whose in-place writes are reconciled and whose row is forced back |
| LoopSteps.DropKeepsOk | crates/bowl/src/bowl.rs:2305-2325 | So do preemption, the restart after it, and a driver dropped with its guard |
| LoopSteps.LoseKeepsOk | crates/bowl/src/bowl.rs:2232-2235 | A driver dropped without its guard takes its table; the invariant then excuses exactly what was in it |
| OutsideSteps.TakeKeepsOk | crates/bowl/src/bowl.rs:1980-1986 | A settle may take the table for its hooks or its phase at any time, in the middle of a wave or of another settle |
| OutsideSteps.LaunchKeepsOk | crates/bowl/src/bowl.rs:2018-2042 | It launches every row its own table does not have on record, from one snapshot, without gates, hints or reservations, whatever others have in flight |
| OutsideSteps.SettleReturnKeepsOk | crates/bowl/src/bowl.rs:3181-3376 | Its runs commit into its own table at any time, stale ones included, with their removals accounted for there |
| OutsideSteps.HookReturnKeepsOk | crates/bowl/src/bowl.rs:1994-2001 | So do its hooks, which have no keys and leave no entry |
| OutsideSteps.PutBackKeepsOk | crates/bowl/src/bowl.rs:2047-2048 | It puts the table back over whatever is there; the invariant then excuses exactly the entries overwritten |
| OutsideSteps.CancelKeepsOk | crates/bowl/src/bowl.rs:2018-2053 | A settle dropped in between takes its table; exactly what was in it is excused |
| OutsideSteps.HealKeepsOk | crates/bowl/src/bowl.rs:1913-1978 | Evicting stale ambient entries of the shared table and forcing their rows keeps the invariant, whoever holds other tables |
| EngineRuns.StepKeepsOk | crates/bowl/src/bowl.rs:1979-2503 | Each step (move, start, compact, enter, quiet, skip, begin, plan, end, return, end of batch, complete, preempt, restart, publish, abandon, lose, heal, and a settle's take, launch, return, hook, put back and cancel) keeps the invariant, in any order |
| TableHolders.OrphanWasLost | crates/bowl/src/bowl.rs:2232-2248 | Over every run, an orphan's entry went with a dropped table or was overwritten by a delivered one, and since then neither its run returned nor the planners were reset |
| TableHolders.OverwritingNeedsDelivery | crates/bowl/src/bowl.rs:1979-2053 | Over every run, a delivery overwrites an entry only if somebody else delivered a table since this one was taken |
| NothingMissed.NoRowIsEverMissed | crates/bowl/src/bowl.rs:1979-2503 | Over every run, however generations, settles and hooks overlap, at every moment but while a preemption drops its readers: each matching row, as the pruned product has it, has a run on record in some table whose every tracked read has its present revision and every view its present watermark, or is in flight, or is due; except rows whose entry went with a dropped or overwritten table, and without such a loss none |
| NothingMissed.LossMissesIff | crates/bowl/src/bowl.rs:2047-2048 | However a table is lost, the rows missed are those missed before and those that stood on record there and nowhere else, and were neither running nor due |
| NothingMissed.PutBackMissesIff | crates/bowl/src/bowl.rs:2047-2048 | So putting a table back misses nothing iff the table overwritten has no entry of that kind |
| NothingMissed.PublishMissesIff | crates/bowl/src/bowl.rs:2232-2235 | And so for a generation that delivers its own |
| NothingMissed.CancelMissesIff | crates/bowl/src/bowl.rs:2018-2053 | And for a settle dropped with its table: what is missed is what stood only there |
| NothingMissed.LoseMissesWhatIsNotDue | crates/bowl/src/bowl.rs:2232-2235 | With nothing else on record, exactly the matching rows that are not due at that moment are missed, so none is missed iff every matching row's system has an open gate whose next plan names the row |
| NothingMissed.UndividedMissesNothing | crates/bowl/src/bowl.rs:1979-2053 | In every run in which no table is delivered while another is out, and no holder is dropped with its table, no row is ever missed |
| LostMemos.LoseAfterCompletionMisses | crates/bowl/src/bowl.rs:2232-2235 | In every run in which a phase completes with its gates shut and the table is lost next, every matching row of that phase is missed that no other table has on record |
| LostMemos.DropMissesARow | crates/bowl/src/bowl.rs:2232-2235 | A concrete run, from registration on, that misses a row that way |
| LostMemos.OverlapMissesAll | crates/bowl/src/bowl.rs:1979-2053 | In every run in which a phase completes with its gates shut, its generation ends, and two settles with nothing to run take the table one after the other and put it back in the same order, every matching row of that phase is missed |
| LostMemos.OverlapMissesARow | crates/bowl/src/bowl.rs:2018-2053 | A concrete run, from registration on, that misses a row that way, with no driver and no settle dropped |
| NothingMissed.CompletedPhaseHasConverged | crates/bowl/src/bowl.rs:2350-2359 | A phase returns completed with nothing in flight and nothing missed but orphans; without interference every gate is shut, and with every gate of the phase shut every matching row of it has such a run on record |
| NothingMissed.BoundaryRuleConverges | crates/bowl/src/bowl.rs:2710-2740 | In every run in which mutations, and the commits of other settles, wait for a boundary or move no counter, every phase that completes has converged |
| NothingMissed.AloneConverges | crates/bowl/src/bowl.rs:2710-2740 | Where settles overlap neither each other nor a generation it is enough that mutations wait, and the rows are memoized in the generation's own table |
| StrayOutputs.CommitReachesOwnTable | crates/bowl/src/bowl.rs:3336-3368 | An invocation that loses an output in a settle's commit is forgotten in the settle's own table, and forced back if it had an entry there; every other table is left as it is, and so is the planner of every system none of whose losers has an entry there |
| StrayOutputs.HookLeavesStray | crates/bowl/src/bowl.rs:1994-2001 | Over every state in which a hook drops an output of an invocation on record only in the generation's table: the output is gone, entry and planner stay, and the row is as current and as little due as before unless its system reads that component |
| StrayOutputs.AloneReachesAll | crates/bowl/src/bowl.rs:1979-2053 | Over every run in which settles overlap neither each other nor a generation, nothing is on record out of a settle's reach |
| Running.PhaseRunner.CommitRun | crates/bowl/src/bowl.rs:3181-3377 | The evaluator's commit, on the objects it updates, is exactly the machine's return step, stale and accepted branch alike |
| Running.PhaseRunner.RetireRemovedOwners | crates/bowl/src/bowl.rs:3386-3402 | The retirement loop forgets, in the table it is given, and forces exactly what the specification says |
| Running.PhaseRunner.ReconcileRemoved | crates/bowl/src/bowl.rs:3336-3368 | The committer's table, the planners and the removal lists end as specified |
| Running.PhaseRunner.SnapshotLocked | crates/bowl/src/bowl.rs:2824-2834 | Returns the cached snapshot iff its key still matches, and caches a fresh one otherwise |
| Running.PhaseRunner.LaunchRuns | crates/bowl/src/bowl.rs:2029-2042 | The loop over settle systems and their rows launches exactly the rows the taken table does not have on record |
| Running.PhaseRunner.CommitSettled | crates/bowl/src/bowl.rs:2044-2046 | A settle run's commit, on the objects, is exactly the machine's, stale and accepted branch alike |
| Running.PhaseRunner.CommitHook | crates/bowl/src/bowl.rs:1994-2001 | So is a hook's |
| Running.PhaseRunner.PutTableBack | crates/bowl/src/bowl.rs:2047-2048 | The settle's table replaces the shared one |
| Running.PhaseRunner.HealRows | crates/bowl/src/bowl.rs:1974-1975 | The evicted entries leave the shared table and their rows are forced back, as specified |
| Running.PhaseRunner.AdmitPlanned | crates/bowl/src/dispatch/plan.rs:84-101 | The admission loop over planned rows is the specified fold |
| Running.PhaseRunner.PlanSystem | crates/bowl/src/bowl.rs:2389-2452 | Gate, hint, enumeration and admission of one system are exactly the machine's planning step |
| Running.PhaseRunner.PlanWave | crates/bowl/src/bowl.rs:2327-2454 | A whole wave is the run of planning steps its trail records |
| Running.WaveShutsGates | crates/bowl/src/bowl.rs:2327-2454 | A wave begun soundly ends with the invariant, nothing missed but orphans, no run lost, and, without interference, every gate shut or a conflict waiting |
| Running.CommitIsStep | crates/bowl/src/bowl.rs:3181-3377 | What the commit method does is an enabled step of the machine and keeps its invariant |
| PhaseLoops.AnyGateOpen | crates/bowl/src/bowl.rs:2333-2350 | The peek over all systems is true iff some gate of the phase is open, and changes nothing |
| PhaseLoops.Plan | crates/bowl/src/bowl.rs:2327-2454 | A planning decision walks the machine: a whole wave if a gate is open, else the finding that none is |
| PhaseLoops.CommitBatch | crates/bowl/src/bowl.rs:2470-2492 | A batch of finished runs, in any order and with other people's lock sections between their commits, walks the machine and leaves the loop's own state alone |
| PhaseLoops.Visit | crates/bowl/src/bowl.rs:1979-2053 | A lock section of another settle, of healing, or of a mutation that waits for nobody, taken while the loop awaits, is a step of the machine that leaves the loop alone unless it interferes |
| PhaseLoops.Drain | crates/bowl/src/bowl.rs:2305-2325 | A preemption walks the machine; the boundary is reached iff no writer is left in flight |
| PhaseLoops.RunPhase | crates/bowl/src/bowl.rs:2275-2503 | The whole phase loop, on the objects it updates: whatever finishes in whatever batches, whoever asks to preempt, and whatever others do between its lock sections, it walks the machine and keeps its invariant; when it completes, nothing is missed but orphans, every gate is shut unless others interfered, and with every gate shut the phase has converged; when it is preempted, nothing is in flight |
| PhaseLoops.Restart | crates/bowl/src/bowl.rs:2209-2228 | The restart after a preemption resets every planner and is a step of the machine |
| Tallies.CountersDecide | crates/bowl/src/access.rs:67-74 | Whenever the counters are exact, the counter test says conflict iff the access meets some access of some live record |
| Tallies.TotalIsWholePlusRows | crates/bowl/src/access.rs:60-98 | In every component, total = whole-store + sum of the rows |
| Tallies.AddIsExact | crates/bowl/src/access.rs:76-82 | Counting an access keeps the counters equal to the tallies of what is held, with no row at zero |
| Tallies.RemoveIsExact | crates/bowl/src/access.rs:84-97 | Uncounting a held access cannot underflow and keeps them equal |
| ReservationTable.Reservations.Resolve | crates/bowl/src/access.rs:119-131 | A component type gets its schema slot, or one fresh slot kept ever after |
| ReservationTable.Reservations.CountersAreOracle | crates/bowl/src/query.rs:394-402 | The counter test on a resolved access equals the pairwise rule against all live claims |
| ReservationTable.Reservations.AnyConflict | crates/bowl/src/access.rs:206-208 | The scan over a request is true iff some live claim conflicts with it pairwise |
| ReservationTable.Reservations.Admit | crates/bowl/src/access.rs:201-214 | Duplicate iff the owner is live; else conflict iff the pairwise oracle blocks it; a rejection changes no claim, owner, slot or count; an admission issues an id never issued before |
| ReservationTable.Reservations.Insert | crates/bowl/src/access.rs:152-164 | Files the record under the last freed slot or a new one, under an id never issued before |
| ReservationTable.Reservations.Remove | crates/bowl/src/access.rs:222-228 | A live id yields its owner and leaves; a stale id changes nothing; the counters stay exact |
| ReservationTable.Reservations.Contains | crates/bowl/src/access.rs:216 | True iff the id is live |
| ReservationTable.Reservations.IsWriter | crates/bowl/src/access.rs:218-220 | True iff the live claim holds a write |
| ReservationTable.Reservations.CancelReaders | crates/bowl/src/access.rs:230-237 | What is left is exactly the writers, with counters to match |
| ReservationTable.MeetsIsConflict | crates/bowl/src/query.rs:394-402 | Numbered accesses meet exactly when the accesses conflict |
| ReservationTable.VacatedIsIssued | crates/bowl/src/access.rs:171-181 | Vacating a slot puts its id behind the slot's generation, or, with generations exhausted, retires the slot |
| ReservationTable.RetiredIdsStayRetired | crates/bowl/src/access.rs:151-181 | Over every run, an issued id that is no longer live is never live again, however often its slot is reused |
| TableAdmission.BlockedIsRefused | crates/bowl/src/access.rs:201-214 | While the live claims mirror the runs in flight, the table blocks exactly the rows the phase machine refuses, and knows as owners exactly those in flight |
| TableAdmission.BlockedIsDisturbed | crates/bowl/src/access.rs:201-214 | So its counters block a row iff the row and some run in flight get in each other's way, as the queries' fields have it |
| TableAdmission.AdmitRow | crates/bowl/src/dispatch/plan.rs:84-101 | One planned row admitted by the table does exactly what the machine's admission does, a remembered row leaves the table alone, and the claims go on mirroring the runs |
| TableAdmission.ReleasedMirrors | crates/bowl/src/bowl.rs:2478-2484 | They do when a run returns and its claim is released |
| TableAdmission.PreemptedMirrors | crates/bowl/src/bowl.rs:2312-2313 | And when a preemption drops the readers and the table cancels theirs |
| Retirement.RemoveOwned | crates/bowl/src/world.rs:1404-1416 | The owner leaves the index, its outputs leave the world, nothing else but inverse listings changes |
| Retirement.RemoveTouched | crates/bowl/src/world.rs:1506-1539 | Exactly the selected owners keyed in the set retire, and the entities reported are exactly those their outputs were on |
| Retirement.Follow | crates/bowl/src/bowl.rs:3413-3438 | The frontier loop ends; it has visited the least set that holds the roots and is closed under "an owner keyed in it has its outputs in it"; no selected owner and no memo is keyed in that set; it says yes iff something retired |
| Retirement.FollowedFurther | crates/bowl/src/bowl.rs:3427-3435 | Following one frontier in what is left of the graph finds what the whole graph would |
| Retirement.DropOwners | crates/bowl/src/bowl.rs:3386-3402 | Exactly the selected owners lose their memo, and exactly those that had one are forced back |
| Retirement.RetireInCommit | crates/bowl/src/bowl.rs:3336-3368 | The commit's retirement leaves nothing keyed by a removed entity if and only if the cascade was not short-circuited, or there was nothing to clear; it forces exactly the owners that lose an entry, and the phases stay converged iff none did and no output went |
| CutShort.MemoOutlivesItsKey | crates/bowl/src/bowl.rs:3336-3368 | A concrete world, buffer and memo: the commit drops another invocation's output and removes an entity, its retirement is cut short, and an invocation keyed by the removed entity keeps its memo and its output |
| CutShort.CommitAndRetire | crates/bowl/src/bowl.rs:3351-3362 | The same over every world in which those outputs are found |
| Retirement.RemoveRoots | crates/bowl/src/bowl.rs:3477-3479 | After the root loop no root holds a component, and every other ordinary entry is as it was unless its edge pointed at a root; the owners returned are exactly those with a component still on its root when the root's turn came |
| Retirement.RetractOwners | crates/bowl/src/bowl.rs:3480-3483 | The listed owners keep neither outputs nor memo, and nobody else loses an ordinary entry |
| Retirement.CleanupBound | crates/bowl/src/bowl.rs:3454-3484 | Bound cleanup visits the same least fixed point for all systems, empties every root, and leaves no owner and no memo keyed in what it visited; an owner found on a root keeps neither outputs nor memo, and any other one the cascade spared keeps its memo and its outputs but those on a root or pointing at one |
| RootOrder.FoundInEveryOrderIff | crates/bowl/src/bowl.rs:3476-3479 | An owner is found on the roots in whatever order they come, iff some of them each have a component of its that none of the other roots can take along |
| RootOrder.PlainComponentIsFound | crates/bowl/src/bowl.rs:3476-3483 | In particular if one of its components on a root is no edge |
| RootOrder.EdgeBetweenRootsIsMissed | crates/bowl/src/bowl.rs:3476-3483 | In any world where its only component on two roots is an edge from one to the other, which the cascade leaves alone: it is found in one order and not in the other |
| Spawning.SlotListsStayDisjoint | crates/bowl/src/world.rs:1045-1093 | Over every run, however often an invocation is in flight or held back, no id is shared by two invocations: not in slot lists, runs or held-back spawns |
| Spawning.SlotsStayDistinct | crates/bowl/src/world.rs:1045-1093 | And no list names an entity twice while no invocation is held back twice between two starts |
| Spawning.HeldTwiceIsListedTwice | crates/bowl/src/bowl.rs:2606-2609 | An id that is held back twice for an invocation is listed twice by the next start |
| Spawning.OverlapListsTwice | crates/bowl/src/bowl.rs:2018-2053 | A run of that kind, for any invocation and any id: of two settles that overlap after a start, the first keeps the slot and the second drops it, and the next start lists it twice |
| Spawning.RerunReusesIds | crates/bowl/src/commands.rs:142-155 | A commit leaves exactly the run's reserved ids in order; the i-th spawn of a rerun reuses the i-th id, and later ones are ids nobody had |
| Spawning.ActionKeepsOk | crates/bowl/src/commands.rs:142-155 | Begin, reserve, commit, hold back, discard, forget, allocate and start each keep the ledger sound; the allocator never goes back |
| Spawning.HeldBackKeepsReinstated | crates/bowl/src/bowl.rs:3236-3245 | Over every run, a settle-phase commit keeps the first slots of its invocation, as many as the starts since its last commit have reinstated; so the i-th spawn keeps its id iff i is below that number |
| Spawning.SettledRerunReusesIds | crates/bowl/src/bowl.rs:2606-2609 | In the usual cycle, held back, started, run again and held back, the i-th spawn has the i-th id it had, and the ids stay listed |
| Spawning.UnreinstatedRerunIsNew | crates/bowl/src/bowl.rs:3236-3245 | A run after a commit that nothing had been reinstated for spawns under ids nobody had |
| Spawning.CommitsExactly | crates/bowl/src/world.rs:1045-1093 | Recording and finishing a commit outside the settle phase leaves exactly the spawned ids, in order |
| Spawning.SpawnTable.RecordDerivedSpawn | crates/bowl/src/world.rs:1045-1060 | The slot at the cursor is overwritten or appended, and the cursor advances, wherever it stood |
| Spawning.SpawnTable.FinishDerivedSpawns | crates/bowl/src/world.rs:1081-1093 | Slots the commit did not reach are dropped, and an emptied list goes altogether |
| Spawning.SpawnTable.CommitSpawns | crates/bowl/src/commands.rs:267-274 | The loop of one commit leaves exactly the spawned ids, in order |
| Spawning.SpawnTable.CommitHeldBack | crates/bowl/src/bowl.rs:3236-3245 | A settle-phase commit, whose spawns are held back, keeps the slots up to the cursor a start has left |
| Spawning.SpawnTable.ReinstateHeld | crates/bowl/src/bowl.rs:2606-2609 | The start of a generation records what was held back, in order, and finishes nothing |
| Spawning.CommandBuffer.Insert | crates/bowl/src/commands.rs:142-155 | A spawn takes the next remembered id, or a fresh one when there is none |
| Epochs.InputsAreConserved | crates/bowl/src/bowl.rs:1612-1692 | Over every run each accepted input is exactly once applied, queued or deferred; plain inputs are applied in arrival order; without a settle nothing is deferred; a non-empty queue has a pending generation |
| Epochs.PromotionNeedsCover | crates/bowl/src/bowl.rs:2867-2884 | A deferred input is promoted only by a settle whose watermark covers it, or when the last settle leaves |
| Epochs.CoverPromotes | crates/bowl/src/bowl.rs:2873-2877 | And a settle that covers it leaves none behind |
| InputRuns.AppliedIffStarted | crates/bowl/src/bowl.rs:2592-2613 | Over every run, a queued input has been applied, in its turn behind what was applied before, iff a generation has started since |
| InputRuns.RestartsApplyNothing | crates/bowl/src/bowl.rs:2209-2228 | So an input queued under a running generation is never applied by it, however often it is preempted and restarted: its driver lets go first, and then a generation starts |
| InputRuns.OutstandingIsEnough | crates/bowl/src/bowl.rs:1808-1811 | Over every run, once the number outstanding at some moment is completed, every input queued then has been applied, and a generation pending or running then has been followed through to a publication |
| InputRuns.HandsOutstanding | crates/bowl/src/bowl.rs:1634-1640 | That number is what a queued insert, and a caller with nothing to add, are handed; a deferred insert is handed the number completed |
| InputRuns.PreemptingInputOutlivesGeneration | crates/bowl/src/bowl.rs:1652-1680 | A concrete run: a preempting input is accepted in the window, the generation restarts and publishes, and the input is still queued |
| Epochs.NoTargetIsLost | crates/bowl/src/bowl.rs:2076-2088 | Over every run that drops no driver in its disarmed stretch, every generation number handed out is completed, pending or actually driven, and no waiter's target is completed |
| Epochs.TargetsLost | crates/bowl/src/bowl.rs:2232-2248 | In any state, the targets lost are exactly the unfinished ones not covered by a pending generation, while a generation is marked running with no driver |
| Epochs.OnlyDisarmedDropSticks | crates/bowl/src/bowl.rs:2905-2915 | A step leaves a generation stuck iff it drops the driver after its guard was disarmed and before its result is stored |
| Epochs.StartUnsticks | crates/bowl/src/bowl.rs:2645-2646 | The next generation to start repairs it, for every target handed out so far |
| Epochs.DisarmedDropLosesTarget | crates/bowl/src/bowl.rs:2232-2248 | A concrete run that loses a target that way |
| Epochs.StepKeepsGenerations | crates/bowl/src/bowl.rs:2592-2647 | Completed stays strictly below any pending or running generation and never decreases |
| Epochs.StepKeepsWaiters | crates/bowl/src/bowl.rs:2249-2261 | No registered waiter's target is ever completed |
| Epochs.StepKeepsTargets | crates/bowl/src/bowl.rs:2912-2948 | Every number handed out stays accounted for, across completion and abandoned drivers |
| Epochs.StepKeepsOk | crates/bowl/src/bowl.rs:2710-2740 | Every step keeps inputs, generations, waiters, targets, flights and the preemption window consistent with each other |
| Epochs.MutationsFindNothingInFlight | crates/bowl/src/bowl.rs:2710-2740 | While a generation is driven, a preempting input, or an external mutation that goes through the boundary rule, is applied only in an open window with no invocation of the generation in flight |
| OpenWindows.AloneWindowIsQuiet | crates/bowl/src/bowl.rs:2710-2740 | Over every run in which settles overlap neither each other nor a generation, no invocation of anybody's is in flight when the window is open |
| OpenWindows.WindowFindsSettleRun | crates/bowl/src/bowl.rs:2556-2584 | Over every world in which a settle system has a row, a run from registration on that opens a generation's window while that row is in flight in another's settle phase; any mutation may then land |
| Epochs.DroppedNeverReturns | crates/bowl/src/bowl.rs:2312-2313 | Over every run, a reader dropped by a preemption never commits |
| Epochs.WritersReturnFirst | crates/bowl/src/bowl.rs:2314-2323 | A writer in flight when preemption begins has committed by the time the window opens |
| Scheduling.SharedState.Insert | crates/bowl/src/bowl.rs:1634-1680 | Queues or defers the input as specified, and the number it returns is one the protocol accounts for |
| Scheduling.SharedState.PromoteDeferredInputs | crates/bowl/src/bowl.rs:2867-2884 | Popping from the front moves exactly the covered prefix, schedules a generation iff it moved something, and says so |
| Scheduling.SharedState.EnterEpoch | crates/bowl/src/bowl.rs:2775-2783 | The settle's watermark is the arrival count at entry |
| Scheduling.SharedState.LeaveEpoch | crates/bowl/src/bowl.rs:2786-2801 | The last settle to leave promotes everything left |
| Scheduling.SharedState.WaitForGeneration | crates/bowl/src/bowl.rs:2132-2145 | Registers iff the target is not completed |
| Scheduling.SharedState.StartEvaluation | crates/bowl/src/bowl.rs:2592-2658 | Takes the pending generation, applies the whole queue, and changes nothing when none is pending |
| Scheduling.SharedState.FinishEvaluation | crates/bowl/src/bowl.rs:2232-2266 | Stores the completion and releases exactly the waiters it satisfies |
| Scheduling.SharedState.AbandonEvaluation | crates/bowl/src/bowl.rs:2912-2948 | Gives the generation back unless one is pending already, and wakes every waiter |
| Scheduling.RunPhases | crates/bowl/src/bowl.rs:2186-2230 | Ends; makes at most 3 * (4 + 1) = 15 phase calls; a call is cut short exactly when someone asked and the budget was not spent; evaluate follows startup, complete follows evaluate, startup follows a call cut short, and the last is a complete that was not; the last calls complete all phases in order, through startup if anything was cut short |
| Healing.PublishedIsHealed | crates/bowl/src/bowl.rs:1831-1887 | Whatever a settle goes through, when it publishes no current-epoch entry of a viewer outside the settle phase was planned before its views last moved, settle-phase removals included |
| Healing.MovedViewMakesVictims | crates/bowl/src/bowl.rs:1937-1943 | An entry that was fine becomes a victim iff one of its viewed stores moved, so the second pass is not redundant |
| Healing.HealTakesExactly | crates/bowl/src/bowl.rs:1937-1976 | A pass takes out exactly this epoch's entries of viewers outside the settle phase that some ambient view has outrun, leaves none such, and sends the settle back iff there was one |
| Healing.PublishingEndsEpoch | crates/bowl/src/bowl.rs:2857-2863 | A settle that publishes a new revision ends its epoch: no entry published is ever a victim of the one that begins, whatever moves later; with nothing new the epoch goes on |
| Healing.AdvanceKeepsOk | crates/bowl/src/bowl.rs:1913-1978 | Each stretch of the settle loop keeps what its stage has established |

## Left out

- NothingMissed.NoRowIsEverMissed: systems with joined queries, bound-entity take and drain, and the external-despawn cascade are not part of this machine; they drop memos without forcing the rows back. `Retirement` has their fixed points and `Hints` the planning of joins. What is on record counts in whichever table it is, while the table is held or kept.
- NothingMissed.CompletedPhaseHasConverged: a gate opened by a mutation, or by another settle's commit, that did not wait for a boundary is closed only by the next generation; orphans are excused, and on record means in some table.
- Compactions.CompactedPlanningIsComplete: asks that untracked join keys, and member lists outside the hint, be held. A compaction under a shut gate drops the only trace of a maintained inverse whose new member list happens to have an equal fingerprint; by `InverseStamps.UnmovedListIsHeld` that is the only way a tracked one is not held.
- Compactions.TurnKeepsOk: one system at a time, with its plan taken as it is read: gate, hint and cursor; what the evaluator does with the hint is in `PhaseProofs`.
- Hints.LogPlanningIsComplete: needs that no untracked join key was restamped outside the hint, because the code logs nothing for it.
- WorldRuns.CachedSnapshotPlansTheSame: asks that untracked keys and member lists be held; a maintained inverse whose new member list happens to have an equal fingerprint moves no counter.
- Retirement.RetireInCommit: on values, with the world passed from call to call, where the source updates it in place; `PhaseRunner` has the in-place form for systems that are not pair-bound.
- Retirement.CleanupBound: not claimed to equal cleaning the roots one by one.
- PhaseLoops.RunPhase: what finishes when, who asks, and what others do in between come as a list of wakes, and a list that runs out leaves the loop waiting. Others have the lock where the loop awaits a run and between the commits of a batch; the machine also lets them in between the turns of a wave.
- AnchorSweeps.SourceOutlivesSweepIff: where a swept edge points at the entity, its inverse is rewritten, removed, or, with an equal fingerprint, kept at its revision; the condition is then stated on the swept world.
- Scheduling.RunPhases: whether the generation starts with the startup slot, and when someone asks to preempt, are parameters.
- Epochs.InputsAreConserved: the two lock sections of a preempting insert are one step, taken at the boundary.
- Healing.PublishedIsHealed: one driver and no external writer, with healing enabled; the panic after 128 attempts is not modelled.
- ReservationTable.Reservations.Admit: asks for a slot number to be left for a request that is admitted (the source panics); batches of `on_start` and `on_complete` reserve nothing, so nothing is claimed about them.
- The phase loop's method decides conflicts by the pairwise rule; `TableAdmission` has the table doing the same row by row, with records released and cancelled in step.
- Compound join keys, outer joins, `Related`, and joined queries whose provider is itself joined.
- An equality join whose provider has no fingerprint: the source panics, the model yields no row.
- The 4096-entry budget of the write log: compaction may happen at any generation boundary.
- What a settle phase held back is reinstated in the world by an arbitrary change of it at the next start; `Spawning` has what that does to spawn slots.
- Singletons, registration of systems while the bowl runs, systems of unbounded interest, what makes a settled hook fire, and commit limits.
- Typed claims of facets, the schema's shape conformance checks, and other checks of debug builds.
- Futures, wakers, dispatch batching, locks and component cells: a lock section is one step, and a cell is never busy.
- Wrap-around of 64-bit revision, mutation and generation counters (run ids do model their 32-bit generation and slot space).
- Hashing: stamps are given with the value, and maintained inverses and captured anchors are stamped by functions of the schema.
- `explain`, metrics, profiling, `prepared.rs`, `planning.rs`, `declare.rs` and the procedural macros.
