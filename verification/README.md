# Verified models of the KV caches and of the weight and config rewrites

This project models two parts of the repository and proves what they are for.

**The caches (`kvcache/`).** A cache keeps keys and values for many sequences in one array of
cells, tagged with a position and the set of sequences that share the cell. It evicts what a
sliding window no longer reaches, shares prefixes between sequences, cuts tails and middles, turns
the keys of moved cells, and hands attention a mask over a narrowed range of cells. The recurrent
cache adds reference-counted state slots with copy-on-write and a ring of checkpoints per slot.
All of that has to look, at every step, like something much simpler: every sequence owns its whole
token history, and a private state that is the fold of that history.

**The rewrites (`convert/`).** Head reordering and QKVZ splitting for one model family, the two
rotary layouts, the four-bit nibble shuffle, and the scanner that makes Python-flavoured JSON
readable.

## How the model is laid out

Code that changes things step by step is imperative here too: classes with the source's fields,
arrays updated in place, the source's loops. Every such method is proved against a function on
values, and what the cache promises is proved about those functions.

- `CacheModel`, `Eviction`, `Forward`, `Sharing`, `Ranges`, `Rows`, `Rotation`, `Undo` describe the causal
  cache as values; `Attention`, `Capacity`, `Runs`, `Recovery` hold its main theorems; `Causal` (with
  `CausalFacts`) is the class, `Wrapper` the cache made of several.
- `Checkpoints` is the checkpoint ring, `Slots` the slot table; `RecurrentModel` and `Passes` put
  them together as values. `RecurrentSteps` names the operations of the cache as steps between
  values, failed ones included; `Recurrent` (with `RecurrentFacts`) is the class, whose methods are
  proved to take those steps. `Order` and `Layout` say which row of a pass belongs to which entry of
  its batch. `Reference` is what the cache stands for, private histories and states;
  `CleanSlots` and `RecurrentRuns` hold the theorems about steps and whole runs, `Spacing` and
  `SpacingRuns` those about where the checkpoints of a sequence lie; `Outliving` and `Limits` say what
  a caller has to look out for, `OnePass`, `ManyPasses` and `Samples` are runs that show it.
- `Tensors` is row-major reshape and transposition; `HeadLayout`, `QkvzSplit`, `Rotary`, `Nibbles`
  and `SanitizeJson` are the rewrites. `Arithmetic` and `Padding` hold the arithmetic they share,
  `Tokens` and `Wrappers` two types used throughout.

Conventions worth knowing when reading contracts:

- `hist` is the reference: the full token history of each sequence. `Holds(cells, s, q)` says that
  position `q` of sequence `s` is stored. `SeqOk` is the structural invariant of one sequence: its
  stored positions are a gap-free end piece of its history, one cell each, with the right tokens.
- A key row is what it was computed from (a token) and the rotary position it is turned to. The
  backend may refuse to turn the rows of a view; which ones is the field `refuses`, given by the layer
  and the location the view starts at, and nothing is supposed of it.
- A state row is the sequence of tokens folded into it. Two rows that are equal in this reading are
  equal under every step function, so "the state is the fold of exactly these tokens" is equality.
  The conv and the recurrent buffer of a layer are two values of one type `Buffer`. One `Rec` holds
  the slot table, the buffers, the rings and the history folded into every slot, used or not.
- Iteration over a Go map takes its next key by an arbitrary choice.
- `broken` holds the sequences a failed middle removal has left behind, until they are emptied.
- `tainted` holds the slots whose checkpoints are not claimed to be checkpoints of the slot's own state.
  Every operation says exactly what becomes of it. The theorems about runs do not mention it.
- A sequence is in step when its KV history is what its private state holds (`InStep`): this is a
  comparison of the two, not a mark.
- The reference keeps two accounts from the calls alone: the sequences in `lag`, which have tokens their
  state does not hold, and those in `doubt`, for which a rollback may go wrong. A sequence comes into
  doubt by being cut in the middle, taken through a pass out of step, copied from one in doubt, or
  given a slot after a copy has left checkpoints behind or while slots run out; emptying it ends the
  doubt. Over runs with
  none of that nobody ever is (`RecurrentRuns.CarefulRuns`).
- The positions at which a sequence has had checkpoints taken are a third account (`Spacing.MarkStep`),
  kept from the calls in the same way.

What callers owe, as `requires`: batches are not empty and continue their sequences
(`Continues`), positions are int32 values, keys of the last pass have been put before the next one
starts (`Settled`), source and destination of a copy differ, a pass updates every state buffer, state
is read before it is updated, and a rollback follows its `PrepareRestore`.

## Where the code is weaker than one would like

These are modelled as they are, each with an input on which it shows and the exact condition under
which it does not.

- Cutting a middle out of a windowed cache can leave the next token's window reaching evicted
  positions. Input: `Attention.MiddleRemovalLosesWindow`. Condition: `Attention.ResumableAfterRemove`.
- `Recurrent.CopyPrefix` frees the slot of its destination without clearing the checkpoints there. The
  next sequence on that slot is offered them: a new sequence, or a copied one when its first pass moves
  it there and it has none of its own. Input: `Outliving.CheckpointOutlivesSequence`,
  `Outliving.CheckpointOfAnotherState`. Condition, to be tested before the call: it does not happen
  exactly when the destination shares its slot or `PrepareRestore` up to the end finds nothing there
  (`CleanSlots.CopyClean`, `Outliving.CopyThenNew`, `Outliving.CopyThenPass`).
- `Recurrent.Remove` in the middle moves tokens and checkpoints down, and leaves the state alone. Input:
  `Samples.MovedCheckpointIsWrong`, a rollback that restores the cut token. Condition: the sequence can go
  on exactly when nothing was cut (`Limits.MiddleExact`), and rollbacks that keep no more than the tokens
  before the cut stay right (`Limits.MiddleKeepsEarlier`, `Limits.RollBackBeforeCut`).
- `Recurrent.Remove` from position 0 gives up the whole state even when `endIndex` leaves tokens behind
  it. Input: `Samples.RemoveStartLosesState`. Condition: the sequence can go on exactly when its length is
  at most `endIndex` (`Limits.RemoveStartExact`).
- A sequence copied short of its source shares the source's whole state. Input:
  `Samples.ShortCopyRunsAhead`. Condition: it can go on without a rollback exactly when the source is no
  longer than the length copied (`Limits.CopyExact`).
- An uneven batch is refused after the KV cache has stored it. Input: `Samples.UnevenRefused`. Condition:
  just the sequences of the batch cannot go on (`Limits.RefuseExact`); the batch is refused exactly when
  its sequences do not bring equally many tokens (`Recurrent.RecurrentCache.StartForward`).
- A batch of several sequences is accepted in any order of its entries, while `SeqTokens` and `NumSeqs`
  describe it as a matrix. Input: `Layout.InterleavedRows`, two sequences taking turns. Condition: entry `j`
  belongs to row `j / SeqTokens()` for every `j` exactly when the entries of each sequence stand next to each
  other (`Layout.DivisionIsRow`).
- When slots run out in the middle of setting up a batch, the sequences that did get one find a former
  state in it. Input: `Samples.SlotsRunOut`. Condition: slots suffice exactly when no more sequences of
  the batch lack one than are free (`Limits.SlotsSuffice`).
- The comment in `kvcache/wrapper.go` that a tail removal does not fail is true of `Causal`
  (`Sharing.RemoveTail`) and not of `Recurrent`. Input: `Samples.TailRefused`. Condition: it is refused
  exactly without a pending checkpoint at the place, and there is one to prepare exactly when a live
  checkpoint lies below the target (`Recurrent.RecurrentCache.RemoveTail`,
  `Recurrent.RecurrentCache.PrepareRestore`); none does in any run whose positions stay below 16
  (`Limits.ShortRunsKeepTails`).

## Model

| member | source | states |
|---|---|---|
| Attention.AttentionRefinement | kvcache/causal.go:362-389 | the cells the mask leaves open for a batch token, with window, chunk and Except, are position by position and token by token what attention over the full history sees |
| Attention.PassWindowStored | kvcache/causal.go:307-347 | the hypothesis of the refinement holds for every token of a batch whose sequences are new or could resume; StartForward promises it for all of them |
| Attention.ResumableAfterRemove | kvcache/causal.go:615-654 | after a removal the sequence can resume at its new end exactly when its new window starts behind the cut or at a stored position |
| Attention.MiddleRemovalLosesWindow | kvcache/causal.go:616-620 | a concrete middle removal after which the next window reaches a position that is gone |
| Padding.PadRangeWithin | kvcache/causal.go:351-366 | padding widens the range to whole blocks and no further, stays inside the padded cell array, and changes nothing when done again |
| Eviction.EvictionOrderIrrelevant | kvcache/causal.go:323-348 | the cells after eviction are the same for every order in which the sequences are visited |
| Eviction.EvictKeeps | kvcache/causal.go:323-348 | eviction keeps every sequence sound and removes exactly its positions below the threshold |
| Ranges.WindowHullUnique | kvcache/causal.go:340-343 | the current range left by eviction is determined by the cells in the batch's windows, whatever the visiting order |
| Ranges.HullMeaning | kvcache/causal.go:330-347 | a cell range is the smallest one covering the cells of its sequence |
| Forward.EvictedKeeps | kvcache/causal.go:273-349 | after eviction a sequence is sound and holds exactly the positions its memory keeps |
| Forward.ForwardEffect | kvcache/causal.go:198-248 | a pass appends its tokens to the histories, keeps every sequence sound, and stores exactly what memory keeps plus the new positions |
| Forward.ResumabilityInductive | kvcache/causal.go:520-547 | a sequence that could resume at its next position still can after any pass, in it or idle |
| Forward.PlacedKeeps | kvcache/causal.go:214-232 | storing a batch in free cells keeps sequences gapless with one cell per position |
| Forward.FoundFirst | kvcache/causal.go:258-271 | the cells found are the first free ones from the lowest up; none are found exactly when fewer are free than asked for |
| Capacity.CapacitySuffices | kvcache/causal.go:168-174 | a cache of the size Init computes has room for every batch within the numbers given to Init |
| Capacity.WindowedCapacity | kvcache/causal.go:171-173 | with finite memory: the union bound of per-sequence windows leaves a batch's worth of free cells |
| Capacity.UnlimitedCapacity | kvcache/causal.go:169-170 | with unlimited memory: per-sequence capacity leaves room for the batch |
| Capacity.UnionBound | kvcache/causal.go:258-271 | shared cells are counted at most once per sequence holding them |
| Runs.RunSafe | kvcache/cache.go:57-76 | over every run of passes, copies and removals that go through, histories are what a reference without cells computes, all sequences stay sound, and unlimited memory loses nothing |
| Recovery.RunHealthy | kvcache/causal.go:615-666 | the same over runs that go on after failures: whatever fails on the way, every sequence no failed removal has left behind is sound, has the reference's history and loses nothing |
| Recovery.EmptyingRepairs | kvcache/causal.go:615-666 | at the end of any such run, removing a sequence up to the sentinel cannot fail and repairs it |
| Recovery.StepHealthy | kvcache/causal.go:198-248 | one step, gone through or failed, damages at most the sequence it was asked for |
| Runs.RunNeverFull | kvcache/causal.go:258-271 | after any run a batch within the caller's limits is stored; ErrKvCacheFull is not reached |
| Runs.ResumableForever | kvcache/causal.go:520-547 | over any run of passes a resumable sequence stays resumable |
| Sharing.CopyEffect | kvcache/causal.go:497-518 | the copy holds exactly the source's positions below len, and no other sequence changes |
| Sharing.RemoveEffect | kvcache/causal.go:615-654 | after a removal the sequence is sound and holds exactly the kept positions, moved down behind the cut |
| Sharing.RemoveTail | kvcache/causal.go:622-654 | a removal up to the sentinel is never blocked and moves no cell: exactly the sequence's marks from beginIndex on go |
| Sharing.RemoveSound | kvcache/causal.go:622-654 | what a removal leaves of the sequence is again a gap-free end piece with the right tokens |
| Sharing.RemoveFrame | kvcache/causal.go:630-651 | however far a removal gets, no other sequence sees a difference |
| Rotation.RotationAgrees | kvcache/causal.go:549-613 | after a middle removal the row of every moved cell is turned once, by the distance the cell moved, and every other row is what it was; so rows match their cells again |
| Rotation.RemoveKeeps | kvcache/causal.go:615-666 | a successful removal keeps every stored row its token's key at the cell's position |
| Rotation.RemoveKeepsOthers | kvcache/causal.go:593-607 | a removal whose shift fails part of the way leaves the rows of all other sequences right |
| Rotation.FailedRemoveKeeps | kvcache/causal.go:641-643 | a removal stopped by a shared cell keeps the invariant of all other sequences |
| Rotation.CopyKeeps | kvcache/causal.go:497-518 | a copy keeps ranges, soundness and rows |
| Rows.ViewAttends | kvcache/causal.go:411-447 | the key view and mask handed to attention give exactly the keys of the history the token may see |
| Rows.PutKeeps | kvcache/causal.go:449-495 | writing the rows of a layer at the batch's locations completes that layer and disturbs no other row |
| Rows.CarryForward | kvcache/causal.go:198-232 | starting a pass keeps all old rows right, only the new cells waiting for theirs |
| Undo.UndoRestores | kvcache/wrapper.go:48-53 | starting a pass and undoing it leaves each undamaged sequence its history and its positions less those its window rule evicted |
| Undo.UndoSettles | kvcache/wrapper.go:48-53 | after the undoing no cell waits for a row |
| Undo.LastPositionSurvives | kvcache/wrapper.go:44-60 | a failed pass costs no sequence its last position |
| Causal.Causal.Init | kvcache/causal.go:130-182 | from the sizes given alone: the memory wanted is the given one or the window, raised above the window for parallel sequences, and unlimited when it reaches the capacity; refused exactly when it is left short of the window; cells for sequences times memory plus a batch, or times capacity, rounded up to the padding |
| Causal.Causal.UpdateSlidingWindow | kvcache/causal.go:273-349 | the loops over maps, in any order, compute the eviction function, and the current range misses nothing the batch's windows reach |
| Causal.Causal.LastPosition | kvcache/causal.go:312-316 | the last position an idle sequence has stored |
| Causal.Causal.FindFree | kvcache/causal.go:258-271 | the first free cells, or none when there are too few |
| Causal.Causal.StoreBatch | kvcache/causal.go:214-232 | the batch is stored at its locations, ranges and current range extended to cover them |
| Causal.Causal.FillMask | kvcache/causal.go:368-380 | every entry of the mask buffer is the masking condition of its token and cell |
| Causal.Causal.BuildMask | kvcache/causal.go:362-389 | the padded range stays in the cells and a rebuilt mask leaves it unchanged |
| Causal.Causal.StartForward | kvcache/causal.go:198-248 | succeeds exactly when the model's step does and leaves its state, or only the expired positions gone; every token of a sequence that could resume has its window stored, as Get asks; with limited memory nothing is held further behind the start of the pass than that memory |
| Causal.Causal.SetCausal | kvcache/causal.go:402-409 | the mask follows the new exceptions and nothing else changes |
| Causal.Causal.Put | kvcache/causal.go:449-495 | the layer's rows are set at the batch's locations |
| Causal.Causal.Get | kvcache/causal.go:411-447 | for every batch token whose window is stored, keys and mask attend to exactly its visible history |
| Causal.Causal.CopyPrefix | kvcache/causal.go:497-518 | the cells after the copy, its range the hull of its cells |
| Causal.Causal.CanResume | kvcache/causal.go:520-547 | true exactly when the whole window at pos is stored and pos is not beyond the end |
| Causal.Causal.Shift | kvcache/causal.go:549-613 | not supported exactly without a shift function; failing exactly when the backend refuses a view it needs; otherwise the chunked loop turns exactly the moved cells' rows |
| Causal.Causal.Remove | kvcache/causal.go:615-666 | the model's step, or the cells up to the first one that cannot be moved, or all moved and the rows not turned, and which of them by conditions on the cache before the call; only the sequence itself is damaged; never fails up to the sentinel |
| Wrapper.WrapperCache.StartForward | kvcache/wrapper.go:44-60 | all caches started, or the one that is full and those before it are restored and those after it untouched, whichever sequences earlier failures have damaged |
| Wrapper.WrapperCache.Remove | kvcache/wrapper.go:100-110 | no cache's other sequences change, up to the sentinel nothing fails |
| Wrapper.WrapperCache.CopyPrefix | kvcache/wrapper.go:84-88 | the copy on every cache |
| Wrapper.WrapperCache.CanResume | kvcache/wrapper.go:90-98 | true exactly when every cache can resume |
| Wrapper.UnwoundAgrees | kvcache/wrapper.go:44-60 | after a failed pass all caches still agree on every undamaged history and none has lost a last position |
| Checkpoints.RingRunSafe | kvcache/recurrent_checkpoints.go:53-183 | through any mix of planned records, prunes, shifts, resets and copies between stores, fresh or used: live <= size <= n, size 0 just when nothing is live, live positions distinct and not beyond lastPos |
| Checkpoints.RecordAllLeavesLast | kvcache/recurrent_checkpoints.go:53-65 | m records in a fresh store leave exactly the last min(m, n) positions |
| Checkpoints.PruneKeeps | kvcache/recurrent_checkpoints.go:86-126 | pruning keeps the store invariant |
| Checkpoints.ShiftKeeps | kvcache/recurrent_checkpoints.go:128-183 | shifting keeps the store invariant |
| Checkpoints.RebuiltRecords | kvcache/recurrent_checkpoints.go:113-125 | after pruning or shifting, the next position takes a dead entry while there is one, and otherwise the lowest |
| Checkpoints.CopyGoesOn | kvcache/recurrent_checkpoints.go:403-439 | whatever is recorded afterwards, a copied store has the same positions in the same places as its source |
| Checkpoints.ResetGoesOn | kvcache/recurrent_checkpoints.go:44-51 | and a cleared store those of a fresh one |
| Checkpoints.CheckpointStore.Record | kvcache/recurrent_checkpoints.go:53-65 | the ring after a record and the place used |
| Checkpoints.CheckpointStore.BestIndex | kvcache/recurrent_checkpoints.go:67-84 | the greatest live position below the target, or none exists |
| Checkpoints.CheckpointStore.PruneAfter | kvcache/recurrent_checkpoints.go:86-126 | everything beyond pos dies and the bookkeeping is rebuilt from what is left |
| Checkpoints.CheckpointStore.ShiftRange | kvcache/recurrent_checkpoints.go:128-183 | entries in the range die, later ones move down, bookkeeping rebuilt with the greatest position left |
| Checkpoints.CheckpointStore.CopyFrom | kvcache/recurrent_checkpoints.go:403-439 | positions and bookkeeping taken over, saved rows written over the old ones |
| Slots.NoExhaustion | kvcache/recurrent.go:327-334 | while sequences do not outnumber slots, neither first use nor a copy-on-write detach finds the free list empty |
| Slots.TakeAllFits | kvcache/recurrent.go:237-254 | the sequences of a batch all get slots exactly when no more of them lack one than are free; otherwise the free ones are used up |
| Slots.Pigeonhole | kvcache/recurrent.go:327-334 | k slots none of which is free have at least k users, more when one is shared |
| Slots.AllocNewKeeps | kvcache/recurrent.go:245-254 | first use keeps counts equal to users and the free list exactly the unused slots |
| Slots.DetachKeeps | kvcache/recurrent.go:382-388 | so does a detach |
| Slots.ShareKeeps | kvcache/recurrent.go:435-443 | so does sharing a slot |
| Slots.ReleaseKeeps | kvcache/recurrent.go:532-549 | so does giving up a slot |
| RecurrentModel.ZeroedKeeps | kvcache/recurrent.go:343-364 | zeroed slots hold the empty history in every buffer, and no other slot changes |
| RecurrentModel.DetachedKeeps | kvcache/recurrent.go:367-398 | copy-on-write keeps every private state and every claim about checkpoints |
| RecurrentModel.CaptureKeeps | kvcache/recurrent_checkpoints.go:441-493 | a checkpoint being taken stays one of its slot's state, part by part |
| RecurrentModel.WrittenKeeps | kvcache/recurrent.go:626-635 | writing one more buffer of a pass keeps every row the fold of the history it should have |
| RecurrentModel.RestoredKeeps | kvcache/recurrent_checkpoints.go:330-355 | restoring puts a slot back at the first pos + 1 tokens of its own history, and no other slot changes |
| RecurrentModel.ShiftedKeeps | kvcache/recurrent_checkpoints.go:397-401 | shifted checkpoints stay complete |
| RecurrentModel.CreatedKeeps | kvcache/recurrent.go:584-610 | a lazily created buffer reads what it read before it was created |
| Passes.HighestIsLast | kvcache/recurrent_checkpoints.go:236-242 | the highest position of a sequence in a batch is where its history ends |
| Passes.EvenTest | kvcache/recurrent.go:214-221 | the division test accepts exactly the batches whose sequences bring equally many tokens |
| Order.RowIsRank | kvcache/recurrent.go:215-221 | row i of a pass belongs to the sequence that exactly i others appear before in the batch |
| Order.EntryRow | kvcache/recurrent.go:215-221 | every entry of the batch has a row, the one of its own sequence |
| Layout.DivisionIsRow | kvcache/recurrent.go:209-231 | dividing the index of an entry by the tokens per sequence gives its row for all entries exactly when the entries of each sequence stand next to each other |
| Layout.InterleavedRows | kvcache/recurrent.go:209-231 | a concrete batch that is accepted and whose second entry is not of the row the division gives |
| Passes.BeginSync | kvcache/recurrent.go:179-267 | once the batch is stored, histories are ahead of private states by exactly the pass's tokens for just those sequences whose state held exactly their history |
| Passes.OpeningKeeps | kvcache/recurrent.go:237-305 | handing out and zeroing slots for a pass keeps the whole invariant and every private state |
| Passes.OwnRun | kvcache/recurrent.go:367-398 | making the slots of a pass private, one after the other, changes nobody's state |
| Passes.WriteIsPrivate | kvcache/recurrent.go:672-682 | a pass's rows reach the sequences they are for and no other, in the pass or outside |
| Passes.FinishFolds | kvcache/recurrent.go:732-742 | with the last buffer, each private state has moved on by its sequence's tokens and no other has changed |
| Passes.UpdatedKeeps | kvcache/recurrent.go:672-742 | an update with its captures keeps the whole invariant |
| Passes.UpdatedSync | kvcache/recurrent.go:672-742 | an update keeps private states in step with KV histories |
| Passes.IdleReads | kvcache/recurrent.go:617-624 | between passes every buffer, created or not, reads a sequence's private state |
| Passes.CopiedKeeps | kvcache/recurrent.go:421-444 | a copied sequence starts with the source's state, and no other is affected |
| Passes.RollbackAgrees | kvcache/recurrent_checkpoints.go:302-355 | one restore, of a checkpoint that is its slot's own: k <= t tokens kept, and the state in every buffer is the fold of exactly the first k tokens of the KV history |
| CleanSlots.StepKeeps | kvcache/recurrent.go:179-552 | every operation, careful or not, keeps slots, buffers, rings and pass sound |
| CleanSlots.StepClean | kvcache/recurrent.go:179-552 | an operation on a clean cache (no checkpoints in free slots, no slot tainted) leaves it clean, but for middle removals, passes on sequences out of step, and copies onto a sequence that leaves checkpoints behind |
| CleanSlots.CleanMeans | kvcache/recurrent_checkpoints.go:441-493 | in a clean cache every live checkpoint is complete and holds the fold of its slot's own history up to its position |
| CleanSlots.CopyClean | kvcache/recurrent.go:421-444 | a copy keeps the cache clean exactly when its destination does not leave checkpoints behind, which PrepareRestore tells before the call |
| CleanSlots.OwnTaints | kvcache/recurrent.go:367-398 | making the slots of a pass private gives up the claim on checkpoints for the sequences out of step, and only then |
| CleanSlots.MiddleTaints | kvcache/recurrent.go:457-489 | a middle removal gives up the claim on the checkpoints of its sequence's slot and of no other; which of them go wrong is said by Limits.MiddleKeepsEarlier and Samples.MovedCheckpointIsWrong |
| CleanSlots.OwningClean | kvcache/recurrent_checkpoints.go:403-439 | a detached sequence finds nothing of others on the slot it moves to |
| CleanSlots.StaleIsFound | kvcache/recurrent_checkpoints.go:302-328 | a slot has live checkpoints exactly when PrepareRestore up to the end finds one |
| RecurrentRuns.RunAgrees | kvcache/recurrent.go:179-742 | over every run of calls from Init, refused, failed and given up ones included, histories and private states are those of a reference with no slots, sharing or checkpoints |
| RecurrentRuns.RunReads | kvcache/recurrent.go:617-624 | at every point of every run, in a pass or not, each buffer, created or not, reads the reference's state for each sequence |
| RecurrentRuns.RollbackOverRuns | kvcache/recurrent.go:491-530 | at the end of any run, for any sequence the calls have not put in doubt or behind, whatever was done to others: PrepareRestore answering k for a target within the history, and Remove cutting there, leave k <= target, the first k tokens, and in every buffer the fold of exactly those, shared slot or not; nobody else changes |
| RecurrentRuns.CarefulRuns | kvcache/recurrent.go:421-489 | no sequence is ever in doubt in a run without middle removals, passes out of step, copies that leave checkpoints behind, or lack of slots |
| RecurrentRuns.StepTrusts | kvcache/recurrent.go:367-549 | after every call, a slot whose checkpoints may not be its own is used by sequences in doubt only |
| SpacingRuns.BeginPlans | kvcache/recurrent_checkpoints.go:244-258 | StartForward plans a checkpoint at the end p of a sequence exactly when 16 <= p and the last one of the store it uses is none or 1664 or more below p |
| SpacingRuns.UpdateTakes | kvcache/recurrent_checkpoints.go:441-493 | the first update of a pass takes the planned checkpoint, in one place of the store, and later ones add none |
| SpacingRuns.PassTakes | kvcache/recurrent_checkpoints.go:215-259 | a pass from StartForward to its last update, for every sequence of it that has its slot to itself, and in a cache with no checkpoints in free slots for all: the store takes a checkpoint at the end p exactly when 16 <= p and the last one was none or 1664 or more below, and is otherwise as it was, place by place |
| SpacingRuns.RunAccounts | kvcache/recurrent.go:179-742 | over every run, for every sequence not in doubt: all live checkpoints of its slot are in the account kept from the calls, and the last of the account is live and the last of the store |
| SpacingRuns.CheckpointNear | kvcache/recurrent_checkpoints.go:302-328 | over every run, for every sequence not in doubt, between passes: once its state holds 17 tokens, a checkpoint less than 1664 below the end of the state is found |
| SpacingRuns.CheckpointsApart | kvcache/recurrent_checkpoints.go:249-257 | over every run, for every sequence not in doubt: live checkpoints lie at 16 or later and 1664 or more apart |
| SpacingRuns.RollBackKeepsEarlier | kvcache/recurrent_checkpoints.go:330-355 | after a rollback the live checkpoints are exactly those there were below the place |
| SpacingRuns.MiddleMoves | kvcache/recurrent_checkpoints.go:397-401 | after a middle removal the live checkpoints are exactly those before the cut, and those behind it moved down by its length |
| Reference.RefStepOk | kvcache/recurrent.go:179-552 | only sequences in lag have tokens their state does not hold, as decided by the calls alone |
| Outliving.NewSequenceCheckpoints | kvcache/recurrent.go:424-431 | a new sequence reads zero in every buffer, and is offered a checkpoint exactly when its slot was freed with checkpoints in it |
| Outliving.DetachedCheckpoints | kvcache/recurrent_checkpoints.go:403-410 | a detached sequence is offered a checkpoint it did not have exactly when it had none to bring and the slot was freed with checkpoints in it |
| Outliving.CopyThenNew | kvcache/recurrent.go:421-444 | after a copy in a clean cache, the next new sequence is offered a checkpoint exactly when the destination left some |
| Outliving.CopyThenPass | kvcache/recurrent.go:421-444 | and the copied sequence itself, on its next pass, exactly when moreover the source has none |
| Outliving.RemoveFreesClean | kvcache/recurrent.go:543-548 | a full removal never leaves checkpoints in a slot it frees |
| Outliving.CopyFreesAsIs | kvcache/recurrent.go:424-431 | CopyPrefix leaves in a freed slot what was there |
| Outliving.CheckpointOutlivesSequence | kvcache/recurrent.go:424-444 | a concrete copy after which a new sequence is offered another's state |
| Outliving.CheckpointOfAnotherState | kvcache/recurrent.go:367-398 | the same copy, after which the copied sequence is offered a state that is not its own |
| Limits.RemoveStartExact | kvcache/recurrent.go:522-551 | after a removal from the start, the state holds exactly the tokens iff the removal reached the end |
| Limits.MiddleExact | kvcache/recurrent.go:457-489 | after a middle removal, the state holds exactly the tokens iff nothing was cut |
| Limits.MiddleKeepsEarlier | kvcache/recurrent.go:457-489 | after a middle removal in a clean cache, every checkpoint before the cut is still one of the tokens up to its position |
| Limits.RollBackBeforeCut | kvcache/recurrent.go:457-530 | so a rollback that keeps no more than the tokens before the cut restores the fold of exactly the tokens kept |
| Limits.CopyExact | kvcache/recurrent.go:421-444 | after a copy, dst's state holds exactly its tokens iff the copy was not cut short |
| Limits.RefuseExact | kvcache/recurrent.go:214-221 | after a refused batch, exactly its sequences have tokens their state does not hold |
| Limits.SlotsSuffice | kvcache/recurrent.go:237-254 | a batch gets its slots iff no more of its sequences lack one than are free |
| Limits.ShortRunsKeepTails | kvcache/recurrent_checkpoints.go:236-254 | over every run below position 16 no checkpoint exists, so every tail removal is refused |
| Samples.TailRefused | kvcache/recurrent.go:491-499 | a concrete run after which a tail removal is refused whatever it asks for |
| Samples.RemoveStartLosesState | kvcache/recurrent.go:522-551 | a concrete run after which a removal from the start leaves a token and no state |
| Samples.ShortCopyRunsAhead | kvcache/recurrent.go:421-444 | a concrete run after which a copy of one token comes with the state of two |
| Samples.UnevenRefused | kvcache/recurrent.go:214-221 | a concrete batch that is refused with its tokens stored |
| Samples.SlotsRunOut | kvcache/recurrent.go:237-254 | a concrete batch that runs out of slots, one sequence left with another's state |
| OnePass.PassRuns | kvcache/recurrent.go:179-742 | the operations do take the steps of a run: a pass of any length from Init to its last update, with no sequence in doubt |
| ManyPasses.GoOn | kvcache/recurrent.go:179-742 | any such run can be gone on from by a pass of any length, and what that adds to the account of checkpoints |
| ManyPasses.TwoPasses | kvcache/recurrent_checkpoints.go:244-258 | two passes written out: a second one of 1664 tokens or more leaves its own checkpoint, which PrepareRestore up to the end finds, and a shorter one leaves the first to be found |
| Samples.MovedCheckpointIsWrong | kvcache/recurrent.go:457-489 | a run after which a middle removal and a rollback to all that is left restore a state with the cut token in it |
| Recurrent.RecurrentCache.Init | kvcache/recurrent.go:123-145 | nothing mapped, all slots free, unlimited KV cache |
| Recurrent.RecurrentCache.StartForward | kvcache/recurrent.go:179-305 | tokens stored and the step Begin taken, slots, rings and taint exactly, the sequences in the order in which they first appear in the batch; refused for exactly the uneven batches, with nothing changed but the tokens stored; out of slots exactly when more sequences lack one than are free |
| Recurrent.RecurrentCache.ZeroSlots | kvcache/recurrent.go:343-364 | the rows of the slots are zero in every created buffer |
| Recurrent.RecurrentCache.PlanCheckpoints | kvcache/recurrent_checkpoints.go:215-259 | every sequence's checkpoint position, from its last position and the slot's last checkpoint; when there is one is said by SpacingRuns.BeginPlans |
| Recurrent.RecurrentCache.EnsureWritable | kvcache/recurrent.go:367-398 | the slots, rings and taint after exactly the detaches needed; every slot of the pass private afterwards; fails only with no slot free and more sequences than slots |
| Recurrent.RecurrentCache.EnsureWritableOnce | kvcache/recurrent.go:612-658 | the first call of a pass takes the step Own or gives the pass up, later calls repeat its verdict |
| Recurrent.RecurrentCache.Detach | kvcache/recurrent.go:382-394 | the detached value, or nothing changed and sequences outnumber slots |
| Recurrent.RecurrentCache.CurrentSlotRows | kvcache/recurrent.go:563-624 | the contiguous view and the gather read the same rows |
| Recurrent.RecurrentCache.WriteCurrentSlotRows | kvcache/recurrent.go:626-635 | the contiguous view and the scatter write the same rows |
| Recurrent.RecurrentCache.ConvState | kvcache/recurrent.go:661-669 | for every entry of the batch, the row numbered by how many sequences appear before its own is its sequence's state, with the tokens of the pass in it once the buffer is updated; the step Own, the first time, and nothing else changes |
| Recurrent.RecurrentCache.RecurrentState | kvcache/recurrent.go:685-710 | the same, and refused for exactly the shapes that do not fit |
| RecurrentFacts.ProductOfThree | kvcache/recurrent.go:713-729 | for three dimensions the product tested is the one RecurrentState4D tests |
| Recurrent.RecurrentCache.UpdateState | kvcache/recurrent.go:672-742 | given rows that hold, in that same numbering by batch entry, each state moved on by the pass: the step Update, rows written, planned checkpoints taken |
| Recurrent.RecurrentCache.CopyPrefix | kvcache/recurrent.go:421-444 | the step Copy: dst has the state of src, nobody else changes |
| Recurrent.RecurrentCache.CanResume | kvcache/recurrent.go:446-454 | true exactly at position 0 or with a live checkpoint below pos |
| Recurrent.RecurrentCache.PrepareRestore | kvcache/recurrent_checkpoints.go:302-328 | the best checkpoint below the target is noted, with at most target tokens kept |
| Recurrent.RecurrentCache.RestoreComplete | kvcache/recurrent_checkpoints.go:357-389 | true exactly when the entry exists, is live and has every created buffer |
| Recurrent.RecurrentCache.ApplyCheckpointRestore | kvcache/recurrent_checkpoints.go:330-355 | cannot fail for a live checkpoint; the slot is restored and its ring pruned |
| Recurrent.RecurrentCache.RemoveTail | kvcache/recurrent.go:491-530 | all or nothing: refused exactly without the matching pending checkpoint, out of slots only with more sequences than slots, both with nothing changed; otherwise the step RollBack, slots and rings exactly |
| Recurrent.RecurrentCache.RemoveMiddle | kvcache/recurrent.go:457-489 | the step RemoveMiddle, slots, rings and taint exactly, or slots, rings and states unchanged; the pending restore forgotten exactly when the tokens were cut; fails for a shared cell, an unsupported or refused shift or a lack of slots and nothing else; other sequences see no difference |
| Recurrent.RecurrentCache.RemoveAll | kvcache/recurrent.go:522-551 | the step RemoveStart: the slot given up, its checkpoints cleared when it becomes free; never fails up to the sentinel |
| Recurrent.RecurrentCache.Remove | kvcache/recurrent.go:456-552 | the three cases together |
| Tensors.TransposedTwice | convert/convert_qwen3next.go:1305-1324 | exchanging the same two axes again gives the data back |
| HeadLayout.ReorderedBack | convert/convert_qwen3next.go:1283-1334 | reordering again with the two head factors exchanged is the identity, for every shape and axis |
| HeadLayout.ReorderedRows | convert/convert_qwen3next.go:1283-1334 | along the first axis whole rows move, each from its head position |
| HeadLayout.HeadSourceBack | convert/convert_qwen3next.go:1283-1334 | head positions are permuted |
| HeadLayout.HeadSourceAt | convert/convert_qwen3next.go:1283-1334 | in plain indices: value head v of key head k is taken from the group of k and goes to the v-th tile |
| HeadLayout.FeatureSourceInjective | convert/convert_qwen3next.go:1146-1202 | Q and K stay, V is permuted: no feature is used twice |
| HeadLayout.RepackedRows | convert/convert_qwen3next.go:1166-1183 | in plain indices: the output row of value head v of key head k is, element by element, the input row of that head in the group of k |
| HeadLayout.RepackedKeeps | convert/convert_qwen3next.go:1166-1183 | and the rows of Q and K are where they were |
| HeadLayout.LayoutsAgree | convert/convert_qwen3next.go:1146-1202 | repacking the transposed matrix equals transposing the repacked matrix whenever the shape is unambiguous |
| HeadLayout.RepackAttnQKV | convert/convert_qwen3next.go:1146-1202 | the loops compute the feature permutation, or leave the data as it is |
| QkvzSplit.QkvzSpec | convert/convert_qwen3next.go:1347-1381 | a shape is accepted exactly when its rows are the queries, keys, values and gates of all heads, and then splits into outputs that account for every row |
| QkvzSplit.RepackedAt | convert/convert_qwen3next.go:1411-1495 | every row of an output is, whole, one input row |
| QkvzSplit.RowsDealt | convert/convert_qwen3next.go:1411-1495 | in plain indices: which input row every query, key, value and gate row of every head is |
| QkvzSplit.PlaceHolds | convert/convert_qwen3next.go:1411-1495 | every input row is found in an output |
| QkvzSplit.PlaceUnique | convert/convert_qwen3next.go:1411-1495 | and in no other place of either output |
| Rotary.NormalToNeoX | convert/convert_glmocr.go:22-77 | the nested loops compute the rotary permutation of every whole head for the given rotary size, the rest left zero; row by row it is said by Rotary.NeoXOutputRows |
| Rotary.NeoXOutputRows | convert/convert_glmocr.go:49-73 | of the output, in terms of the rotary size: for i below half of it, row i of a head is input row 2i and row half + i input row 2i + 1, and every row from the rotary size on, made even, stays |
| Rotary.Repack | convert/convert_llama.go:189-232 | the tensor object, rearranged in place, ends with halves and rows exchanged; an error for other tensors |
| Rotary.RepackOutputRows | convert/convert_llama.go:189-232 | of the output, in plain indices: as many heads as there are attention heads for a query matrix, key heads for a key matrix, and in every head row i of half p comes to row 2i + p |
| Rotary.LayoutsUndo | convert/convert_glmocr.go:22-77 | for whole heads of even size the two permutations are two-sided inverses |
| Rotary.RepackersUndo | convert/convert_llama.go:189-232 | what either repacker puts out for a query or key matrix of such heads, the other turns back into the weights it was given |
| Rotary.NeoXPermutes | convert/convert_glmocr.go:22-77 | for any rotary size the weights are permuted and the rows that are not rotary stay |
| Rotary.NeoXLeavesZero | convert/convert_glmocr.go:46-73 | an incomplete last head comes out zero |
| Nibbles.Shuffle | convert/convert_gptoss.go:227-238 | in place: every block, read in halves, holds the 32 elements it held read in pairs |
| Nibbles.ShuffleInjective | convert/convert_gptoss.go:227-238 | different buffers never become the same |
| Nibbles.ShuffleOnto | convert/convert_gptoss.go:227-238 | every buffer of whole blocks is the rewrite of the one Unshuffled computes |
| Nibbles.HalvesDetermine | convert/convert_gptoss.go:227-238 | the elements determine the output |
| SanitizeJson.Sanitize | convert/json_compat.go:13-67 | the loop computes the scan function |
| SanitizeJson.SanitizedIdempotent | convert/json_compat.go:13-67 | sanitizing twice equals sanitizing once |
| SanitizeJson.SanitizedHasNoToken | convert/json_compat.go:13-97 | no full Infinity, -Infinity or NaN token is left outside strings |
| SanitizeJson.SanitizedSame | convert/json_compat.go:13-97 | the text stays as it is exactly when it has no such token |
| SanitizeJson.FirstTokenIsZero | convert/json_compat.go:46-62 | replacing the first full token of a text by the digit 0 does not change what it is sanitized to, so every token becomes 0 and nothing else changes |
| SanitizeJson.SanitizedKeepsStrings | convert/json_compat.go:26-44 | every byte of a quoted string is kept, in order |

## Left out

- Reserve passes: they size memory and touch no cache metadata.
- Empty batches: `findLocs` does not treat them as empty, and no caller sends them.
- Causal.Causal.Put: only key rows are modelled; value rows are written at the same places and never turned.
- Causal.Causal.Get: likewise returns the keys and the mask, and not the value view.
- Dtypes, strides, contexts, `Compute` and the backend: tensors are rows of values.
- `EncoderCache`: one flag and one position.
- Recurrent.RecurrentCache.UpdateState: one method for `UpdateConvState` and `UpdateRecurrentState`, which differ only in the buffer.
- Recurrent.RecurrentCache.RecurrentState: `RecurrentState4D` is the same with three dimensions.
- The checkpoint count is fixed at its default of 24; it is never set otherwise, and a count of 0 only switches checkpoints off.
- Recurrent.RecurrentCache.CopyPrefix: not modelled in the middle of a pass; the runner copies, restores and removes between passes.
- A wrapper around a `Recurrent` cache: the unwinding theorem is about causal caches, since a recurrent tail removal needs a checkpoint.
- Wrapper.WrapperCache.StartForward: the layer type and `UnderlyingCache` only select a cache.
- HeadLayout.LayoutsAgree: square matrices in which both axes have the packed size are read as rows in either case, so nothing is claimed for them.
- `repackConv1D` and the choice of which tensors are repacked: tables of names.
- Rotary.NormalToNeoX: the rotary size is given as a number; the float product it comes from is not modelled.
- Rotary.Repack: the tensor library's elements are modelled by its documented row-major meaning; its closing `Transpose` has nothing pending.
- Everything else in `convert/`, and the rest of the repository.
