# IronMule in Dafny

IronMule serves language-model requests on one machine. It interleaves them, stacks them into shared decode steps, reads
ahead, throws failed work away, and learns which kernels to use. Its one promise is that none of this changes an answer.
This project models the parts that carry the promise and proves it of the models.

## How the project is laid out

- `Decoding` is the specification: the lone decode of one request, one token at a time. A model is a record of
  uninterpreted functions, so nothing depends on what a step computes, only on what it may look at.
- `CacheContract` says what an executor may rely on from a decode backend, as relations between the caches before and
  after a call. Positions at or beyond an offset are never observed. `Serving.Backend` is the most general backend that
  keeps the contract: prefills, steps, chains and drafts may raise, and may leave anything ahead of the offsets it was given.
- `Serving`, `Executor`, `Grouping`, `Admission`, `Rotation`, `Grouped` and `Dispatch` are the executors over that backend:
  token streams and sessions, sequential finishing with chains and drafts, one grouped round with its fallback, building
  sessions, the rotation, whole runs with late admissions and cancellations, and the last-resort replay. Their main results
  are `Grouped.GroupedExecutor.Run` and `Dispatch.Serve`.
- `Layout` and `DensePool` are the dense plan's flat key/value pool, written in place, with its slot list. It meets the same
  relations as the general backend, so the executors' theorems hold over it.
- `Warp`, `RowKernels` and `FlashAttention` are the kernels. Row kernels use rounded operations that are uninterpreted and
  may not be reordered. Attention is over reals.
- `Comparisons` says what a comparison of three arms makes of the executions it gets, as functions of a `World`: all the
  answers that the caller's executor, the native core and the disk will give. `Controller` is the online controller's ticket
  and comparison protocol over such a world, which is arbitrary. `Learner` and `Activation` are what is learned from
  evidence and the gate it may open.
- `Budget`, `Journal` and `Dream` are the duty-cycle guard, the hash-chained journal and the replay of discovery trees.

An exception of the source is `ok == false`, a `None`, or a `Failed` or `Killed` result. Submissions, prefills, hand-overs
to a caller, executions, status queries and saves may raise whenever they are made, and so may building a batch and an
append to the journal. What the native core decides, what cancellation polls answer and the timing are arbitrary.

What a contract says of the past it says of recorded facts: how often something raised (`Backend.raised`) and how often a
submission went beyond its request's limit (`Backend.overruns`), the groups that were really submitted (`Grouper.served`), the
queue and everybody unfinished at the start of each round (`GroupedExecutor.trace`), the batches that were handed over
(`Arrivals.handed`), the executions, status queries and saves that were made (`Controller.Environment`), and the
dispatches of an activation layer and its successors (`Activation.History`).

A failed group does not end a run. Every contract of the executors says what its raising costs: a round that raises has
fallen back and failed once more inside its fallback (`Grouping.Grouper.ServeGroup`), so a run raises exactly when
something raised besides the failures that fallbacks answered for, or when it is handed a request that no slot can hold
(`Grouped.GroupedExecutor.Run`). A run in which nothing raises ends with everybody done.

No executor submits a step at or beyond prompt plus output limit: `Backend` counts every submission that reaches further
for a session at its own position, and no method of any executor, up to `Dispatch.Serve`, ever adds to that count.

## Where the code does less than it says

These are properties that the code or its comments promise and that fail, with the exact condition under which they hold.

- A ticket is not always settled. Between issuing a run's tickets and handing them over, the controller may ask the core
  for its status (to withdraw a profile that failed, `ironmule_controller.py:589-601`, and to choose the repetitions of an
  arm, `ironmule_controller.py:869-879` with the raises at 458 and 478) and may save (a withdrawal, a fault or a quarantine,
  `ironmule_controller.py:775-779`). Exactly when one of these raised are the run's tickets lost, all of them; otherwise
  each is settled once (`Controller.OnlineController.Run`). `Controller.LostToStatus` loses three tickets to a status query
  and `Controller.LostToSave` one to a save. Of what the core and the disk will answer, `MustLose` names what always ends
  so.
- A disagreement between repetitions is not always a mismatch (`ironmule_controller.py:881-902`). If all three arms repeat
  the same inconsistent pattern, their signatures are equal and the comparison passes as matched
  (`Controller.SamePatternUnseen`). Among executions that all return signed outcomes that is the only way
  (`Comparisons.DisagreementSeen`); one repetition is always safe. A disagreement is not looked at where an arm failed or
  has no signature: `Controller.UnfinishedUnseen` delivers arm A although AA disagreed with it, because B failed.
- A cached activation record can be stale (`ironmule/activation.py:247-277`). Preparing or installing again remembers the
  new digest but keeps the old records, so a workload class that no longer qualifies can still be dispatched as a candidate
  with an open gate (`Activation.StaleRecord`). Preparing keeps the cache sound exactly when it was empty or the state had
  not changed (`Activation.LearnedDispatchActivation.Prepare`).
- A kill survives the process only if its record could be written (`ironmule/activation.py:371-384`). A layer that starts
  after a kill on the same state path is enabled exactly when its caller wants it and there is no path, or no record was
  there and none could be written (`Activation.KillThenRestart`); `Activation.UnwrittenKill` then dispatches a candidate.
- An append to the journal may raise after its row was committed (`friday_evidence/events.py:457-458`): exactly when the
  database file is then too large (`Journal.EventJournal.Append`; `Journal.LateError` is such an append).
- A failed admission leaks slots (`ironmule/executor.py:350-393`). When building a batch raises, the sessions already built
  in it belong to nobody and their slots stay held; so does the slot of the request that raised, if its prefill had
  succeeded and handing its first token over raised, also in a batch of one. A failed batch leaks exactly these slots, and
  any at all if and only if one of its requests was prefilled (`Admission.BuildSessions`, `Admission.LeaksWhenPrefilled`);
  `Admission.RefusalLeaks` is a batch of two that always does. On every exit of a stacked run, with or without an
  exception, what is held afterwards is what was held before, without the slots of its sessions and with these leaks
  (`Grouped.GroupedExecutor.Run`).
- The requests of such a batch are never answered (`ironmule/service.py:1018-1046`). They were handed over and are in nobody's
  list, so a dispatch whose replay succeeds returns without them. Every other batch that was handed over is answered: the
  batches handed over are the ones taken, and one more exactly when building it raised (`Dispatch.Serve`).
- A fallback restarts every member of the failed group, those that had finished in that round included
  (`ironmule/executor.py:319-338`). That costs work but no tokens: the stream hands nothing over twice.

One thing is assumed of a backend that its interface does not say: a draft that `speculate` returns finishes the request,
because `ironmule/executor.py:160` goes on to the next session after it. It is part of `Serving.Backend.Speculate`.

## Model
| member | source | states |
|---|---|---|
| Decoding.LoneExtends | ironmule/executor.py:100-119 | The lone decode extends what it has and ends where the generation contract says. |
| Decoding.LoneLength | ironmule/executor.py:114-115 | The lone decode never exceeds the output limit. |
| Decoding.OnTrackIsPrefix | ironmule/executor.py:100-119 | A point of the lone decode is a prefix of its output, and the whole of it exactly when the generation contract ends it. |
| Decoding.PrefixIsOnTrack | ironmule/executor.py:87-92 | Every prefix of the output, such as the one a restart goes back to, is a point of the same decode. |
| Decoding.NextIsReference | ironmule/executor.py:164-171 | The only token that may follow a prefix of the output is the output's own. |
| Decoding.ReferenceIsDecode | ironmule/executor.py:100-119 | Told by the model alone: each token of the lone decode is the model's pick on the columns of what came before, no token before the last ends a sequence or reaches the limit, and the last does. |
| Decoding.OnlyDecode | ironmule/executor.py:100-119 | No other tokens are such a decode. |
| Decoding.FeedPrefix | ironmule/executor.py:178-185 | A column never depends on what is fed after it. |
| Decoding.PrivateCachePrefix | ironmule/executor.py:87-92 | The private cache of a shorter output is a prefix of that of a longer one. |
| CacheContract.AdvanceOneMore | ironmule/dense_plan.py:534-549 | Rows in distinct slots advance the same whether they are submitted one after the other or stacked. |
| CacheContract.ChainIsStepwise | ironmule/executor.py:164-171 | The picks of a chain are those of stepping one token at a time. |
| CacheContract.RewoundChain | ironmule/executor.py:178-185 | After accepting some picks of a chain, moving the position back shows exactly the private cache of the accepted tokens. |
| Serving.TokenStream.Accept | ironmule/executor.py:58-66 | A new token is appended and handed over once; a replayed one must equal the old one; a gap is refused; the tokens handed over are those recorded. |
| Serving.Session.AcceptToken | ironmule/executor.py:100-119 | One more token of the lone decode; the request is done exactly if the token ends a sequence or the limit is reached, and stops for the first reason that applies; a replay neither raises nor hands anything over again; it raises exactly when the hand-over does. |
| Serving.Session.StopIfCancelled | ironmule/executor.py:122-134 | A request stops here only if it is running and its caller's predicate said yes to a poll, and always if that says yes to every poll; it is then done and keeps its tokens. |
| Serving.Session.Restart | ironmule/executor.py:87-92 | Whatever was ahead of the prompt, the session can step again from the prefill's own token. |
| Serving.Session.AdvancedIsAhead | ironmule/executor.py:226-248 | What a submission did for a row is a chain of that session's own private cache. |
| Serving.Session.SeatedElsewhere | ironmule/dense_plan.py:522-523 | What happens in other slots never matters to a session. |
| Serving.Session.AheadRewinds | ironmule/executor.py:178-185 | A rewind to the accepted tokens leaves a slot that shows exactly their private cache. |
| Serving.Session.DoneIsReference | ironmule/executor.py:100-119 | A request that is done and not cancelled has its lone decode, and its caller was handed all of it. |
| Serving.TokenStream.Cancelled | ironmule/executor.py:122-134 | A poll says yes only if the caller's predicate has a yes to give. |
| Serving.Backend.Prefill | ironmule/executor.py:39 | A prefill takes a slot nobody holds and shows the prompt's columns there; a failed one leaves held slots alone. |
| Serving.Backend.StepsGroup | ironmule/dense_plan.py:534-549 | The contract of stacked steps: each row from its own columns, nothing changed behind any offset, failed or not. |
| Serving.Backend.Steps | ironmule/service.py:448-467 | The contract of chained steps, which a backend may decline. |
| Serving.Backend.Speculate | ironmule/service.py:469-481 | The contract of a draft: it begins with the whole remaining output, and the cache behind it is that output's. |
| Serving.Backend.Release | ironmule/dense_plan.py:570-577 | A released slot is no longer held; releasing one that was not held is counted. |
| Executor.Runner.AcceptChain | ironmule/executor.py:178-185 | A prefix of the chain is accepted, up to the end of the request or its cancellation, and the session can step on from there. |
| Executor.Runner.AcceptDraft | ironmule/executor.py:155-159 | A draft is accepted up to the end of the request; the state is rewound to it. |
| Executor.Runner.Advance | ironmule/executor.py:161-171 | One turn of the loop, by a chain cut to what is left or by one step, moves the request on; no submission goes beyond prompt plus output limit, and it raises exactly when one submission or hand-over does. |
| Executor.Runner.FinishOne | ironmule/executor.py:145-171 | A session is finished by drafts, chains and steps in any mixture, within its limit; only its own slot changes; it is done afterwards unless one of these calls raised. |
| Executor.Runner.FinishSequentially | ironmule/executor.py:145-171 | Every session of a group is finished, unless one call raised, and none disturbs another. |
| Grouping.Grouper.SharedCount | ironmule/dense_plan.py:601-608 | A stacked chain is no longer than what every member still needs, nor than the backend's readback. |
| Grouping.Grouper.SteppableHasRoom | ironmule/dense_plan.py:601-608 | A chain cut to the remaining limit fits the slot and stays below prompt plus output limit. |
| Grouping.Grouper.SubmitStacked | ironmule/dense_plan.py:598-608 | A stacked submission picks for every member what its own private cache picks, and a failed one leaves every member able to step. |
| Grouping.Grouper.SubmitEach | ironmule/executor.py:226-248 | The same for one submission per session; one session that cannot chain gives up the round's chains. |
| Grouping.Grouper.AcceptGroup | ironmule/executor.py:288-302 | Every member moves forward along its own lone decode, or accepting raised and every member can still restart. |
| Grouping.Grouper.FallBack | ironmule/executor.py:319-338 | Whatever state a failed group was left in, its members restart and finish one by one; all are done afterwards unless one more call raised. |
| Grouping.Grouper.ServeGroup | ironmule/executor.py:284-306 | A round moves every member on, or, exactly if something raised in it, falls back and finishes all of them; it raises only if something raised again inside the fallback. Only the group's slots change, and the group is on record as served. |
| Admission.BuildSessions | ironmule/executor.py:350-393 | Each session starts in a slot of its own at the capacity it would get alone, with its first token, or unstarted when cancelled first; sessions elsewhere are untouched. What a failed batch leaves held are exactly the slots of the sessions built and at most the failing request's own. |
| Admission.LeaksWhenPrefilled | ironmule/executor.py:350-393 | A failed batch leaks a slot if and only if one of its requests was prefilled. |
| Admission.RefusalLeaks | ironmule/executor.py:350-393 | A batch whose second request is refused leaks the slot of the first. |
| Rotation.ServedWithin | ironmule/executor.py:284-315 | In a rotating queue position p is served within p / width further rounds, unless it leaves or there are not that many. |
| Rotation.NoStarvation | ironmule/executor.py:209-216 | When the queue ends empty, everybody in it was served within p / width further rounds or had left it cancelled. `Grouped.GroupedExecutor.Run` applies it to the queues and submissions of the run. |
| Grouped.GroupedExecutor.Sweep | ironmule/dense_plan.py:610-613 | Done sessions give their slots back, each exactly once, and nobody else's slot is released. |
| Grouped.GroupedExecutor.Admit | ironmule/service.py:1019-1026 | Late arrivals join the queue in slots of their own and disturb nobody. A failed batch leaves the queue as it was and is on record; its slots, and no others, are held for nobody. |
| Grouped.GroupedExecutor.DropCancelled | ironmule/executor.py:276 | Cancelled requests leave the queue done and cancelled, and whoever stays moves forward. |
| Grouped.GroupedExecutor.Round | ironmule/executor.py:284-315 | A round submits the first `maxWidth` of the queue, whoever waited behind them moves up by that many places, and the work that is left decreases, through a fallback too. |
| Grouped.GroupedExecutor.RoundTurn | ironmule/executor.py:276-315 | The trace gets the queue and everybody unfinished at that moment: nobody unfinished is missing from a queue but those whose arrival is still to come. |
| Grouped.GroupedExecutor.RunRounds | ironmule/executor.py:260-315 | The loop ends with everybody done, or with an exception if a raise was left over that no fallback answered for or a batch could not be built; the groups submitted are the heads of the traced queues, which rotate; every batch handed over was taken or its building raised. |
| Grouped.GroupedExecutor.ReleaseOwned | ironmule/dense_plan.py:626-629 | However the run ended, every slot it still owned is given back once. |
| Grouped.GroupedExecutor.Run | ironmule/executor.py:250-317 | Every session's tokens are a prefix of its own lone decode and what its caller was handed lies between them and it; each request of a batch taken has its session, the given ones in order of arrival. It raises exactly when something raised besides the failures that made a group fall back, or a batch held a request that no slot can hold. Without an exception everybody is done, every answer whose caller did not give up is the whole lone decode, and everybody unfinished was submitted. In every run whoever stands at place p is submitted within p / width rounds, unless its caller gives up or an exception ends the run before. A stacked run, however it ends, has released every slot of its sessions exactly once and leaves held only what a failed batch leaked. |
| Grouped.SortSorts | ironmule/executor.py:256 | The pending list is in the order of arrival, with the request id as a tie-break. |
| Dispatch.SequentialExecutor.Run | ironmule/executor.py:188-206 | Exactly the unfinished requests are finished, one at a time in the order of arrival, up to the first that raises; it raises exactly when one call does. |
| Dispatch.RestartUnfinished | ironmule/service.py:1041-1045 | After a run that raised, whoever is unfinished can be replayed from its prefill, and the answers of the others stay. |
| Dispatch.Serve | ironmule/service.py:1029-1046 | A dispatch raises only after something raised in its replay too, so after three raises or a failed batch and a raise. One that returns has answered every request, its own and those of every batch handed over but one whose building raised, with its lone decode or, where its caller gave up, a prefix of it. |
| Layout.FlatRowInverts | ironmule/dense_plan.py:304-310 | A flat pool row determines its slot, head and position. |
| Layout.FlatRowInside | ironmule/dense_plan.py:304-310 | A slot's rows stay inside that slot's own part of the pool. |
| DensePool.CapacityDoesNotMatter | ironmule/dense_plan.py:204-208 | The size of the slots does not change a request's answer while it fits. |
| DensePool.Pool.Scatter | ironmule/dense_plan.py:322-323 | A scatter writes its cells and no other cell, head or layer. |
| DensePool.Pool.ForwardLayer | ironmule/dense_plan.py:346-358 | In a layer of a stacked step each row's own keys and values are in its cell of the pool, and the row is mixed with attention over the first position + 1 entries of its own slot. |
| DensePool.Pool.Forward | ironmule/dense_plan.py:337-363 | From the embedding of its own token each row goes through all layers like this, and its pick is the head on what comes out; its column is the lone row's, and no other cell changes. |
| DensePool.Pool.StepsGroup | ironmule/dense_plan.py:534-549 | Stacked chains satisfy the contract, and write nothing but the next `count` positions of their own slots. |
| DensePool.Pool.Steps | ironmule/dense_plan.py:531-532 | A chain of one session meets the same relation as `Serving.Backend.Steps`. |
| DensePool.Pool.StepGroup | ironmule/dense_plan.py:528-529 | One stacked step is a chain of length one for every row, and changes no cell but the rows' own. |
| DensePool.Pool.Step | ironmule/dense_plan.py:525-526 | A step of one session meets the same relation as `Serving.Backend.Step`. |
| DensePool.Pool.OneMoreStep | ironmule/dense_plan.py:534-549 | One more step extends a row's chain by its own next pick and column. |
| DensePool.Pool.WritePrefill | ironmule/dense_plan.py:312-324 | A prompt's columns land in its slot, which a too long prompt does not fit, and nowhere else. |
| DensePool.Pool.Trunk | ironmule/dense_plan.py:326-335 | A prompt's column at a position is what the network makes of it from its own chunk of 2,048 positions on the columns of the chunks before; the first token is the head on the last position of the last chunk. |
| DensePool.Pool.Prefill | ironmule/dense_plan.py:500-520 | The lowest free slot is taken and satisfies the contract; a failed prefill leaves held slots alone and the free list exactly as it was. |
| DensePool.Pool.Release | ironmule/dense_plan.py:570-577 | The slot returns to a sorted list without repetitions; releasing a free or foreign slot changes nothing. |
| DensePool.Pool.CapacityFor | ironmule/dense_plan.py:494-498 | A whole slot exactly when every prompt plus the limit fits it, else a refusal. |
| DensePool.SameSlots | ironmule/dense_plan.py:577 | The free list is determined by which slots are free. |
| DensePool.CellsAhead | ironmule/dense_plan.py:566-568 | Writing at or beyond the offsets leaves everything behind them, which is all that is ever read. |
| Warp.ShuffleDown | ironmule/dense_plan.py:100-101 | Lane 0 ends with one fixed tree over the 32 lanes. |
| Warp.TreeLevels | ironmule/dense_plan.py:100-101 | The tree combines lanes 16 apart first, then 8, 4, 2 and 1. |
| Warp.ShuffleXor | ironmule/dense_plan.py:145-147 | For an operation that commutes, every lane ends with that same tree. |
| RowKernels.RunChain | ironmule/dense_plan.py:90-91 | A chunk is one chain of fused multiply-adds in index order. |
| RowKernels.ChainSteps | ironmule/dense_plan.py:90-91 | The chain starts from zero and takes index 0 first. |
| RowKernels.LaneSteps | ironmule/dense_plan.py:78-94 | A lane adds up chunks lane, lane + 32, and so on, in that order, and misses none. |
| RowKernels.CellLanes | ironmule/dense_plan.py:95-103 | A cell is the 32 lanes' sums, joined by the tree and rounded once. |
| RowKernels.DenseLane | ironmule/dense_plan.py:66-94 | A lane's register of an output cell is the chain over its own chunks, whatever the width and the other rows. |
| RowKernels.WriteTile | ironmule/dense_plan.py:95-103 | Every cell of the warp's rows is written once, with its own joined sum, and no other cell. |
| RowKernels.DenseRows | ironmule/dense_plan.py:241-255 | For one to eight rows every output cell is written exactly once, and cell mo * n + row is one expression of the chunks of weight row `row` and activation row `mo` in the flat arrays, for every width and rows per warp; more rows are refused. |
| RowKernels.NativeRow | ironmule/cuda_native.py:90-107 | With several activation rows the shared register array is loaded again for each, so each gets its own term. |
| RowKernels.NativeLane | ironmule/cuda_native.py:75-107 | The same of a lane of the 4-bit kernel. |
| RowKernels.NativeRows | ironmule/cuda_native.py:155-168 | Every cell of a 4-bit product is written exactly once and is one expression of its own words, scales, biases and activations in the flat arrays. |
| RowKernels.SameRowsSameCell | ironmule/cuda_native.py:57-126 | Two 4-bit products of any widths have the same cell where the activation row and the weight row agree. |
| RowKernels.GatherStep | ironmule/cuda_native.py:134-144 | A warp of the gather kernel writes its rows of its own pair, or nothing past the last pair or row. |
| RowKernels.GatherRows | ironmule/cuda_native.py:182-196 | Each (token, expert) pair's row is, cell by cell, what the row kernel computes from weight row idx[p] * n + row of the stacked experts, its scales and biases, and activation row p / share. |
| RowKernels.GatherTermsAreRaw | ironmule/cuda_native.py:134-144 | A pair's product is a window on the flat arrays that begins at its own expert. |
| FlashAttention.MaskedLargest | ironmule/dense_plan.py:144-147 | The warp's butterfly finds the largest score of a chunk, masked positions aside. |
| FlashAttention.WeightsSum | ironmule/dense_plan.py:148-153 | The warp's tree sums a chunk's weights relative to its largest score. |
| FlashAttention.Scratch.PartialHead | ironmule/dense_plan.py:129-167 | A chunk's partial is the one-pass sums over its positions relative to its largest score; other partials stay. |
| FlashAttention.Scratch.PartialWarp | ironmule/dense_plan.py:114-128 | A warp computes exactly the partials of its row, key/value head and chunk; surplus warps and chunks beyond the length do nothing. |
| FlashAttention.ChunkJoins | ironmule/dense_plan.py:182-192 | Rescaling to the running maximum joins a chunk to the sums so far. |
| FlashAttention.Scratch.Combine | ironmule/dense_plan.py:171-195 | Combining the chunks in index order gives the exact softmax-weighted sum of the row. |
| FlashAttention.Fa2 | ironmule/dense_plan.py:258-274 | Output row b * heads + h is exact attention of its own query over keys and values (slots[b] * kvHeads + h / group) * capacity + t for t below lengths[b], whatever the capacity, the number of chunks and the other rows. |
| FlashAttention.AttentionSums | ironmule/dense_plan.py:171-195 | Exact attention is the sum of the values weighted by the exponentials of their scores, over the sum of these weights. |
| Controller.OnlineController.Enqueue | ironmule_controller.py:608-620 | Completions that carry a ticket go to the queue, or, when it is full, to the lost map as abandoned; none is dropped or doubled. |
| Controller.OnlineController.LearnStep | ironmule_controller.py:1021-1049 | What was lost and the oldest batch are applied as they are, each once; a failing checkpoint loses nothing. |
| Controller.OnlineController.Choose | ironmule_controller.py:622-654 | Nothing is asked while killed, closed or busy; otherwise the choice is what the core offers, and its tickets are the next new numbers: one, three for a comparison, or none. |
| Controller.OnlineController.ExecuteRepeated | ironmule_controller.py:881-902 | An arm is a block of consecutive executions, up to the first that raises; it finishes only if all of them returned, and its signature tells whether they agreed. |
| Controller.OnlineController.Repetitions | ironmule_controller.py:869-879 | As many repetitions as the core's status calls for, but at least one and at most eight, and one where arms do not repeat; it raises exactly when they do and the status raises. |
| Controller.OnlineController.CompletionOf | ironmule_controller.py:540-568 | The label is the execution's status, but 4 for a run that mixed profiles, was not valid or, where checked, did not match; a success exactly for a clean and matched run; an error where nothing was executed. |
| Controller.OnlineController.Plain | ironmule_controller.py:694-723 | Success, failure, recovery and interruption each settle the ticket once, unless a status query or a save raised, with exactly one label: that of the chosen action's execution, an error if the reference raised, none for an interruption or a recovery. What is delivered is the chosen action's run or, after it failed, the reference's. |
| Controller.OnlineController.Checked | ironmule_controller.py:781-827 | A checked exploration delivers its run of the reference and nothing else; every alternative is quarantined if and only if the two runs were clean and signed and disagreed; the core is told of a success exactly if they agreed and were within the limits. |
| Controller.OnlineController.Repair | ironmule_controller.py:944-977 | A comparison's delivered run is A, AA or a run of the reference, and after a seen disagreement only the reference's, with every alternative quarantined. |
| Controller.OnlineController.RunArms | ironmule_controller.py:911-943 | The outcomes and the failure are those of the arms the executions make: a failed A or AA ends the comparison, a failed B does not. |
| Controller.OnlineController.CompareArms | ironmule_controller.py:904-1019 | Of the executions made from here on, in both orders: a disagreement that all arms finished and signed quarantines every alternative and only a run of the reference is delivered; otherwise A, else AA, else the reference is. Each arm that finished gets the label of its outcome, which is a success only if the arms matched, and the others an error. All three tickets are settled once, or none if something raised before they were handed over. |
| Comparisons.AllArmsDone | ironmule_controller.py:911-943 | If no execution stops them, the three arms are three consecutive blocks of executions: A, AA, B, or B, AA, A. |
| Comparisons.FailedReferenceEnds | ironmule_controller.py:918-928 | A failed A ends the comparison at once. |
| Comparisons.FailedAlternativeGoesOn | ironmule_controller.py:918-928 | A failed B does not; AA and A still run. |
| Controller.OnlineController.Label | ironmule_controller.py:1008-1016 | One completion per ticket, a success exactly for a clean arm of a match. |
| Controller.OnlineController.Run | ironmule_controller.py:656-750 | Every number issued in the run is afterwards booked once, or, exactly if a status query or a save raised, is lost with the others; an admitted choice is the core's; what is delivered, quarantined and told to the core is what the executions made call for; requests are counted completed or failed. |
| Controller.OnlineController.Serve | ironmule_controller.py:656-750 | Over any number of groups, with the worker anywhere, every ticket ever issued is booked exactly once or leaked, none leaks unless a status query or a save raised, and requests equal completed plus failed. |
| Controller.LostToStatus | ironmule_controller.py:869-879 | A run that loses its three tickets because the core's status raised. |
| Controller.LostToSave | ironmule_controller.py:589-601 | A run that loses its ticket because the checkpoint of a withdrawal raised. |
| Comparisons.DisagreementSeen | ironmule_controller.py:881-902 | Of executions that all return signed outcomes, a disagreement is seen by the comparison of their arms if and only if the arms did not repeat one and the same pattern; with one repetition, always. |
| Controller.SamePatternUnseen | ironmule_controller.py:881-902 | A run whose executions disagree, and which delivers arm A and quarantines nothing. |
| Controller.UnfinishedUnseen | ironmule_controller.py:955-958 | A run whose second arm disagrees with the first while the third fails, and which delivers arm A and quarantines nothing. |
| Learner.CenterBetween | ironmule/local_learner.py:240-263 | The posterior centre lies between the smallest and largest of the prior mean and the observed ratios. |
| Learner.Posterior | ironmule/local_learner.py:240-263 | The accumulating loop computes the posterior estimate. |
| Learner.QualifiedIsEarned | ironmule/local_learner.py:308-366 | A candidate is recommended exactly in the qualified state, which needs at least three readable sessions, a control mean near 1, a mean ratio below 1 and a posterior interval below 1. |
| Learner.QualifiedExactly | ironmule/local_learner.py:308-366 | A candidate is recommended if and only if there are three readable sessions, the control is usable and both estimators' intervals lie below 1. |
| Learner.PosteriorSums | ironmule/local_learner.py:240-263 | The posterior session by session: precision and weighted ratio grow from the prior by the inverse of each session's variance. |
| Learner.OrderDoesNotMatter | ironmule/local_learner.py:308-366 | The verdict is the same for every order of the evidence. |
| Learner.DecideState | ironmule/local_learner.py:308-366 | The step-by-step policy is the function of the evidence. |
| Learner.LocalLearner.Observe | ironmule/local_learner.py:399-424 | A row is taken in exactly if the installation is identified, the row is valid, correct and resourced, comes from the same machine, model and libraries, and its id is new for its key; it is then added to its key's rows, and every recommendation stays the verdict on what was taken in. |
| Learner.LocalLearner.CandidateIsEarned | ironmule/local_learner.py:429-449 | In every reachable learner a qualified action has at least three distinct, readable, admissible sessions of its own with a mean ratio below 1. |
| Learner.Restore | ironmule/local_learner.py:541-581 | A restored learner holds what its file's rows earn when offered again; a damaged or foreign file adds nothing, and a partly readable one leaves an empty learner. |
| Learner.SavedIsRestored | ironmule/local_learner.py:541-581 | Saving and restoring on the same runtime brings back exactly the accepted evidence. |
| Activation.LearnedDispatchActivation.constructor | ironmule/activation.py:154-183 | A persisted kill outranks the caller's wish. |
| Activation.LearnedDispatchActivation.Prepare | ironmule/activation.py:264-277 | A shut gate on the current state if admitted; the cache stays sound if and only if it was empty or the state had not changed. |
| Activation.CandidateNeeds | ironmule/activation.py:335-355 | A record is a candidate exactly on the eligible route for a workload class with a qualified verdict. |
| Activation.LearnedDispatchActivation.ForDispatch | ironmule/activation.py:279-328 | The gate is open exactly when the record is a candidate; with a sound cache the record is the one the current state gives; a state that no longer qualifies kills; every dispatch is on record with whether a kill came before. |
| Activation.LearnedDispatchActivation.AfterDispatch | ironmule/activation.py:357-369 | An anomaly of a candidate dispatch kills, and nothing else does. |
| Activation.LearnedDispatchActivation.Kill | ironmule/activation.py:371-384 | The gate is shut for good; it raises if and only if there is a state path that cannot be written, and the record is there afterwards if and only if it was or could be written. |
| Activation.KillThenRestart | ironmule/activation.py:371-384 | A layer that starts after a kill is enabled exactly when it is wanted and no record was there or could be written. |
| Activation.UnwrittenKill | ironmule/activation.py:371-384 | A kill whose record could not be written, and a candidate dispatched after the restart. |
| Activation.StaleRecord | ironmule/activation.py:264-277 | A concrete run in which a workload that no longer qualifies is dispatched as a candidate. |
| Activation.Lifetimes | ironmule/activation.py:151-183 | Over any sequence of evidence, monitor changes, preparations, dispatches, anomalies, kills and restarts, no dispatch on record after a kill, in the process or persisted, is a candidate. |
| Budget.PrunedIsFull | friday_evidence/budget.py:105-109 | What pruning drops contributes nothing to the window. |
| Budget.RollingSums | friday_evidence/budget.py:105-109 | The window's work is, of each event, as much as lies after the window's start. |
| Budget.DutyCycleAlways | friday_evidence/budget.py:105-111 | The duty cycle holds at every instant, not only where it was checked. |
| Budget.ContinuousStretch | friday_evidence/budget.py:86-94 | A stretch of events with no long gap and no reset inside it is within the continuous limit. |
| Budget.BudgetGuard.Guarantees | friday_evidence/budget.py:74-112 | A guard that never raised has kept the duty cycle at every instant, the continuous limit on every stretch and the work limit. |
| Budget.BudgetGuard.BeforeCandidate | friday_evidence/budget.py:51-61 | A candidate starts only when the cooldown really passed, and that ends the stretch. |
| Budget.BudgetGuard.RequiredBreak | friday_evidence/budget.py:67-72 | The break really took its time, and ends the stretch. |
| Budget.BudgetGuard.RecordGpu | friday_evidence/budget.py:74-112 | Work that ends at the clock's time is recorded exactly if it and its stretch are within the continuous limit and all work within the work limit, and accepted exactly if besides the duty cycle over the whole history holds and there is wall time left; a recorded event begins a new stretch exactly if a break came before it. |
| Journal.SameHeadSameJournal | friday_evidence/events.py:400-421 | Under an injective digest two verified journals with the same head digest are the same journal. |
| Journal.KeptDigest | friday_evidence/events.py:400-421 | A verified journal that contains the digest of a prefix somebody kept begins with that prefix. |
| Journal.EventJournal.VerifyChain | friday_evidence/events.py:400-421 | The walk accepts exactly the verified journals. |
| Journal.EventJournal.Append | friday_evidence/events.py:435-475 | The row is added exactly if the journal is writable and verified, the fields are valid and the database takes it; it is the next row of the chain. An error comes without it, or exactly when the file is too large then. |
| Journal.LateError | friday_evidence/events.py:457-458 | An append that raises although its row was added. |
| Journal.EventJournal.Events | friday_evidence/events.py:477-508 | A page is the first `limit` wanted rows of a verified journal, in order; each has a number after `after_seq` and is of the run that was asked for. |
| Journal.MatchingFilters | friday_evidence/events.py:488-500 | Exactly the rows after `after_seq`, of the run that is asked for or of any, are wanted. |
| Journal.PageSplits | friday_evidence/events.py:488-500 | A page and what follows its last row are together all that is wanted. |
| Journal.EventJournal.ReadAll | friday_evidence/events.py:477-508 | Paging while others append reads the first wanted rows, each once, in order, at least one a page until a page is empty; so with enough pages it reads everything that was wanted when it began, and with an empty page everything there is. |
| Dream.Candidates | ironmule/dream.py:238-250 | Every unopened one-knob child of a valid node, each exactly once, from a parent with the lowest possible ratio. |
| Dream.BestKey | ironmule/dream.py:253-254 | A valid node with the lowest ratio. |
| Dream.Pick | ironmule/dream.py:274-285 | Only a recorded, unopened child of a valid node; a random explorer stops only when there is none. |
| Dream.Replay.Reveal | ironmule/dream.py:307-311 | One more recorded node, at its recorded cost; the curve tells the cost and the best ratio so far. |
| Dream.Replay.CurveFalls | ironmule/dream.py:307-311 | The best ratio of the curve never rises, nor from its starting 1.0 when the root's ratio is at most that. |
| Dream.Replay.Explore | ironmule/dream.py:325-333 | The exploration ends, with the budget spent or nothing left to pick. |
| Dream.Replay.Coordinate | ironmule/dream.py:313-324 | Step by step: a one-knob change of the best so far that is recorded and not yet opened is opened, and becomes the best exactly if it is valid and below 0.995 of its ratio; where ratios are positive the end is no worse than the root. |
| Dream.Replay.Report | ironmule/dream.py:336-343 | What is spent is the sum of the opened tests' costs; the time to within one per cent is that of the first such point of the curve, and none exactly if there is none; the reported best is never better than the tree's when the root's ratio is at most 1.0, as the recorder makes it, and for other trees exactly when their best is. |

## Left out

- Floating point, tensors, real kernels' launches and the conversions from bfloat16: rounded operations are uninterpreted in `RowKernels`, and reals in `FlashAttention`, `Learner` and `Budget`.
- Model loading, tokenizers and the network itself: uninterpreted functions of a row and its own history.
- Metrics, telemetry, tracing and wall-clock times, except the budget guard's clock; a wait for an arrival is a choice of when it happens.
- Threads: the learning worker is interleaved as whole turns between the steps of a run, and the slot lock is not modelled.
- The other executors of `ironmule/service.py` and its MLX backend: `Serving.Backend` stands for every backend that keeps the contract.
- The native controller and planner cores: any decision is possible; tickets are numbered in the order they are issued.
- Controller.OnlineController.ExecuteRepeated: with several repetitions the checks of an arm's summed numbers are any values.
- The controller's checkpoint format, envelopes and offline training budget; a save only may raise.
- Drift monitoring itself and the admission axes that are fixed for a runtime: one flag each.
- SQLite, file permissions, atomic renames, JSON text and SHA-256: rows are a sequence, files are values, digests are injective functions.
- Installing and probing plans, choosing a slot size, and refusing models: mostly single checks.
- Teaching the planner from other trees, and the held-out comparison of explorers.
- Serving.Backend.Speculate: assumes that a returned draft finishes the request, because the executor relies on it and the interface does not promise it.
- Grouped.GroupedExecutor.Run: `_owned.remove` compares sessions by identity here; the source's dataclass equality could remove an equal session first, which releases the same slots.
- RowKernels.DenseRows: the unpacking of two bfloat16 values from one word is taken as the order of the data.
- Controller.OnlineController.CompareArms: outcomes with fields of the wrong type, on which the source's arithmetic would raise, are not modelled.
- Controller.OnlineController.Plain: the same, where it replaces the measured time of an outcome.
- Serving.TokenStream.Cancelled: which poll of the caller's predicate it is, is left open, and that the predicate itself raises is not modelled.
- Executor.Runner.AcceptChain: a rewind that raises is not modelled; the dense plan's cannot.
- DensePool.Pool.StepsGroup: the pool meets the relations that `Serving.Backend` is built on, member by member; that the executors run over it follows by reading, since they are written over that class.
- Learner.SavedIsRestored: says nothing about the digest or the last valid update, which depend on the order of insertion.
- Dream.Replay.Report: costs are not rounded to two digits.
