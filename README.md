# aiida_c2sm in Dafny

This project models the core of `aiida_c2sm`, a set of AiiDA plugins. It
has two parts.

**Schedulers.** Two workchains start a dependent workchain only after a set
of upstream processes has finished:

- `WaitForDependencies` (`bakery.py`);
- `Dependencies` (`cycle.py`).

Each takes a list of dependencies. A dependency pairs an upstream process
with a wiring: which of its outputs feed which inputs of the dependent. A
scheduler can depend on other schedulers of its own class. In that case it
follows the chain to the dependent they started, and wires that instead.
The bakery example chains such schedulers into a pipeline:

- `BakeryCycle`: one iteration per day, whose later iterations read the
  earlier ones' results;
- `BakeryIteration`: the straight-line variant of one iteration.

**SPICE.** The rest models the SPICE climate workflow. `Gcm2Icon` runs
three calculation jobs per month, from the start date until the stop date:

- `Prep`, which prepares the GCM data;
- `Conv2Icon`, which converts it;
- an ICON run, which restarts from the previous month's run.

Around these jobs the project also models:

- the calculation jobs' `prepare_for_submission` and `parse`;
- the ICON namelist helpers of `icon_wc.py`: the ISO-8601 period, the
  restart flags, the time steps and the namelist text;
- the parameter dataclasses with their `as_dict`/`from_dict` round trip;
- the database registry of `data.py`.

The modules follow the repository.

| module | models |
|---|---|
| `Bakery` | `WaitForDependencies`, as a class with its context fields, and the pure passes that specify its steps |
| `Cycle` | `Dependencies`, likewise |
| `BakeryLoop` | `BakeryCycle` and `BakeryIteration` |
| `Engine` | what both schedulers share: process handles, dependency links, Python's remove-while-iterating `for` loop over a list (`Visit`), updating inputs from a wiring (`Bind`) and merging in the passthrough inputs |
| `Gcm2Icon` | the `Gcm2Icon` workchain, as a class with its context fields, plus the month sequence and the job plan it follows |
| `IconWc` | the ICON helpers and the `IconParams` field table |
| `Icon`, `Conv2Icon`, `Prep`, `Calc` | the calculation jobs; `Calc` holds what they share (`inputs.sh`, `CalcInfo`, the missing-output parse) |
| `Dataclass`, `Params`, `Data` | the dataclass machinery, `SpiceParams` and the `PrepParams`/registry module |
| `Dates`, `Paths`, `Text`, `Seqs`, `Wrappers` | supporting values: dates and durations, POSIX paths, digits and lines, sequence lemmas, Option/Result |

**How the engine is modelled.**

- A process is identified by a `nat`. Processes a workflow submits get the
  next positions of its submission log.
- A process the schedulers await is seen in its final state: a fixed map
  from ids to handles, each with a status, a kind and its outputs.
- The schedulers' `while` loop ends only because scheduler chains are
  finite. The loop is therefore modelled under a ghost rank that orders the
  schedulers by chain depth, and the weight `Σ 2^rank` falls with every
  round.

**`cycle.py` contradicts its own outline in four places; the model follows
the evident intent, which `bakery.py:287` shows for the same scheduler
pattern.** The four slips are:

- the outline names `cls.collected_inputs` (line 54) for the method
  `collect_inputs`;
- `prepare` builds `ctx.dependency_resolution` by iterating
  `self.dependency_queue.wait_for_ids` (line 66) instead of the context
  queue `ctx.dependency_queue`;
- `collect_inputs` reads `ctx.collect_inputs` (line 124) for
  `collected_inputs`;
- `start_dependent` calls `WorkFlowFactory` (line 136) for
  `WorkflowFactory`.

## Model

| member | source | states |
|---|---|---|
| Engine.Upstreams | src/aiida_c2sm/bakery.py:282 | the ids put in the wait list are the dependencies' upstream processes, one per dependency, in order |
| Engine.WiringOfAt | src/aiida_c2sm/bakery.py:323-324 | when the dependencies form a dict, looking up an upstream's wiring gives the wiring listed with it |
| Engine.IdentityTable | src/aiida_c2sm/bakery.py:287 | the initial resolution table maps exactly the upstream ids, each to itself |
| Engine.FirstUnknown | src/aiida_c2sm/cycle.py:61-63 | no id is reported iff every upstream has a node; otherwise the first upstream without a node is reported |
| Engine.RemoveFirst | src/aiida_c2sm/bakery.py:301 | `list.remove` shortens a list by one when the element occurs in it, and leaves it alone otherwise |
| Engine.RemoveFirstMultiset | src/aiida_c2sm/bakery.py:301 | `list.remove` drops exactly one occurrence of the element |
| Engine.VisitCount | src/aiida_c2sm/bakery.py:293-301 | a `for` loop that removes each element it visits handles ⌈n/2⌉ of n elements and leaves the rest |
| Engine.VisitMultiset | src/aiida_c2sm/bakery.py:293-301 | the handled and the left-over elements together are a permutation of the list: nothing is lost or duplicated |
| Engine.VisitEvensOdds | src/aiida_c2sm/cycle.py:86-89 | on a list without duplicates, the loop handles exactly the elements at even positions and leaves the odd ones, in order |
| Engine.BindSpec | src/aiida_c2sm/bakery.py:320-327 | copying outputs along a wiring succeeds iff every wired output exists; the inputs bound are exactly the wired names, and the last pair naming an input decides its value |
| Engine.BindFromSpec | src/aiida_c2sm/cycle.py:124-126 | the same into existing inputs: the error names a missing output, and inputs the wiring does not name keep their values |
| Engine.MergePassthroughSpec | src/aiida_c2sm/cycle.py:127-131 | the passthrough inputs load iff every node they name exists; the merged inputs hold both key sets, passthrough values override collected ones, and the last pair per key wins |
| Bakery.Prepared | src/aiida_c2sm/bakery.py:281-288 | after `prepare`, the wait list holds the upstream ids in order, futures and inputs are empty, and the resolution table maps each upstream to itself |
| Bakery.PushPassSpec | src/aiida_c2sm/bakery.py:293-301 | `push_futures` fails iff a visited id has no node; on success the scheduler invariant still holds, the table and inputs are unchanged, ids only move from the wait list to the futures, the wait list halves, and on distinct ids the even positions go to the futures in order |
| Bakery.PushPassMoves | src/aiida_c2sm/bakery.py:293-301 | a successful push puts the visited ids after the existing futures and leaves the unvisited ones waiting |
| Bakery.PushFailsAt | src/aiida_c2sm/bakery.py:298 | the first visited id without a node decides the error |
| Bakery.PushCompletes | src/aiida_c2sm/bakery.py:293-301 | when every visited id has a node, the push gives exactly the visited/left-over split |
| Bakery.Step | src/aiida_c2sm/bakery.py:304-328 | checking one future keeps the futures and the resolution entries, only appends to the wait list, keeps the scheduler invariant, and succeeds only for a process that finished ok |
| Bakery.StepFails | src/aiida_c2sm/bakery.py:305-328 | a process that did not finish ok fails the assertion; a chained scheduler always passes; any other process fails iff its wiring names an output it lacks |
| Bakery.StepWaiter | src/aiida_c2sm/bakery.py:309-318 | a chained scheduler's dependent is appended to the wait list and inherits the upstream's resolution entry; inputs, futures and other entries stay |
| Bakery.StepBinds | src/aiida_c2sm/bakery.py:319-327 | a terminal upstream binds exactly its wired input names from its outputs, with the last binding per name winning, and keeps every other input |
| Bakery.Collect | src/aiida_c2sm/bakery.py:303-328 | checking a list of futures keeps the resolution table well formed and succeeds only if every one of them finished ok |
| Bakery.CollectPassSpec | src/aiida_c2sm/bakery.py:303-332 | a successful `collect_inputs` keeps the invariant, only appends to the wait list, leaves the unvisited half of the futures, and every visited future finished ok |
| Bakery.CollectPassKeeps | src/aiida_c2sm/bakery.py:303-332 | replacing the futures by the unvisited ones after the checks keeps the scheduler invariant |
| Bakery.CollectAppend | src/aiida_c2sm/bakery.py:304 | checking a + b is checking a, then b on the result; a failure in a stops the pass |
| Bakery.CollectSnoc | src/aiida_c2sm/bakery.py:304 | checking one more future is one more step |
| Bakery.CollectOneId | src/aiida_c2sm/bakery.py:304 | checking a single future is a single step |
| Bakery.CollectFailsAt | src/aiida_c2sm/bakery.py:305-308 | the first failing check in the pass decides the pass's error |
| Bakery.CollectStateStep | src/aiida_c2sm/bakery.py:304-328 | each loop iteration either ends the pass with its error or advances the loop state, shortening the futures |
| Bakery.StepIgnoresFutures | src/aiida_c2sm/bakery.py:305-328 | a check does not depend on the futures list it runs inside |
| Bakery.PushWeight | src/aiida_c2sm/bakery.py:293-301 | a push never raises the termination weight, and lowers it when the wait list is non-empty |
| Bakery.CollectWeight | src/aiida_c2sm/bakery.py:304-328 | checking futures adds less to the wait list's weight than it removes from the futures |
| Bakery.StepWeight | src/aiida_c2sm/bakery.py:309-318 | a chained scheduler's dependent has a smaller rank, so appending it costs less than removing the scheduler |
| Bakery.CollectPassWeight | src/aiida_c2sm/bakery.py:303-332 | a collect pass never raises the weight and lowers it when there were futures |
| Bakery.ResolveStep | src/aiida_c2sm/bakery.py:277 | one round of the `while` loop is a push then a collect; a failure of either is the loop's failure, otherwise the weight falls and the outcome is unchanged |
| Bakery.ResolveSpec | src/aiida_c2sm/bakery.py:277 | when the loop completes, both lists are empty, the table is well formed, and every id that was listed finished ok |
| Bakery.PassCovers | src/aiida_c2sm/bakery.py:277 | every id listed before a round is still listed after it, or finished ok |
| Bakery.WaitForDependencies.constructor | src/aiida_c2sm/bakery.py:270-274 | the inputs are stored; the context is empty and nothing is submitted yet |
| Bakery.WaitForDependencies.Prepare | src/aiida_c2sm/bakery.py:281-288 | the context becomes the prepared one, with the identity resolution table |
| Bakery.WaitForDependencies.PushFutures | src/aiida_c2sm/bakery.py:293-301 | the context becomes the push pass's result, or the step fails with its error and the futures unchanged |
| Bakery.WaitForDependencies.CollectInputs | src/aiida_c2sm/bakery.py:303-332 | the context becomes the collect pass's result, or the step fails with its error |
| Bakery.WaitForDependencies.CollectOne | src/aiida_c2sm/bakery.py:304-328 | one iteration of the loop over the futures: it fails with the pass's error, or advances the loop state and shortens the futures |
| Bakery.WaitForDependencies.CheckFuture | src/aiida_c2sm/bakery.py:305-328 | the context becomes the step's result; a failed check changes nothing |
| Bakery.WaitForDependencies.StartDependent | src/aiida_c2sm/bakery.py:334-348 | when the passthrough inputs load, exactly one submission of the dependent with the merged inputs is logged and its id recorded; otherwise nothing is submitted |
| Bakery.WaitForDependencies.Round | src/aiida_c2sm/bakery.py:277 | one pass of the outline's `while`: it fails only with the loop's overall error, otherwise it lowers the weight and heads to the same outcome |
| Bakery.WaitForDependencies.Run | src/aiida_c2sm/bakery.py:275-279 | the whole outline: on success exactly one submission of the dependent with the scheduled inputs and the dependent id set; on failure nothing is submitted |
| Cycle.Prepared | src/aiida_c2sm/cycle.py:58-70 | `prepare` fails with the id of an upstream without a node iff there is one; otherwise the queue holds the upstreams in order, the resolution is the identity and everything else is empty |
| Cycle.PreparedConsistent | src/aiida_c2sm/cycle.py:58-70 | the prepared context satisfies the scheduler invariant |
| Cycle.AwaitPassSpec | src/aiida_c2sm/cycle.py:84-90 | `await_dependencies` fails iff a visited id has no node; otherwise it keeps the invariant, resolution, collected list and inputs, moves ids only between the two queues, halves the dependency queue, and puts the even positions into the future queue |
| Cycle.AwaitMoves | src/aiida_c2sm/cycle.py:84-90 | a successful await appends the visited ids to the futures and leaves the rest queued |
| Cycle.AwaitPassFails | src/aiida_c2sm/cycle.py:87 | the await fails iff some visited id has no node |
| Cycle.AwaitFailsAt | src/aiida_c2sm/cycle.py:87 | the first visited id without a node decides the error |
| Cycle.AwaitCompletes | src/aiida_c2sm/cycle.py:84-90 | when every visited id has a node, the await gives exactly the visited/left-over split |
| Cycle.GetDependent | src/aiida_c2sm/cycle.py:143-144 | following a chained scheduler succeeds iff its dependent's node exists, and then gives that dependent |
| Cycle.Step | src/aiida_c2sm/cycle.py:101-113 | resolving one future keeps the futures and inputs, only extends the queue and the collected list, gives new entries the resolved upstream's entry, and succeeds only for a process that finished ok |
| Cycle.StepFails | src/aiida_c2sm/cycle.py:96-109 | a future that did not finish ok gives DEPENDENCY_FAILED; a finished Dependencies future fails iff its `dependent_id` has no node; any other finished future is always followed |
| Cycle.StepQueues | src/aiida_c2sm/cycle.py:102-108 | a finished Dependencies future appends exactly its `dependent_id` to the queue, which inherits the future's resolution entry; every other entry, the collected list, the futures and the inputs stay |
| Cycle.StepCollects | src/aiida_c2sm/cycle.py:109-110 | any other finished future is appended exactly to `collected_workchains`; the queue, the resolution table, the futures and the inputs stay |
| Cycle.StepKeepsTable | src/aiida_c2sm/cycle.py:101-113 | resolving a future keeps every resolution value an upstream of the dependencies |
| Cycle.ResolveAll | src/aiida_c2sm/cycle.py:94-113 | resolving a list of futures keeps the scheduler invariant and succeeds only if every one of them finished ok |
| Cycle.ResolvePassSpec | src/aiida_c2sm/cycle.py:92-113 | a successful `resolve_dependencies` keeps the invariant, only extends the queue and the collected list, leaves the unvisited half of the futures, and every visited future finished ok |
| Cycle.ResolvePassKeeps | src/aiida_c2sm/cycle.py:92-113 | replacing the futures by the unvisited ones after the resolution keeps the invariant |
| Cycle.ResolveAllAppend | src/aiida_c2sm/cycle.py:94 | resolving a + b is resolving a, then b on the result; a failure in a stops the pass |
| Cycle.ResolveSnoc | src/aiida_c2sm/cycle.py:94 | resolving one more future is one more step |
| Cycle.ResolveOneId | src/aiida_c2sm/cycle.py:94 | resolving a single future is a single step |
| Cycle.ResolveStateStep | src/aiida_c2sm/cycle.py:94-113 | each loop iteration either ends the pass with its error or advances the loop state, shortening the futures |
| Cycle.ResolveFailsAt | src/aiida_c2sm/cycle.py:96-100 | the first failing future decides the pass's error |
| Cycle.StepIgnoresFutures | src/aiida_c2sm/cycle.py:94-113 | resolving a future does not depend on the future queue it runs inside |
| Cycle.AwaitWeight | src/aiida_c2sm/cycle.py:84-90 | an await never raises the termination weight, and lowers it when the queue is non-empty |
| Cycle.ResolveAllWeight | src/aiida_c2sm/cycle.py:101-113 | resolving futures adds less to the queue's weight than it removes from the futures |
| Cycle.ResolvePassWeight | src/aiida_c2sm/cycle.py:92-113 | a resolve pass never raises the weight and lowers it when there were futures |
| Cycle.PassCovers | src/aiida_c2sm/cycle.py:51-53 | every id queued before a round is still queued after it, or finished ok |
| Cycle.WaitSpec | src/aiida_c2sm/cycle.py:49-56 | when the `while` loop completes, both queues are empty, the invariant holds, the collected list only grew, and every id that was queued finished ok |
| Cycle.GatherSnoc | src/aiida_c2sm/cycle.py:119-126 | gathering one more collected workchain binds its wiring into the inputs so far; a missing output names the workchain and the port |
| Cycle.GatherLastWins | src/aiida_c2sm/cycle.py:119-126 | after the last workchain is gathered, each of its wired inputs holds its output, with the last binding winning |
| Cycle.GatherKeeps | src/aiida_c2sm/cycle.py:119-126 | gathering keeps the earlier inputs, and inputs that no wiring names keep their values |
| Cycle.GatherStep | src/aiida_c2sm/cycle.py:119-126 | for the workchain at position i, a missing output fails the whole gather, otherwise one more binding is added |
| Cycle.GatherAppendFails | src/aiida_c2sm/cycle.py:119-126 | once a prefix of the collected workchains fails, the whole gather fails with that error |
| Cycle.Dependencies.constructor | src/aiida_c2sm/cycle.py:22-47 | the inputs are stored; queues, resolution and collected inputs are empty and nothing is submitted |
| Cycle.Dependencies.Prepare | src/aiida_c2sm/cycle.py:58-70 | the context becomes the prepared one, or the step fails when an upstream has no node |
| Cycle.Dependencies.IsWaiting | src/aiida_c2sm/cycle.py:75-82 | the result is one of the two queues, and it is non-empty iff either queue is |
| Cycle.Dependencies.AwaitDependencies | src/aiida_c2sm/cycle.py:84-90 | the context becomes the await pass's result, or the step fails with its error and the futures unchanged |
| Cycle.Dependencies.ResolveDependencies | src/aiida_c2sm/cycle.py:92-113 | the context becomes the resolve pass's result, or the step fails with its error; a failed dependency is still in the future queue |
| Cycle.Dependencies.ResolveOne | src/aiida_c2sm/cycle.py:94-113 | one iteration of the loop over the futures: it fails with the pass's error, or advances the loop state and shortens the futures |
| Cycle.Dependencies.Follow | src/aiida_c2sm/cycle.py:101-113 | the context becomes the step's result for a future that finished ok: a Dependencies future queues exactly its dependent with the inherited resolution entry, or fails iff that node is missing; any other future is appended to `collected_workchains` alone |
| Cycle.Dependencies.CollectInputs | src/aiida_c2sm/cycle.py:115-132 | the collected inputs become the gathered and merged inputs, or the step fails with the gather's or the passthrough's error; the queues are unchanged |
| Cycle.Dependencies.GatherInputs | src/aiida_c2sm/cycle.py:119-126 | the loop over the collected workchains computes the gather, or fails with its error |
| Cycle.Dependencies.StartDependent | src/aiida_c2sm/cycle.py:134-140 | exactly one submission of the dependent with the collected inputs is logged and its id recorded |
| Cycle.Dependencies.Round | src/aiida_c2sm/cycle.py:51-53 | one pass of the outline's `while`: it fails only with the loop's overall error, otherwise it lowers the weight and keeps the same outcome |
| Cycle.Dependencies.Run | src/aiida_c2sm/cycle.py:49-56 | the whole outline: on success exactly one submission of the dependent with the scheduled inputs and the dependent id set; on failure nothing is submitted |
| BakeryLoop.IterationError | src/aiida_c2sm/bakery.py:386-412 | an iteration whose list index is out of range raises `IndexError` on `sell_bread_ids[-2]` when buying needs income that is not there, and otherwise on `clean_oven_ids[-1]` |
| BakeryLoop.Iteration | src/aiida_c2sm/bakery.py:384-476 | one iteration submits six processes |
| BakeryLoop.AsNodes | src/aiida_c2sm/bakery.py:384-476 | each submitted process becomes one node, in order |
| BakeryLoop.IterationWiring | src/aiida_c2sm/bakery.py:386-451 | each of the six processes references only earlier nodes; no scheduler lists an upstream twice; the baking stage gets the clean oven as a passthrough input iff the iteration heats a cold oven, and otherwise depends on `clean_oven_ids[-1]` |
| BakeryLoop.StageDistinct | src/aiida_c2sm/bakery.py:415-451 | the dependencies of every scheduler the iteration submits have distinct upstreams |
| BakeryLoop.HistoryStep | src/aiida_c2sm/bakery.py:454-474 | an iteration keeps the history invariant: one new id at the end of each list, pointing at the process it names |
| BakeryLoop.HistoryNext | src/aiida_c2sm/bakery.py:454-474 | the same, with the node count growing by six and `sell_bread_ids` by one |
| BakeryLoop.StartDecides | src/aiida_c2sm/bakery.py:386-412 | starting at iteration `start`, the list indices stay in range iff `start ≤ 1` |
| BakeryLoop.BakeryCycle.constructor | src/aiida_c2sm/bakery.py:355-356 | the bounds and nodes are stored and the id lists are empty |
| BakeryLoop.BakeryCycle.Prepare | src/aiida_c2sm/bakery.py:364-379 | the iteration starts at `start_iteration`, the lists are empty, and three seed `Int(1)` nodes are stored |
| BakeryLoop.BakeryCycle.ShouldContinue | src/aiida_c2sm/bakery.py:380-381 | the loop goes on exactly while iterations up to `end_iteration` are left |
| BakeryLoop.BakeryCycle.RunIteration | src/aiida_c2sm/bakery.py:384-476 | the iteration passes iff its list indices are in range, and otherwise gives that `IndexError`; a pass submits the six processes and appends one id to each list; when `sell_bread_ids[-2]` fails nothing is submitted, and when `clean_oven_ids[-1]` fails the buying stage has been submitted and recorded in `ingredients_ids` |
| BakeryLoop.BakeryCycle.SubmitUntilError | src/aiida_c2sm/bakery.py:386-412 | when an index is out of range, that `IndexError` is raised; the buying stage has been submitted and recorded iff `sell_bread_ids[-2]` was in range or not needed, and nothing else changes |
| BakeryLoop.BakeryCycle.SubmitIteration | src/aiida_c2sm/bakery.py:384-476 | with its indices in range, the iteration's six processes are submitted in order, and each history gains its own stage's id |
| BakeryLoop.IterationNodes | src/aiida_c2sm/bakery.py:386-474 | the nodes of an iteration are the three supply stages followed by the three baking stages |
| BakeryLoop.BakeryCycle.SubmitSupplies | src/aiida_c2sm/bakery.py:386-426 | buying, heating and the dough scheduler are submitted, and the ingredients id is recorded |
| BakeryLoop.BakeryCycle.SubmitBaking | src/aiida_c2sm/bakery.py:428-474 | the baking scheduler and the cleaning and selling schedulers are submitted; the clean-oven, sell-bread and latest-bread ids are recorded |
| BakeryLoop.BakeryCycle.IncrementIteration | src/aiida_c2sm/bakery.py:478-481 | the iteration number goes up by one and nothing else changes |
| BakeryLoop.BakeryCycle.Round | src/aiida_c2sm/bakery.py:359-361 | one loop round passes iff its indices are in range, and then advances the iteration, one id per list and six nodes |
| BakeryLoop.BakeryCycle.Run | src/aiida_c2sm/bakery.py:357-362 | the outline succeeds iff `start ≤ 1` or `start > end`; it runs max(0, end − start + 1) iterations, and each list then has that length |
| BakeryLoop.BakeryIteration.constructor | src/aiida_c2sm/bakery.py:178-180 | the inputs are stored and no step has run yet |
| BakeryLoop.BakeryIteration.BuyIngredients | src/aiida_c2sm/bakery.py:194-203 | up to iteration 2 ingredients are bought with a new `Int(1)` of seed money, later ones from the capital provider's income |
| BakeryLoop.BakeryIteration.PreHeatOven | src/aiida_c2sm/bakery.py:205-214 | on the first iteration a new cold oven is heated, later ones reuse the cleaning provider's clean oven |
| Dates.NextDate | src/aiida_c2sm/spice/gcm2icon/workflow.py:274-275 | the next date is the first of the following month at midnight, rolling December over to January, strictly later, and valid except past year 9999 |
| Dates.BeforeMonthIndex | src/aiida_c2sm/spice/gcm2icon/workflow.py:108-112 | an earlier date never has a later month |
| Dates.StrfYmdhShape | src/aiida_c2sm/spice/conv2icon.py:45-48 | `%Y%m%d%H` gives ten digits that read back as year, month, day and hour |
| Dates.IsoFormatRoundTrip | src/aiida_c2sm/spice/params.py:12-13 | `fromisoformat(isoformat(d)) == d` for every valid date, and the text has 19 characters |
| Dates.IsoFormat | src/aiida_c2sm/spice/params.py:12 | `isoformat` of a valid date is nineteen characters with '-', '-', 'T', ':' and ':' at positions 4, 7, 10, 13 and 16 |
| Dates.FromIsoFormat | src/aiida_c2sm/spice/params.py:13 | every datetime `fromisoformat` accepts is a valid date |
| Dates.FromTotalSeconds | src/aiida_c2sm/spice/params.py:19-20 | turning a duration into seconds and back gives an equal duration, and the same one when it has no years or months |
| Dates.ComponentsRecompose | src/aiida_c2sm/spice/icon_wc.py:277-281 | weeks, days, hours, minutes and seconds recompose the duration, each below its unit's bound |
| Gcm2Icon.Months | src/aiida_c2sm/spice/gcm2icon/workflow.py:74-80 | the loop visits a date iff it is before the stop date: the sequence is non-empty iff `start < stop`, starts at the start date, and holds only valid dates before the stop |
| Gcm2Icon.MonthsUnfold | src/aiida_c2sm/spice/gcm2icon/workflow.py:74-80 | one loop round consumes the first date and continues from its next date |
| Gcm2Icon.MonthsNext | src/aiida_c2sm/spice/gcm2icon/workflow.py:104-105 | each visited date is the next date of the one before |
| Gcm2Icon.MonthStartBefore | src/aiida_c2sm/spice/gcm2icon/workflow.py:108-112 | from the first of a month, the loop continues iff some month start lies before the stop date |
| Gcm2Icon.MonthsCount | src/aiida_c2sm/spice/gcm2icon/workflow.py:108-112 | from the first of a month, the number of rounds is the number of month starts before the stop date |
| Gcm2Icon.StartMonthsCount | src/aiida_c2sm/spice/gcm2icon/workflow.py:74-80 | from any start date there is one round for the start and one per month start before the stop |
| Gcm2Icon.MergeOptions | src/aiida_c2sm/spice/gcm2icon/workflow.py:131-134 | the job options hold both key sets, and the stage's own options override the shared ones |
| Gcm2Icon.LabelDate | src/aiida_c2sm/spice/gcm2icon/workflow.py:121-123 | a job label ends with the ISO format of its date, which reads back as that date |
| Gcm2Icon.LabelsDiffer | src/aiida_c2sm/spice/gcm2icon/workflow.py:159-160 | jobs of the same stage for different dates get different labels |
| Gcm2Icon.PrepFieldsAt | src/aiida_c2sm/spice/gcm2icon/workflow.py:138-147 | the `PrepParams` instance carries the month, the next month, `prep_n_parallel_tasks` and `hincbound` in their fields |
| Gcm2Icon.PrepInstanceBuilt | src/aiida_c2sm/spice/gcm2icon/workflow.py:138-147 | the `PrepParams(...)` call succeeds, with every field set and the month, next month, task count and `hincbound` taken as passed |
| Gcm2Icon.ConvFieldsAt | src/aiida_c2sm/spice/gcm2icon/workflow.py:178-188 | the `Conv2IconParams` instance has the start date, the month, the default `hincbound` 6 and `cleanup_previous` false |
| Gcm2Icon.ConvInstanceBuilt | src/aiida_c2sm/spice/gcm2icon/workflow.py:178-188 | the `Conv2IconParams(...)` call succeeds with every field set; `hincbound` takes its default 6 |
| Gcm2Icon.IconFieldsAt | src/aiida_c2sm/spice/gcm2icon/workflow.py:235-256 | the `IconParams` instance carries the start, stop and current dates |
| Gcm2Icon.IconInstanceBuilt | src/aiida_c2sm/spice/gcm2icon/workflow.py:235-256 | the `IconParams(...)` call succeeds with every field set and the three dates as passed |
| Gcm2Icon.JobInputs | src/aiida_c2sm/spice/gcm2icon/workflow.py:175-234 | a job reads outputs only of the processes it names: a conversion reads its preparation's `gcm_prepared`, an ICON run reads its conversion's `converted` and takes the restart inputs from the previous run exactly when there is one |
| Gcm2Icon.IconBaseInputs | src/aiida_c2sm/spice/gcm2icon/workflow.py:216-230 | the inputs every ICON run gets have no restart ports and read only the conversion's output |
| Gcm2Icon.Plan | src/aiida_c2sm/spice/gcm2icon/workflow.py:74-80 | the loop submits three jobs per visited month |
| Gcm2Icon.PlanSnoc | src/aiida_c2sm/spice/gcm2icon/workflow.py:74-80 | one more month appends its round of three jobs, wired to the previous month's ICON run |
| Gcm2Icon.PlanPrefix | src/aiida_c2sm/spice/gcm2icon/workflow.py:74-80 | the first n months' plan is the first 3n jobs of the whole plan |
| Gcm2Icon.PlanRound | src/aiida_c2sm/spice/gcm2icon/workflow.py:74-80 | job 3i prepares month i; job 3i+1 converts it from job 3i; job 3i+2 runs ICON from job 3i+1, restarting from the previous ICON run |
| Gcm2Icon.PlanWiring | src/aiida_c2sm/spice/gcm2icon/workflow.py:222-234 | in month i the conversion reads the preparation's output and ICON the conversion's; ICON has the restart inputs iff i > 0, and then they come from month i−1's ICON run; all three jobs carry month i |
| Gcm2Icon.Workchain.constructor | src/aiida_c2sm/spice/gcm2icon/workflow.py:85-88 | the workchain's inputs are stored and nothing is submitted yet |
| Gcm2Icon.Workchain.InitIterations | src/aiida_c2sm/spice/gcm2icon/workflow.py:90-94 | the current date is the start, the next date follows it, and the iteration counter is 0 |
| Gcm2Icon.Workchain.IncrIteration | src/aiida_c2sm/spice/gcm2icon/workflow.py:96-106 | the counter goes up by one and the dates move one month on; nothing is submitted |
| Gcm2Icon.Workchain.ShouldRun | src/aiida_c2sm/spice/gcm2icon/workflow.py:108-112 | the loop goes on exactly while months before the stop date are left to run |
| Gcm2Icon.Workchain.Prep | src/aiida_c2sm/spice/gcm2icon/workflow.py:114-150 | one preparation job for the current month is submitted and its id appended to `preps` |
| Gcm2Icon.Workchain.Conv | src/aiida_c2sm/spice/gcm2icon/workflow.py:152-191 | it fails iff the counter is out of range of `preps`, with `AttributeError` when `preps` was never set and `IndexError` otherwise; otherwise it submits one conversion job reading this month's preparation |
| Gcm2Icon.Workchain.WaitForPreviousIcon | src/aiida_c2sm/spice/gcm2icon/workflow.py:193-198 | after the first month it fails with `AttributeError` on `last_icon_id` iff no ICON run was submitted, and otherwise appends that run to `icons` |
| Gcm2Icon.Workchain.Icon | src/aiida_c2sm/spice/gcm2icon/workflow.py:200-259 | it fails iff an index into `convs` or `icons` is out of range, with `AttributeError` for a list never set and `IndexError` otherwise; otherwise it submits one ICON run reading this month's conversion and restarting from the previous run, and records its id |
| Gcm2Icon.Workchain.Finalize | src/aiida_c2sm/spice/gcm2icon/workflow.py:261-271 | it fails with `AttributeError` on `icons` iff no ICON run was ever collected (so the context variable was never set), and otherwise gives the last one |
| Gcm2Icon.Workchain.Step | src/aiida_c2sm/spice/gcm2icon/workflow.py:75-79 | one loop round submits exactly the plan's round for the current month and moves to the next month |
| Gcm2Icon.Workchain.Finish | src/aiida_c2sm/spice/gcm2icon/workflow.py:81-82 | after n rounds, `icons` holds the n ICON runs, and the result is the last one iff n > 0; with no round the failure is the `AttributeError` of the never-set `icons` |
| Gcm2Icon.Workchain.Iteration | src/aiida_c2sm/spice/gcm2icon/workflow.py:74-80 | one round of the `while` loop keeps the loop invariant, records the month and shortens the months left |
| Gcm2Icon.Workchain.LoopEntry | src/aiida_c2sm/spice/gcm2icon/workflow.py:73-74 | before the loop, the loop invariant holds with no months done |
| Gcm2Icon.Workchain.LoopExit | src/aiida_c2sm/spice/gcm2icon/workflow.py:74-80 | when the loop stops, every month has been run and the jobs are the whole plan |
| Gcm2Icon.Workchain.Loop | src/aiida_c2sm/spice/gcm2icon/workflow.py:74-80 | the `while` loop submits exactly the plan for the visited months |
| Gcm2Icon.Workchain.Run | src/aiida_c2sm/spice/gcm2icon/workflow.py:71-83 | the outline submits the plan, collects one ICON run per month, and succeeds iff `start < stop`, with the last ICON run as result; otherwise it fails with the `AttributeError` of the never-set `icons` |
| IconWc.ToIso8601Period | src/aiida_c2sm/spice/icon_wc.py:274-282 | the period text starts with `P` and contains the `T` separator |
| IconWc.ComponentDigits | src/aiida_c2sm/spice/icon_wc.py:277-281 | a non-zero component is two digits of its value and its unit letter |
| IconWc.ZeroPeriod | src/aiida_c2sm/spice/icon_wc.py:274-282 | a zero duration gives `PT` |
| IconWc.HoursPeriod | src/aiida_c2sm/spice/icon_wc.py:274-282 | h hours (0 < h < 24) give `PT` + two-digit h + `H` |
| IconWc.HoursComponents | src/aiida_c2sm/spice/icon_wc.py:277-281 | a whole number of hours below a day has only an hours component |
| IconWc.OnlyHours | src/aiida_c2sm/spice/icon_wc.py:274-282 | a duration with only hours prints as `PT` + the hours + `H` |
| IconWc.RestartFlags | src/aiida_c2sm/spice/icon_wc.py:55-67 | the run is a restart iff the date is not the start date, the initial file is given only for the first run, and the write mode is `sync` iff there are no restart processors |
| IconWc.InitialFileName | src/aiida_c2sm/spice/icon_wc.py:49-58 | the initial file name is the GCM prefix, ten date digits and `_ini.nc` |
| IconWc.PyMod | src/aiida_c2sm/spice/icon_wc.py:321 | Python's `%` takes the sign of the divisor |
| IconWc.GetDtimes | src/aiida_c2sm/spice/icon_wc.py:285-330 | `ndyn_substeps` is set to 5; a given `dtime` is kept, otherwise the estimate is lowered to the largest divisor of 3600 (failing on 0); the radiation, convection and gravity-wave steps are the stated multiples of `dtime` |
| IconWc.Rows | src/aiida_c2sm/spice/icon_wc.py:136-141 | a namelist block has one row per entry, in order |
| IconWc.Block | src/aiida_c2sm/spice/icon_wc.py:134-142 | a block is `&name`, its rows and `/` |
| IconWc.BlocksLayout | src/aiida_c2sm/spice/icon_wc.py:131-143 | the k-th namelist's block stands at its offset among the lines, in dictionary order |
| IconWc.BlocksOffset | src/aiida_c2sm/spice/icon_wc.py:131-143 | each block's offset is the lines of the blocks before it |
| IconWc.BlocksLength | src/aiida_c2sm/spice/icon_wc.py:131-143 | the line count is the sum of the blocks' sizes |
| IconWc.BlocksFrom | src/aiida_c2sm/spice/icon_wc.py:131-143 | the lines from block i on are block i followed by the rest |
| IconWc.BlocksPlain | src/aiida_c2sm/spice/icon_wc.py:131-143 | with one-line names and values every line is free of newlines |
| IconWc.DictToNamelist | src/aiida_c2sm/spice/icon_wc.py:131-143 | the text is the blocks' lines joined by newlines, with a final newline |
| IconWc.NamelistLines | src/aiida_c2sm/spice/icon_wc.py:143 | the text ends with a newline, and splitting it at newlines gives back exactly the lines |
| IconWc.IconDistinct | src/aiida_c2sm/spice/icon_wc.py:333-357 | the `IconParams` field names are distinct |
| IconWc.IconOutputDistinct | src/aiida_c2sm/spice/icon_wc.py:345-357 | the output field names are distinct |
| IconWc.IconApart | src/aiida_c2sm/spice/icon_wc.py:333-357 | the field groups do not share names |
| IconWc.IconParamsRoundTrip | src/aiida_c2sm/spice/icon_wc.py:359-396 | `IconParams.from_dict(p.as_dict())` gives back `p` |
| Calc.ShellJob | src/aiida_c2sm/spice/conv2icon.py:70-89 | the calc info writes only `inputs.sh` and runs the one code with the given links and copies |
| Calc.Lines | src/aiida_c2sm/spice/conv2icon.py:63-68 | one `KEY=value` line per variable, in order |
| Calc.Zip | src/aiida_c2sm/spice/conv2icon.py:65-67 | keys and values are paired by position |
| Calc.InputsShLines | src/aiida_c2sm/spice/conv2icon.py:63-68 | splitting `inputs.sh` at newlines gives back one line per variable |
| Calc.InputsShEnd | src/aiida_c2sm/spice/conv2icon.py:63-68 | `inputs.sh` ends with the last variable's line, with no trailing newline |
| Calc.LineFields | src/aiida_c2sm/spice/conv2icon.py:66 | before the first `=` of a line is the upper-cased key and after it the value |
| Calc.UpperKeeps | src/aiida_c2sm/spice/conv2icon.py:66 | upper-casing the key adds no `=` or newline |
| Calc.LineNoNewline | src/aiida_c2sm/spice/conv2icon.py:66 | a line built from one-line parts has no newline |
| Calc.Show | src/aiida_c2sm/spice/conv2icon.py:66 | `f"{value}"` writes a string as it is and a non-negative integer as decimal digits that read back as its value |
| Calc.SubPathAppends | src/aiida_c2sm/spice/prep.py:80 | `str(Path(remote) / name)` appends the name to the remote path |
| Calc.ParseOutfiles | src/aiida_c2sm/spice/prep.py:77-85 | the parse fails with the missing-output exit code iff `outfiles` is empty, and otherwise outputs the `outfiles` folder on the same computer |
| Icon.OutDirNames | src/aiida_c2sm/spice/icon.py:110-111 | the ten output folders are named `out01` to `out10`, numbered as they read, and distinct |
| Icon.Folder.GetSubfolder | src/aiida_c2sm/spice/icon.py:111 | the sandbox gains the named subfolder |
| Icon.MakeOutDirs | src/aiida_c2sm/spice/icon.py:110-111 | the sandbox gains exactly the ten output folders |
| Icon.OnComputer | src/aiida_c2sm/spice/icon.py:121-171 | each link pair becomes one remote entry on the code's computer, in order |
| Icon.BaseLinks | src/aiida_c2sm/spice/icon.py:121-171 | there are eight base links, all on the code's computer |
| Icon.LinkTargets | src/aiida_c2sm/spice/icon.py:121-171 | what each of the eight links points at and is named |
| Icon.IniByName | src/aiida_c2sm/spice/icon.py:133-150 | a grid file link is named after the last part of its path below `inibasedir` |
| Icon.IniLinkName | src/aiida_c2sm/spice/icon.py:133-150 | that name is the relative path's last part, and an absolute relative path replaces `inibasedir` |
| Icon.RestartLinkName | src/aiida_c2sm/spice/icon.py:181-183 | a restart file starting with `multifile` is linked as the multifile restart, any other as the single restart |
| Icon.RestartLinks | src/aiida_c2sm/spice/icon.py:172-185 | it fails iff a restart folder is given without a file name; otherwise there is one restart link iff a folder is given |
| Icon.RestartEntry | src/aiida_c2sm/spice/icon.py:176-185 | the restart link is on the given computer |
| Icon.RestartLink | src/aiida_c2sm/spice/icon.py:172-185 | the ninth link points at the restart file in its folder, under the name its kind calls for |
| Icon.Symlinks | src/aiida_c2sm/spice/icon.py:121-185 | the links are the eight base links plus the restart link iff a restart is given, all on the code's computer; a folder without a file name fails |
| Icon.LocalCopies | src/aiida_c2sm/spice/icon.py:187-198 | the master namelist and the model namelist `NAMELIST_<expid>` are copied in |
| Icon.Submission | src/aiida_c2sm/spice/icon.py:109-199 | the calc info runs the code with those links and copies and writes no files; it fails exactly when symlinks does |
| Icon.PrepareForSubmission | src/aiida_c2sm/spice/icon.py:109-199 | it creates the ten output folders and gives that calc info |
| Icon.LineEnd | src/aiida_c2sm/spice/icon.py:209-210 | the end of the first line for the regex |
| Icon.FirstStamp | src/aiida_c2sm/spice/icon.py:209 | the first position of a restart time stamp |
| Icon.HasAt | src/aiida_c2sm/spice/icon.py:210 | whether a string occurs from a position on |
| Icon.RestartMatcher | src/aiida_c2sm/spice/icon.py:209 | the matcher accepts a name iff it matches the restart file regex |
| Icon.MultiMatcher | src/aiida_c2sm/spice/icon.py:210 | the matcher accepts a name iff it matches the multifile restart regex |
| Icon.RestartFileMatcher | src/aiida_c2sm/spice/icon.py:209-210 | a name is taken as a restart file iff it matches either regex |
| Icon.MultiRestartLinkName | src/aiida_c2sm/spice/icon.py:210 | a name matching the multifile regex is linked as the multifile restart |
| Icon.Parse | src/aiida_c2sm/spice/icon.py:205-218 | it succeeds iff some remote file is a restart file, and then outputs the first one and the remote folder; otherwise it gives the missing-output exit code and no outputs |
| Conv2Icon.AttrsOf | src/aiida_c2sm/spice/conv2icon.py:42 | the attributes read from the parameters carry its dates and cleanup flag |
| Conv2Icon.FixedPaths | src/aiida_c2sm/spice/conv2icon.py:51-56 | the external-parameter and grid files are in the domain folder below `inibasedir` |
| Conv2Icon.DomainFileText | src/aiida_c2sm/spice/conv2icon.py:51-56 | a domain file path is `inibasedir`/domain/name |
| Conv2Icon.NamesAreParts | src/aiida_c2sm/spice/conv2icon.py:53-56 | the domain folder and grid names are single path parts |
| Conv2Icon.CleanupFlag | src/aiida_c2sm/spice/conv2icon.py:60 | the cleanup variable is `1` iff the flag is true, else `0` |
| Conv2Icon.Variables | src/aiida_c2sm/spice/conv2icon.py:44-61 | the variables are the fixed keys in their order |
| Conv2Icon.InputsShape | src/aiida_c2sm/spice/conv2icon.py:63-68 | `inputs.sh` has twelve lines, one per variable |
| Conv2Icon.DateVariables | src/aiida_c2sm/spice/conv2icon.py:45-48 | the two dates are ten digits each, and the year and month variables are the date's first four and next two digits |
| Conv2Icon.DateValues | src/aiida_c2sm/spice/conv2icon.py:45-48 | the date variables are the dates' `strftime` texts |
| Conv2Icon.PrepareForSubmission | src/aiida_c2sm/spice/conv2icon.py:41-89 | the calc info writes `inputs.sh`, links the prepared data, copies the boundary data, and runs the code |
| Conv2Icon.Parse | src/aiida_c2sm/spice/conv2icon.py:95-112 | it fails with the missing-output exit code iff `outfiles` is empty, and otherwise outputs the `outfiles` and `boundary_data` folders |
| Conv2Icon.FieldsDistinct | src/aiida_c2sm/spice/conv2icon.py:115-125 | the `Conv2IconParams` field names are distinct |
| Conv2Icon.OnlyDatesConverted | src/aiida_c2sm/spice/conv2icon.py:127-141 | exactly the two date fields are converted in `as_dict`/`from_dict` |
| Conv2Icon.AsDict | src/aiida_c2sm/spice/conv2icon.py:127-131 | `as_dict` gives the field table's dictionary |
| Conv2Icon.RoundTrip | src/aiida_c2sm/spice/conv2icon.py:127-141 | `Conv2IconParams.from_dict(p.as_dict())` gives back `p` |
| Conv2Icon.FromDict | src/aiida_c2sm/spice/conv2icon.py:133-141 | on success the instance has exactly the fields and the dictionary no other key; a missing `start_date` is the `KeyError`; a missing `hincbound` or `cleanup_previous` takes its default 6 or `False` |
| Prep.Variables | src/aiida_c2sm/spice/prep.py:38-48 | the variables are the fixed keys in their order |
| Prep.InputsShape | src/aiida_c2sm/spice/prep.py:50-55 | `inputs.sh` has nine `KEY=value` lines, one per variable |
| Prep.DateVariables | src/aiida_c2sm/spice/prep.py:39-42 | the dates are ten digits each, and the year and month variables are the date's first four and next two digits |
| Prep.DateValues | src/aiida_c2sm/spice/prep.py:39-42 | the date variables are the dates' `strftime` texts |
| Prep.PrepareForSubmission | src/aiida_c2sm/spice/prep.py:36-69 | the calc info writes `inputs.sh`, links only `gcm_data`, and runs the code |
| Prep.Parse | src/aiida_c2sm/spice/prep.py:75-85 | it fails with the missing-output exit code iff `outfiles` is empty, and otherwise outputs `gcm_prepared` as the `outfiles` folder |
| Dataclass.FromJson | src/aiida_c2sm/spice/params.py:9-35 | a converted value has the converter's type |
| Dataclass.ConverterRoundTrip | src/aiida_c2sm/spice/params.py:9-35 | each converter reads back what it writes |
| Dataclass.DurationConverterSame | src/aiida_c2sm/spice/params.py:19-30 | the duration converter reads back an equal duration |
| Dataclass.ToDict | src/aiida_c2sm/spice/params.py:88-94 | `as_dict` keeps the field names |
| Dataclass.ToDictFields | src/aiida_c2sm/spice/params.py:88-94 | each field is written with its converter, and plain fields as they are |
| Dataclass.FieldsToJson | src/aiida_c2sm/spice/params.py:88-94 | the loop over the fields computes `as_dict` |
| Dataclass.FirstFailure | src/aiida_c2sm/spice/params.py:97-100 | no error iff every field converts; otherwise the error of a field that does not |
| Dataclass.FailIndex | src/aiida_c2sm/spice/params.py:97-100 | the fields before it convert, and the one at it gives the first error |
| Dataclass.ConvertedPrefix | src/aiida_c2sm/spice/params.py:97-100 | converting the fields in place keeps the keys |
| Dataclass.Construct | src/aiida_c2sm/spice/params.py:101 | `cls(**data)` succeeds iff every key is a field and every missing field has a default; the instance has every field, with the given values and the defaults |
| Dataclass.FieldsFromJson | src/aiida_c2sm/spice/params.py:96-101 | `from_dict` gives the field table's result, and leaves the dictionary converted up to the first failing field |
| Dataclass.FromDict | src/aiida_c2sm/spice/params.py:96-101 | on success the dictionary has no key that is not a field, the instance has every field, and each field left out holds its default |
| Dataclass.FirstFieldMissing | src/aiida_c2sm/spice/params.py:97-99 | a converted first field that is missing is the `KeyError` `from_dict` raises |
| Dataclass.FieldFromJson | src/aiida_c2sm/spice/params.py:98-100 | one field converted in place either fails with the first error or extends the converted prefix |
| Dataclass.RoundTrip | src/aiida_c2sm/spice/params.py:88-101 | for distinct fields, `from_dict(as_dict(p)) == p` |
| Dataclass.ConstructAll | src/aiida_c2sm/spice/params.py:101 | with every field given, construction gives the data back |
| Dataclass.Keywords | src/aiida_c2sm/spice/gcm2icon/workflow.py:138-147 | the keywords hold exactly the given fields, with their values |
| Dataclass.Built | src/aiida_c2sm/spice/gcm2icon/workflow.py:138-147 | the built instance has every field, given or defaulted |
| Dataclass.ConstructKeywords | src/aiida_c2sm/spice/gcm2icon/workflow.py:138-147 | calling the class with those keywords gives that instance |
| Dataclass.BuiltGiven | src/aiida_c2sm/spice/gcm2icon/workflow.py:138-147 | a given field keeps its value |
| Params.PathField | src/aiida_c2sm/spice/params.py:33-34 | a path field converts with `Path`/`str` and has no default |
| Params.SpiceDistinct | src/aiida_c2sm/spice/params.py:37-86 | the `SpiceParams` field names are distinct |
| Params.SpiceDefaultedDistinct | src/aiida_c2sm/spice/params.py:43-86 | the defaulted field names are distinct |
| Params.SpiceApart | src/aiida_c2sm/spice/params.py:37-86 | required and defaulted fields do not share names |
| Params.SpiceRequired | src/aiida_c2sm/spice/params.py:37-86 | a field has no default iff it is a date or a path field |
| Params.AsDict | src/aiida_c2sm/spice/params.py:88-94 | `as_dict` gives the field table's dictionary |
| Params.FromDict | src/aiida_c2sm/spice/params.py:96-101 | `from_dict` gives the field table's result and converts the dictionary in place up to the first failing field |
| Params.SpiceRoundTrip | src/aiida_c2sm/spice/params.py:88-101 | `SpiceParams.from_dict(p.as_dict())` gives back `p` |
| Params.SpiceNeedsStartDate | src/aiida_c2sm/spice/params.py:97-101 | a dictionary without `start_date` fails with a missing key |
| Data.PrepDistinct | src/aiida_c2sm/spice/data.py:30-38 | the `PrepParams` field names are distinct |
| Data.PrepNoDefaults | src/aiida_c2sm/spice/data.py:30-38 | no `PrepParams` field has a default |
| Data.NoDefaultsAllRequired | src/aiida_c2sm/spice/data.py:49-55 | without defaults, `from_dict` succeeds only on a dictionary holding every field |
| Data.PrepAllRequired | src/aiida_c2sm/spice/data.py:49-55 | `PrepParams.from_dict` succeeds only on a dictionary holding every field |
| Data.AsDict | src/aiida_c2sm/spice/data.py:40-46 | `as_dict` gives the field table's dictionary |
| Data.PrepRoundTrip | src/aiida_c2sm/spice/data.py:40-55 | `PrepParams.from_dict(p.as_dict())` gives back `p` |
| Data.FromDict | src/aiida_c2sm/spice/data.py:49-55 | on success the dictionary and the instance have exactly the seven fields; a missing `date` is the `KeyError` |
| Data.CandidatesFrom | src/aiida_c2sm/spice/data.py:60-63 | the query gives the group's nodes with the label, each once, in increasing order |
| Data.Candidates | src/aiida_c2sm/spice/data.py:60-63 | a node is a candidate iff it is in the group and carries the label |
| Data.GetDataOn | src/aiida_c2sm/spice/data.py:58-74 | it fails iff the group is missing or several nodes carry the label (the ambiguity error, as intended; see Findings); one candidate is returned; with none, the new node is stored and added to the group |
| Data.GetDataKeeps | src/aiida_c2sm/spice/data.py:64-68 | the database only grows, by at most one node, and stays consistent |
| Data.GetDataIdempotent | src/aiida_c2sm/spice/data.py:64-68 | a second call after storing finds the stored node and changes nothing |
| Data.CandidatesAfterStore | src/aiida_c2sm/spice/data.py:65-67 | storing a node adds it to the candidates iff it carries the label |
| Data.AmbiguityNamesGcmData | src/aiida_c2sm/spice/data.py:69-73 | several candidates give the ambiguity error, whose message names the `gcm_data` label whatever label was asked for, then lists the pks |
| Data.QueryAll | src/aiida_c2sm/spice/data.py:72 | `query.all()` gives one row per candidate, each a one-element list holding that candidate |
| Data.PksOfRows | src/aiida_c2sm/spice/data.py:72 | reading `pk` off a row, which is a list, raises `AttributeError` as soon as there is a row |
| Data.GetDataAsWritten | src/aiida_c2sm/spice/data.py:58-74 | as written, several candidates raise `AttributeError` on `pk` and change nothing; otherwise it agrees with the intended `get_data` |
| Data.AmbiguityAsWritten | src/aiida_c2sm/spice/data.py:69-73 | with two `gcm_data` nodes in the group, the code as written fails on `c.pk`, while the intended version reports the ambiguity |
| Data.Registry.GetData | src/aiida_c2sm/spice/data.py:58-74 | the registry's database and the result are what `get_data` gives |
| Data.Registry.GetGcmData | src/aiida_c2sm/spice/data.py:82-84 | `get_data` with the GCM data label |
| Data.Registry.GetInidata | src/aiida_c2sm/spice/data.py:77-79 | `get_data` with the initial data label |
| Data.Registry.GetInibasedir | src/aiida_c2sm/spice/data.py:87-89 | `get_data` with the `inibasedir` label |
| Paths.ToStringRoundTrip | src/aiida_c2sm/spice/params.py:33-34 | `Path(str(p)) == p` |
| Paths.FromString | src/aiida_c2sm/spice/params.py:34 | `Path(s)` keeps only parts `pathlib` keeps, and is absolute iff `s` starts with '/' |
| Paths.ToString | src/aiida_c2sm/spice/params.py:34 | `str(p)` of a canonical path is never empty and starts with '/' iff the path is absolute |
| Paths.Div | src/aiida_c2sm/spice/conv2icon.py:51-56 | joining keeps a path canonical |
| Paths.DivName | src/aiida_c2sm/spice/icon.py:133-150 | `(p / rel).name` is `rel`'s name; an absolute `rel` replaces `p` |
| Paths.ToStringDiv | src/aiida_c2sm/spice/conv2icon.py:51-56 | joining a single part appends it to the path's text |
| Paths.FromStringPart | src/aiida_c2sm/spice/conv2icon.py:53-56 | a single part reads as a one-part relative path |

## Left out

- Engine internals are not modelled: `submit`, `to_context`, persistence, reports, `load_node` and queries. A process is a log position and its node a final-state handle.
- Scheduler termination is proved under a ghost rank, which orders chained schedulers by depth. A cycle of schedulers waiting on each other would loop forever in the source.
- Descriptions, reports, `metadata.computer` and the port declarations of `define` are not modelled. The parameter field tables keep the defaults.
- `example_flow.py`, `prepare/prep_workflow.py`, the `examples/` scripts and `__init__.py` are not part of this model.
- The bakery's worker workchains are modelled as entry points and port names only. Their bodies sleep and emit constant outputs.
- BakeryLoop.BakeryIteration: only the two steps that apply the thresholds (`buy_ingredients`, `pre_heat_oven`) are modelled. The later steps (bakery.py 216-254) submit workers with outputs read through `to_context`, which is engine plumbing.
- The Jinja rendering in `prepare_namelists` and the options of `launch_icon` are left out. Only the values computed for them are modelled.
- Floating point is left out. The `dtime` estimate from the netCDF grid is an integer parameter of `GetDtimes`, and float durations are whole seconds.
- `dt_restart` (icon_wc.py 173-175) and the tabulated report padding are left out, because they are floating point or formatting only.
- Durations are modelled as (years, months, seconds), with equality up to total seconds. Microseconds and time zones are dropped.
- Dates.NextDate: validity is not promised for December of year 9999, where Python raises an overflow error.
- The general regex engine is left out. Only the two fixed restart patterns are modelled, as predicates with matchers proved equal to them.
- The workchain's parameters are a field record, and a field it lacks reads as `None`. A `SpiceParams` instance always has every field, so this case does not arise in the source.
- `ghg_file_relpath` is passed through as a plain string.
- The `coolname` default experiment id is random, so it is a parameter.
- `clone()` of remote data is modelled as the same remote.
- The registry's query order is modelled as increasing pk. When the group is missing, the new node is stored and the call fails with `NotExistent`, as `load_group` does.
- Remote folder I/O is replaced by parameters: `listdir` is a sequence of names, and the emptiness of `outfiles` is a flag.
- Dates.FromIsoFormat: reads only the 19-character `YYYY-MM-DDTHH:MM:SS` form that `isoformat` writes. It rejects other forms Python accepts, such as fractions of a second, offsets, a date alone or a space separator.
- Icon.Stamp / Icon.MultiStamp: `\d` is read as the ASCII digits '0' to '9'. A Python `str` pattern also matches other Unicode decimal digits.
- Paths.FromString: a leading "//" is folded to the single root "/". POSIX `pathlib` keeps exactly two leading slashes as a distinct root.

## Findings

| source | as written | input that shows it | evidently intended | confidence | as-written member | corrected member |
|---|---|---|---|---|---|---|
| src/aiida_c2sm/spice/data.py:69-73 | `[c.pk for c in query.all()]` reads `pk` off each row of `query.all()`, but each row is a list of nodes (line 74 takes `query.one()[0]`), so it raises `AttributeError` | two `gcm_data` remote nodes in the `spice-exp` group | raise `DatabaseAmbiguityError` naming the pks of the candidates | not executed; relies on `QueryBuilder.all()` returning one list per row | Data.GetDataAsWritten, Data.AmbiguityAsWritten | Data.GetDataOn, Data.AmbiguityNamesGcmData |
