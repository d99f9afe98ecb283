/** cycle.py's Dependencies (lines 5-144), the rewrite of WaitForDependencies
    with a failure exit code and with the input wiring moved into a step of
    its own after the loop.

    As written the class cannot run, and the model follows what it evidently
    means, which is what bakery.py does:
    - the outline (line 54) names `cls.collected_inputs`; the step is
      `collect_inputs` (line 115);
    - `prepare` (line 66) reads `self.dependency_queue.wait_for_ids`; it means
      the queue it has just built, `self.ctx.dependency_queue`;
    - `collect_inputs` (lines 124, 128) updates `ctx.collect_inputs`, while
      `prepare` (line 69) creates and `start_dependent` (line 137) submits
      `ctx.collected_inputs`; all three mean `collected_inputs`;
    - `start_dependent` (line 136) calls `plugins.WorkFlowFactory`; the
      factory is `WorkflowFactory`, and choosing the class is not modelled. */
module Cycle {
  import opened Wrappers
  import opened Engine

  /** The context between two steps: `dependency_queue`, `future_queue`,
      `dependency_resolution`, `collected_workchains` and `collected_inputs`. */
  datatype Ctx = Ctx(queue: seq<Id>, futures: seq<Id>, resolution: map<Id, Id>,
                     collected: seq<Id>, inputs: map<Name, Id>)

  /** `prepare`: every dependency is loaded (to report its pk), so an unknown
      uuid raises; then the queue holds the upstream ids in dict order, each
      resolving to itself, and nothing is awaited or collected. */
  function Prepared(handles: Handles, deps: seq<Link>): (r: Result<Ctx, Failure>)
    ensures r.Failure? <==> exists u :: u in Upstreams(deps) && u !in handles
    ensures r.Failure? ==> r.error.NotFound? && r.error.id in Upstreams(deps) && r.error.id !in handles
    ensures r.Success? ==>
      && r.value.queue == Upstreams(deps) && r.value.futures == [] && r.value.collected == []
      && r.value.inputs == map[]
      && (forall id :: id in r.value.queue <==> id in r.value.resolution)
      && (forall id :: id in r.value.resolution ==> r.value.resolution[id] == id)
  {
    match FirstUnknown(handles, Upstreams(deps))
    case Some(id) => Failure(NotFound(id))
    case None => Success(Ctx(Upstreams(deps), [], IdentityTable(Upstreams(deps)), [], map[]))
  }

  predicate TableOk(deps: seq<Link>, c: Ctx) {
    forall id :: id in c.resolution ==> c.resolution[id] in Upstreams(deps)
  }

  predicate QueueOk(c: Ctx) {
    forall id :: id in c.queue ==> id in c.resolution
  }

  /** A collected workchain is a node of the database with a resolution entry. */
  predicate CollectedOk(handles: Handles, c: Ctx) {
    forall id :: id in c.collected ==> id in handles && id in c.resolution
  }

  /** What makes every lookup of the steps succeed. */
  predicate Consistent(deps: seq<Link>, handles: Handles, c: Ctx) {
    && QueueOk(c)
    && (forall id :: id in c.futures ==> id in c.resolution && id in handles)
    && CollectedOk(handles, c)
    && TableOk(deps, c)
  }

  lemma PreparedConsistent(deps: seq<Link>, handles: Handles)
    requires Prepared(handles, deps).Success?
    ensures Consistent(deps, handles, Prepared(handles, deps).value)
  {
  }

  // ---- await_dependencies ----

  /** One `await_dependencies` step: the loop removes each id it visits from
      the queue and awaits the loaded node, which lands in `future_queue` once
      the step is over. */
  function AwaitPass(handles: Handles, c: Ctx): Result<Ctx, Failure> {
    var v := Visit(c.queue, 0);
    match FirstUnknown(handles, v.0)
    case Some(id) => Failure(NotFound(id))
    case None => Success(c.(queue := v.1, futures := c.futures + v.0))
  }

  lemma AwaitMoves(deps: seq<Link>, handles: Handles, c: Ctx)
    requires Consistent(deps, handles, c) && AwaitPass(handles, c).Success?
    ensures var v := Visit(c.queue, 0); var c' := AwaitPass(handles, c).value;
      && c' == c.(queue := v.1, futures := c.futures + v.0)
      && Consistent(deps, handles, c')
      && multiset(c'.queue) + multiset(c'.futures) == multiset(c.queue) + multiset(c.futures)
  {
    var v := Visit(c.queue, 0);
    VisitMultiset(c.queue, 0);
    VisitIn(c.queue, 0);
    assert multiset(c.futures + v.0) == multiset(c.futures) + multiset(v.0);
  }

  lemma AwaitPassFails(handles: Handles, c: Ctx)
    ensures AwaitPass(handles, c).Failure? <==> exists id :: id in Visit(c.queue, 0).0 && id !in handles
  {
    var u := FirstUnknown(handles, Visit(c.queue, 0).0);
    assert AwaitPass(handles, c).Failure? <==> u.Some?;
    if u.Some? {
      assert u.value in Visit(c.queue, 0).0;
    }
  }

  /** An await pass fails exactly when it visits an unknown id; otherwise it
      keeps the context consistent, moves ids from the queue to the futures
      without losing or repeating any, halves the queue (rounding down), and on
      a queue without repeats moves exactly the ids at even positions. */
  lemma AwaitPassSpec(deps: seq<Link>, handles: Handles, c: Ctx)
    requires Consistent(deps, handles, c)
    ensures AwaitPass(handles, c).Failure? <==> exists id :: id in Visit(c.queue, 0).0 && id !in handles
    ensures AwaitPass(handles, c).Success? ==>
      var c' := AwaitPass(handles, c).value;
      && Consistent(deps, handles, c')
      && c'.resolution == c.resolution && c'.collected == c.collected && c'.inputs == c.inputs
      && multiset(c'.queue) + multiset(c'.futures) == multiset(c.queue) + multiset(c.futures)
      && |c'.queue| == |c.queue| / 2
      && (NoDups(c.queue) ==> c'.queue == Odds(c.queue) && c'.futures == c.futures + Evens(c.queue))
  {
    AwaitPassFails(handles, c);
    if AwaitPass(handles, c).Success? {
      AwaitMoves(deps, handles, c);
      VisitCount(c.queue, 0);
      if NoDups(c.queue) {
        VisitEvensOdds(c.queue);
      }
    }
  }

  lemma AwaitFailsAt(handles: Handles, c0: Ctx, loaded: seq<Id>, s: seq<Id>, i: nat)
    requires i < |s| && VisitsSoFar(c0.queue, loaded, s, i) && s[i] !in handles
    requires forall id :: id in loaded ==> id in handles
    ensures AwaitPass(handles, c0) == Failure(NotFound(s[i]))
  {
    VisitAdvance(c0.queue, loaded, s, i);
    FirstUnknownAfterKnown(handles, loaded, Visit(s, i).0);
  }

  lemma AwaitCompletes(handles: Handles, c0: Ctx, loaded: seq<Id>, s: seq<Id>)
    requires Visit(c0.queue, 0) == (loaded, s)
    requires forall id :: id in loaded ==> id in handles
    ensures AwaitPass(handles, c0) == Success(c0.(queue := s, futures := c0.futures + loaded))
  {
  }

  // ---- resolve_dependencies ----

  /** `get_dependent`: the node named by a Dependencies run's `dependent_id`
      output, which must exist. */
  function GetDependent(handles: Handles, id: Id): (r: Result<Id, Failure>)
    requires id in handles && handles[id].kind.DependenciesRun?
    ensures r.Success? <==> handles[id].kind.dependentId in handles
    ensures r.Success? ==> r.value == handles[id].kind.dependentId
    ensures r.Failure? ==> r.error == NotFound(handles[id].kind.dependentId)
  {
    var d := handles[id].kind.dependentId;
    if d in handles then Success(d) else Failure(NotFound(d))
  }

  /** The loop body of `resolve_dependencies` for one future.  A future that
      did not finish ok ends the workchain with DEPENDENCY_FAILED.  A
      Dependencies future hands over its dependent, which joins the queue
      with the future's resolution entry; any other future is collected. */
  function Step(handles: Handles, c: Ctx, id: Id): (r: Result<Ctx, Failure>)
    requires id in handles && id in c.resolution
    ensures r.Success? ==> r.value.futures == c.futures && r.value.inputs == c.inputs
    ensures r.Success? ==> c.resolution.Keys <= r.value.resolution.Keys
    ensures r.Success? ==> c.queue <= r.value.queue && c.collected <= r.value.collected
    ensures r.Success? ==> forall k :: k in r.value.resolution ==>
              (k in c.resolution && r.value.resolution[k] == c.resolution[k]) ||
              r.value.resolution[k] == c.resolution[id]
    ensures r.Success? && QueueOk(c) ==> QueueOk(r.value)
    ensures r.Success? && CollectedOk(handles, c) ==> CollectedOk(handles, r.value)
    ensures r.Success? ==> handles[id].status == FinishedOk
  {
    var h := handles[id];
    if h.status != FinishedOk then Failure(DependencyFailed(id))
    else if h.kind.DependenciesRun? then
      var d :- GetDependent(handles, id);
      Success(c.(queue := c.queue + [d], resolution := c.resolution[d := c.resolution[id]]))
    else Success(c.(collected := c.collected + [id]))
  }

  /** A future that did not finish ok ends the workchain with
      DEPENDENCY_FAILED; a Dependencies future fails only when its dependent
      has no node; any other finished future is always followed. */
  lemma StepFails(handles: Handles, c: Ctx, id: Id)
    requires id in handles && id in c.resolution
    ensures handles[id].status != FinishedOk ==> Step(handles, c, id) == Failure(DependencyFailed(id))
    ensures handles[id].status == FinishedOk && handles[id].kind.DependenciesRun? ==>
              (Step(handles, c, id).Failure? <==> handles[id].kind.dependentId !in handles)
    ensures handles[id].status == FinishedOk && handles[id].kind.DependenciesRun? &&
            handles[id].kind.dependentId !in handles ==>
              Step(handles, c, id) == Failure(NotFound(handles[id].kind.dependentId))
    ensures handles[id].status == FinishedOk && !handles[id].kind.DependenciesRun? ==>
              Step(handles, c, id).Success?
  {
  }

  /** A finished Dependencies future queues exactly its dependent, which
      inherits the future's resolution entry; nothing else changes. */
  lemma StepQueues(handles: Handles, c: Ctx, id: Id)
    requires id in handles && id in c.resolution
    requires handles[id].status == FinishedOk && handles[id].kind.DependenciesRun?
    requires handles[id].kind.dependentId in handles
    ensures Step(handles, c, id).Success?
    ensures var r := Step(handles, c, id).value;
            var d := handles[id].kind.dependentId;
            && r.queue == c.queue + [d]
            && r.resolution.Keys == c.resolution.Keys + {d}
            && r.resolution[d] == c.resolution[id]
            && (forall k :: k in c.resolution && k != d ==> r.resolution[k] == c.resolution[k])
            && r.collected == c.collected && r.futures == c.futures && r.inputs == c.inputs
  {
  }

  /** Any other finished future is appended to `collected_workchains`, and
      the queues and the resolution table do not change. */
  lemma StepCollects(handles: Handles, c: Ctx, id: Id)
    requires id in handles && id in c.resolution
    requires handles[id].status == FinishedOk && !handles[id].kind.DependenciesRun?
    ensures Step(handles, c, id).Success?
    ensures var r := Step(handles, c, id).value;
            && r.collected == c.collected + [id]
            && r.queue == c.queue && r.resolution == c.resolution
            && r.futures == c.futures && r.inputs == c.inputs
  {
  }

  lemma StepKeepsTable(deps: seq<Link>, handles: Handles, c: Ctx, id: Id)
    requires id in handles && id in c.resolution && TableOk(deps, c)
    requires Step(handles, c, id).Success?
    ensures TableOk(deps, Step(handles, c, id).value)
  {
  }

  /** The loop body applied to the given futures in turn, stopping at the
      first failure. */
  function ResolveAll(deps: seq<Link>, handles: Handles, c: Ctx, ids: seq<Id>): (r: Result<Ctx, Failure>)
    requires TableOk(deps, c)
    requires forall id :: id in ids ==> id in handles && id in c.resolution
    ensures r.Success? ==> r.value.futures == c.futures && r.value.inputs == c.inputs
    ensures r.Success? ==> c.resolution.Keys <= r.value.resolution.Keys
    ensures r.Success? ==> c.queue <= r.value.queue && c.collected <= r.value.collected
    ensures r.Success? ==> TableOk(deps, r.value)
    ensures r.Success? && QueueOk(c) ==> QueueOk(r.value)
    ensures r.Success? && CollectedOk(handles, c) ==> CollectedOk(handles, r.value)
    ensures r.Success? ==> forall id :: id in ids ==> handles[id].status == FinishedOk
    decreases |ids|
  {
    if ids == [] then Success(c)
    else
      var c' :- Step(handles, c, ids[0]);
      StepKeepsTable(deps, handles, c, ids[0]);
      ResolveAll(deps, handles, c', ids[1..])
  }

  /** One `resolve_dependencies` step. */
  function ResolvePass(deps: seq<Link>, handles: Handles, c: Ctx): Result<Ctx, Failure>
    requires Consistent(deps, handles, c)
  {
    var v := Visit(c.futures, 0);
    VisitIn(c.futures, 0);
    var r :- ResolveAll(deps, handles, c, v.0);
    Success(r.(futures := v.1))
  }

  lemma ResolvePassKeeps(deps: seq<Link>, handles: Handles, c: Ctx, v: (seq<Id>, seq<Id>), r: Ctx)
    requires Consistent(deps, handles, c) && v == Visit(c.futures, 0)
    requires forall id :: id in v.0 ==> id in c.futures
    requires ResolveAll(deps, handles, c, v.0) == Success(r)
    ensures Consistent(deps, handles, r.(futures := v.1))
  {
    VisitIn(c.futures, 0);
  }

  /** A resolve pass keeps the context consistent, keeps what was queued and
      collected, leaves half of the futures (rounding down), those at odd
      positions on a list without repeats, and every future it visited had
      finished ok. */
  lemma {:induction false} ResolvePassSpec(deps: seq<Link>, handles: Handles, c: Ctx)
    requires Consistent(deps, handles, c)
    ensures ResolvePass(deps, handles, c).Success? ==>
      var c' := ResolvePass(deps, handles, c).value;
      && Consistent(deps, handles, c')
      && c.queue <= c'.queue && c.collected <= c'.collected && c'.inputs == c.inputs
      && c'.futures == Visit(c.futures, 0).1
      && |c'.futures| == |c.futures| / 2
      && (NoDups(c.futures) ==> c'.futures == Odds(c.futures))
      && (forall id :: id in Visit(c.futures, 0).0 ==> id in handles && handles[id].status == FinishedOk)
  {
    if ResolvePass(deps, handles, c).Success? {
      var v := Visit(c.futures, 0);
      VisitIn(c.futures, 0);
      var r := ResolveAll(deps, handles, c, v.0).value;
      ResolvePassKeeps(deps, handles, c, v, r);
      VisitCount(c.futures, 0);
      if NoDups(c.futures) {
        VisitEvensOdds(c.futures);
      }
    }
  }

  lemma {:induction false} ResolveAllAppend(deps: seq<Link>, handles: Handles, c: Ctx, a: seq<Id>, b: seq<Id>)
    requires TableOk(deps, c)
    requires forall id :: id in a + b ==> id in handles && id in c.resolution
    ensures ResolveAll(deps, handles, c, a).Success? ==>
              ResolveAll(deps, handles, c, a + b) == ResolveAll(deps, handles, ResolveAll(deps, handles, c, a).value, b)
    ensures ResolveAll(deps, handles, c, a).Failure? ==>
              ResolveAll(deps, handles, c, a + b) == ResolveAll(deps, handles, c, a)
    decreases |a|
  {
    if a == [] {
      assert a + b == b;
    } else {
      assert (a + b)[0] == a[0] && (a + b)[1..] == a[1..] + b;
      var s := Step(handles, c, a[0]);
      if s.Success? {
        StepKeepsTable(deps, handles, c, a[0]);
        ResolveAllAppend(deps, handles, s.value, a[1..], b);
      }
    }
  }

  /** The loop body never looks at `future_queue`. */
  lemma StepIgnoresFutures(handles: Handles, c: Ctx, id: Id, fs: seq<Id>)
    requires id in handles && id in c.resolution
    ensures Step(handles, c.(futures := fs), id).Failure? == Step(handles, c, id).Failure?
    ensures Step(handles, c, id).Failure? ==>
              Step(handles, c.(futures := fs), id).error == Step(handles, c, id).error
    ensures Step(handles, c, id).Success? ==>
              Step(handles, c.(futures := fs), id).value == Step(handles, c, id).value.(futures := fs)
  {
  }

  lemma ResolveSnoc(deps: seq<Link>, handles: Handles, c0: Ctx, seen: seq<Id>, id: Id, cur: Ctx)
    requires TableOk(deps, c0)
    requires forall x :: x in seen + [id] ==> x in handles && x in c0.resolution
    requires ResolveAll(deps, handles, c0, seen) == Success(cur)
    ensures id in cur.resolution && TableOk(deps, cur)
    ensures ResolveAll(deps, handles, c0, seen + [id]) == Step(handles, cur, id)
    ensures Step(handles, cur, id).Success? ==> TableOk(deps, Step(handles, cur, id).value)
  {
    ResolveAllAppend(deps, handles, c0, seen, [id]);
    ResolveOneId(deps, handles, cur, id);
  }

  lemma ResolveOneId(deps: seq<Link>, handles: Handles, c: Ctx, id: Id)
    requires TableOk(deps, c) && id in handles && id in c.resolution
    ensures ResolveAll(deps, handles, c, [id]) == Step(handles, c, id)
    ensures Step(handles, c, id).Success? ==> TableOk(deps, Step(handles, c, id).value)
  {
    assert [id][1..] == [];
    if Step(handles, c, id).Success? {
      StepKeepsTable(deps, handles, c, id);
    }
  }

  /** The state of the `resolve_dependencies` loop after the futures in
      `seen`, `cur` being the current context: the specification function
      applied to them gives the current context, up to the futures still to
      visit. */
  ghost predicate ResolveState(deps: seq<Link>, handles: Handles, c0: Ctx, seen: seq<Id>, i: nat, cur: Ctx) {
    && Consistent(deps, handles, c0)
    && (forall id :: id in cur.futures ==> id in c0.futures)
    && (forall id :: id in seen ==> id in c0.futures)
    && VisitsSoFar(c0.futures, seen, cur.futures, i)
    && ResolveAll(deps, handles, c0, seen) == Success(cur.(futures := c0.futures))
  }

  /** One future of the loop, taken out of the future queue before the rest
      of the step: the step either fails the whole pass with the same error,
      or leads to the state after it. */
  lemma ResolveStateStep(deps: seq<Link>, handles: Handles, c0: Ctx, seen: seq<Id>, i: nat, cur: Ctx)
    requires ResolveState(deps, handles, c0, seen, i, cur) && i < |cur.futures|
    ensures var id := cur.futures[i];
      var next := cur.(futures := RemoveFirst(cur.futures, id));
      && id in handles && id in cur.resolution && id in cur.futures
      && (Step(handles, next, id).Failure? ==>
            ResolvePass(deps, handles, c0) == Failure(Step(handles, next, id).error))
      && (Step(handles, next, id).Success? ==>
            ResolveState(deps, handles, c0, seen + [id], i + 1, Step(handles, next, id).value))
      && |RemoveFirst(cur.futures, id)| < |cur.futures|
  {
    var id := cur.futures[i];
    var next := cur.(futures := RemoveFirst(cur.futures, id));
    VisitAdvance(c0.futures, seen, cur.futures, i);
    var cur' := cur.(futures := c0.futures);
    ResolveSnoc(deps, handles, c0, seen, id, cur');
    StepIgnoresFutures(handles, next, id, c0.futures);
    assert next.(futures := c0.futures) == cur';
    RemoveFirstIn(cur.futures, id);
    if Step(handles, next, id).Failure? {
      ResolveFailsAt(deps, handles, c0, seen, cur.futures, i, cur');
    }
  }

  lemma ResolveFailsAt(deps: seq<Link>, handles: Handles, c0: Ctx, seen: seq<Id>, s: seq<Id>, i: nat, cur: Ctx)
    requires Consistent(deps, handles, c0)
    requires i < |s| && VisitsSoFar(c0.futures, seen, s, i)
    requires forall x :: x in seen ==> x in c0.futures
    requires ResolveAll(deps, handles, c0, seen) == Success(cur)
    requires s[i] in handles && s[i] in cur.resolution
    requires Step(handles, cur, s[i]).Failure?
    ensures ResolvePass(deps, handles, c0) == Failure(Step(handles, cur, s[i]).error)
  {
    var v0 := Visit(c0.futures, 0);
    VisitIn(c0.futures, 0);
    VisitAdvance(c0.futures, seen, s, i);
    var rest := Visit(RemoveFirst(s, s[i]), i + 1).0;
    assert v0.0 == seen + ([s[i]] + rest);
    ResolveAllAppend(deps, handles, c0, seen, [s[i]] + rest);
  }

  // ---- the while_ loop as a whole ----

  predicate InRank(rank: map<Id, nat>, c: Ctx) {
    (forall id :: id in c.queue ==> id in rank) && (forall id :: id in c.futures ==> id in rank)
  }

  function Weight(rank: map<Id, nat>, c: Ctx): nat
    requires InRank(rank, c)
  {
    3 * Weigh(rank, c.queue) + 2 * Weigh(rank, c.futures)
  }

  lemma AwaitWeight(deps: seq<Link>, handles: Handles, rank: map<Id, nat>, c: Ctx)
    requires Consistent(deps, handles, c) && InRank(rank, c) && AwaitPass(handles, c).Success?
    ensures InRank(rank, AwaitPass(handles, c).value)
    ensures Weight(rank, AwaitPass(handles, c).value) + (if |c.queue| > 0 then 1 else 0) <= Weight(rank, c)
  {
    var v := Visit(c.queue, 0);
    VisitWeigh(rank, c.queue, 0);
    WeighAppend(rank, c.futures, v.0);
    VisitCount(c.queue, 0);
  }

  lemma {:induction false} ResolveAllWeight(deps: seq<Link>, handles: Handles, rank: map<Id, nat>, c: Ctx, ids: seq<Id>)
    requires TableOk(deps, c) && forall id :: id in ids ==> id in handles && id in c.resolution
    requires Ranked(handles, rank, DependenciesClass)
    requires (forall id :: id in c.queue ==> id in rank) && (forall id :: id in ids ==> id in rank)
    requires ResolveAll(deps, handles, c, ids).Success?
    ensures forall id :: id in ResolveAll(deps, handles, c, ids).value.queue ==> id in rank
    ensures 3 * Weigh(rank, ResolveAll(deps, handles, c, ids).value.queue) + (if ids == [] then 0 else 1)
            <= 3 * Weigh(rank, c.queue) + 2 * Weigh(rank, ids)
    decreases |ids|
  {
    if ids != [] {
      var x := ids[0];
      var c' := Step(handles, c, x).value;
      StepKeepsTable(deps, handles, c, x);
      if handles[x].kind.DependenciesRun? {
        var d := handles[x].kind.dependentId;
        WeighAppend(rank, c.queue, [d]);
        Pow2Grows(rank[d], rank[x]);
      }
      assert forall id :: id in c'.queue ==> id in rank;
      ResolveAllWeight(deps, handles, rank, c', ids[1..]);
    }
  }

  lemma ResolvePassWeight(deps: seq<Link>, handles: Handles, rank: map<Id, nat>, c: Ctx)
    requires Consistent(deps, handles, c) && Ranked(handles, rank, DependenciesClass) && InRank(rank, c)
    requires ResolvePass(deps, handles, c).Success?
    ensures InRank(rank, ResolvePass(deps, handles, c).value)
    ensures Weight(rank, ResolvePass(deps, handles, c).value) + (if |c.futures| > 0 then 1 else 0) <= Weight(rank, c)
  {
    var v := Visit(c.futures, 0);
    VisitIn(c.futures, 0);
    VisitWeigh(rank, c.futures, 0);
    VisitCount(c.futures, 0);
    ResolveAllWeight(deps, handles, rank, c, v.0);
  }

  /** `while_(is_waiting)(await_dependencies, resolve_dependencies)`. */
  function Wait(deps: seq<Link>, handles: Handles, rank: map<Id, nat>, c: Ctx): Result<Ctx, Failure>
    requires Consistent(deps, handles, c) && Ranked(handles, rank, DependenciesClass) && InRank(rank, c)
    decreases Weight(rank, c)
  {
    if c.queue == [] && c.futures == [] then Success(c)
    else
      AwaitPassSpec(deps, handles, c);
      var c1 :- AwaitPass(handles, c);
      AwaitWeight(deps, handles, rank, c);
      var c2 :- ResolvePass(deps, handles, c1);
      ResolvePassSpec(deps, handles, c1);
      ResolvePassWeight(deps, handles, rank, c1);
      Wait(deps, handles, rank, c2)
  }

  /** After one await and one resolve pass every id that was queued or
      awaited is still queued or awaited, or was checked and finished ok. */
  lemma PassCovers(deps: seq<Link>, handles: Handles, c: Ctx, c1: Ctx, c2: Ctx)
    requires Consistent(deps, handles, c) && AwaitPass(handles, c) == Success(c1)
    requires Consistent(deps, handles, c1) && ResolvePass(deps, handles, c1) == Success(c2)
    ensures forall id :: id in c.queue || id in c.futures ==>
              || id in c2.queue || id in c2.futures
              || (id in handles && handles[id].status == FinishedOk)
  {
    var v0 := Visit(c.queue, 0);
    AwaitMoves(deps, handles, c);
    var v := Visit(c1.futures, 0);
    VisitIn(c1.futures, 0);
    VisitMultiset(c1.futures, 0);
    var r := ResolveAll(deps, handles, c1, v.0).value;
    assert c2 == r.(futures := v.1);
    forall id | id in c.queue || id in c.futures
      ensures || id in c2.queue || id in c2.futures
              || (id in handles && handles[id].status == FinishedOk)
    {
      InEither(multiset(c.queue), multiset(c.futures), multiset(c1.queue), multiset(c1.futures), id);
      if id in c1.futures {
        InEither(multiset(c1.futures), multiset{}, multiset(v.0), multiset(v.1), id);
      }
    }
  }

  /** When the loop ends without failing both queues are empty, everything
      collected is a database node resolving to a key of `dependencies`, and
      every node that was queued or awaited finished ok: one failed upstream
      anywhere along the chains ends the run with DEPENDENCY_FAILED (or an
      earlier failure) instead of dispatching. */
  lemma {:induction false} WaitSpec(deps: seq<Link>, handles: Handles, rank: map<Id, nat>, c: Ctx)
    requires Consistent(deps, handles, c) && Ranked(handles, rank, DependenciesClass) && InRank(rank, c)
    requires Wait(deps, handles, rank, c).Success?
    ensures var r := Wait(deps, handles, rank, c).value;
            && r.queue == [] && r.futures == [] && Consistent(deps, handles, r)
            && c.collected <= r.collected
    ensures forall id :: id in c.queue || id in c.futures ==>
              id in handles && handles[id].status == FinishedOk
    decreases Weight(rank, c)
  {
    if !(c.queue == [] && c.futures == []) {
      AwaitPassSpec(deps, handles, c);
      var c1 := AwaitPass(handles, c).value;
      AwaitWeight(deps, handles, rank, c);
      var c2 := ResolvePass(deps, handles, c1).value;
      ResolvePassSpec(deps, handles, c1);
      ResolvePassWeight(deps, handles, rank, c1);
      WaitSpec(deps, handles, rank, c2);
      PassCovers(deps, handles, c, c1, c2);
    }
  }

  // ---- collect_inputs ----

  /** `collect_inputs` before the passthrough merge: for each collected
      workchain in order, the wiring of the upstream it resolves to applied to
      its outputs and merged over what was gathered so far. */
  function Gather(deps: seq<Link>, handles: Handles, resolution: map<Id, Id>, ids: seq<Id>, acc: map<Name, Id>): Result<map<Name, Id>, Failure>
    requires forall id :: id in ids ==> id in handles && id in resolution && resolution[id] in Upstreams(deps)
    decreases |ids|
  {
    if ids == [] then Success(acc)
    else
      match Bind(handles[ids[0]].outputs, WiringOf(deps, resolution[ids[0]]))
      case Failure(name) => Failure(MissingOutput(ids[0], name))
      case Success(bound) => Gather(deps, handles, resolution, ids[1..], acc + bound)
  }

  lemma {:induction false} GatherSnoc(deps: seq<Link>, handles: Handles, resolution: map<Id, Id>, ids: seq<Id>, id: Id, acc: map<Name, Id>)
    requires forall x :: x in ids + [id] ==> x in handles && x in resolution && resolution[x] in Upstreams(deps)
    ensures Gather(deps, handles, resolution, ids + [id], acc) ==
            match Gather(deps, handles, resolution, ids, acc)
            case Failure(e) => Failure(e)
            case Success(m) =>
              match Bind(handles[id].outputs, WiringOf(deps, resolution[id]))
              case Failure(name) => Failure(MissingOutput(id, name))
              case Success(bound) => Success(m + bound)
    decreases |ids|
  {
    if ids == [] {
      assert ids + [id] == [id];
    } else {
      assert (ids + [id])[0] == ids[0] && (ids + [id])[1..] == ids[1..] + [id];
      var b := Bind(handles[ids[0]].outputs, WiringOf(deps, resolution[ids[0]]));
      if b.Success? {
        GatherSnoc(deps, handles, resolution, ids[1..], id, acc + b.value);
      }
    }
  }

  /** The inputs of the last collected workchain win: each input name its
      wiring binds gets the output its last pair names, and gathering fails
      exactly when some collected workchain lacks an output its wiring names. */
  lemma GatherLastWins(deps: seq<Link>, handles: Handles, resolution: map<Id, Id>, ids: seq<Id>, id: Id, acc: map<Name, Id>)
    requires forall x :: x in ids + [id] ==> x in handles && x in resolution && resolution[x] in Upstreams(deps)
    requires Gather(deps, handles, resolution, ids + [id], acc).Success?
    ensures var m := Gather(deps, handles, resolution, ids + [id], acc).value;
            var w := WiringOf(deps, resolution[id]);
            && (forall k :: 0 <= k < |w| ==> w[k].0 in handles[id].outputs)
            && InputNames(w) <= m.Keys
            && forall j :: 0 <= j < |w| && LastFor(w, j) ==> m[w[j].1] == handles[id].outputs[w[j].0]
  {
    GatherSnoc(deps, handles, resolution, ids, id, acc);
    BindSpec(handles[id].outputs, WiringOf(deps, resolution[id]));
  }

  /** Gathering keeps every input it started with unless a wiring rebinds it,
      and never drops a name. */
  lemma {:induction false} GatherKeeps(deps: seq<Link>, handles: Handles, resolution: map<Id, Id>, ids: seq<Id>, acc: map<Name, Id>)
    requires forall x :: x in ids ==> x in handles && x in resolution && resolution[x] in Upstreams(deps)
    requires Gather(deps, handles, resolution, ids, acc).Success?
    ensures acc.Keys <= Gather(deps, handles, resolution, ids, acc).value.Keys
    ensures forall n :: n in acc && (forall x :: x in ids ==> n !in InputNames(WiringOf(deps, resolution[x]))) ==>
              Gather(deps, handles, resolution, ids, acc).value[n] == acc[n]
    decreases |ids|
  {
    if ids != [] {
      var b := Bind(handles[ids[0]].outputs, WiringOf(deps, resolution[ids[0]]));
      BindSpec(handles[ids[0]].outputs, WiringOf(deps, resolution[ids[0]]));
      GatherKeeps(deps, handles, resolution, ids[1..], acc + b.value);
    }
  }

  /** `collect_inputs` as a whole: the gathered inputs with the passthrough
      inputs (an empty dict by default) merged over them. */
  function CollectedInputs(deps: seq<Link>, handles: Handles, c: Ctx, passthrough: seq<(Name, Id)>): Result<map<Name, Id>, Failure>
    requires Consistent(deps, handles, c)
  {
    var gathered :- Gather(deps, handles, c.resolution, c.collected, c.inputs);
    MergePassthrough(handles, gathered, passthrough)
  }

  /** The whole run: prepare, the loop, collect_inputs; the result is what
      start_dependent submits with. */
  function Scheduled(deps: seq<Link>, handles: Handles, rank: map<Id, nat>, passthrough: seq<(Name, Id)>): Result<map<Name, Id>, Failure>
    requires Ranked(handles, rank, DependenciesClass) && forall u :: u in Upstreams(deps) ==> u in rank
  {
    var c0 :- Prepared(handles, deps);
    PreparedConsistent(deps, handles);
    var waited := Wait(deps, handles, rank, c0);
    if waited.Failure? then Failure(waited.error)
    else
      WaitSpec(deps, handles, rank, c0);
      CollectedInputs(deps, handles, waited.value, passthrough)
  }

  /** The workchain: its inputs as constants, its context as fields, and the
      engine's database as a read-only handle map. */
  class Dependencies {
    const dependent: string
    const dependencies: seq<Link>
    /** Defaults to the empty dict. */
    const passthroughInputs: seq<(Name, Id)>
    const handles: Handles
    var dependencyQueue: seq<Id>
    var futureQueue: seq<Id>
    var dependencyResolution: map<Id, Id>
    var collectedWorkchains: seq<Id>
    var collectedInputs: map<Name, Id>
    /** The `dependent_id` output. */
    var dependentId: Option<Id>
    /** Every process this workchain submitted, in order. */
    var submitted: seq<Submission>

    function Current(): Ctx
      reads this
    {
      Ctx(dependencyQueue, futureQueue, dependencyResolution, collectedWorkchains, collectedInputs)
    }

    predicate Valid()
      reads this
    {
      Consistent(dependencies, handles, Current())
    }

    constructor (dependent: string, dependencies: seq<Link>, passthroughInputs: seq<(Name, Id)>, handles: Handles)
      ensures this.dependent == dependent && this.dependencies == dependencies
      ensures this.passthroughInputs == passthroughInputs && this.handles == handles
      ensures dependencyQueue == [] && futureQueue == [] && dependencyResolution == map[]
      ensures collectedWorkchains == [] && collectedInputs == map[]
      ensures dependentId == None && submitted == []
      ensures Valid()
    {
      this.dependent := dependent;
      this.dependencies := dependencies;
      this.passthroughInputs := passthroughInputs;
      this.handles := handles;
      dependencyQueue := [];
      futureQueue := [];
      dependencyResolution := map[];
      collectedWorkchains := [];
      collectedInputs := map[];
      dependentId := None;
      submitted := [];
    }

    /** `prepare`. */
    method Prepare() returns (r: Outcome<Failure>)
      modifies this
      ensures Prepared(handles, dependencies).Failure? ==> r == Fail(Prepared(handles, dependencies).error)
      ensures Prepared(handles, dependencies).Success? ==>
                r == Pass && Current() == Prepared(handles, dependencies).value && Valid()
      ensures dependentId == old(dependentId) && submitted == old(submitted)
    {
      dependencyQueue := Upstreams(dependencies);
      var unknown := FirstUnknown(handles, dependencyQueue);
      if unknown.Some? {
        return Fail(NotFound(unknown.value));
      }
      dependencyResolution := IdentityTable(dependencyQueue);
      collectedWorkchains := [];
      collectedInputs := map[];
      futureQueue := [];
      PreparedConsistent(dependencies, handles);
      return Pass;
    }

    /** `is_waiting`: Python's `or` returns the queue when it is non-empty and
        the future queue otherwise, and `while_` tests that list's truth. */
    function IsWaiting(): (l: seq<Id>)
      reads this
      ensures |l| > 0 <==> |dependencyQueue| > 0 || |futureQueue| > 0
      ensures l == dependencyQueue || l == futureQueue
    {
      if |dependencyQueue| > 0 then dependencyQueue else futureQueue
    }

    /** `await_dependencies`. */
    method AwaitDependencies() returns (r: Outcome<Failure>)
      requires Valid()
      modifies this
      ensures AwaitPass(handles, old(Current())).Failure? ==>
                r == Fail(AwaitPass(handles, old(Current())).error) && futureQueue == old(futureQueue)
      ensures AwaitPass(handles, old(Current())).Success? ==>
                r == Pass && Current() == AwaitPass(handles, old(Current())).value && Valid()
      ensures dependencyResolution == old(dependencyResolution) && collectedWorkchains == old(collectedWorkchains)
      ensures collectedInputs == old(collectedInputs)
      ensures dependentId == old(dependentId) && submitted == old(submitted)
    {
      ghost var c0 := Current();
      var awaited: seq<Id> := [];
      var i := 0;
      VisitStart(dependencyQueue);
      while i < |dependencyQueue|
        invariant VisitsSoFar(c0.queue, awaited, dependencyQueue, i)
        invariant forall id :: id in awaited ==> id in handles
        invariant futureQueue == c0.futures && dependencyResolution == c0.resolution
        invariant collectedWorkchains == c0.collected && collectedInputs == c0.inputs
        invariant dependentId == old(dependentId) && submitted == old(submitted)
        decreases |dependencyQueue| - i
      {
        var id := dependencyQueue[i];
        if id !in handles {
          AwaitFailsAt(handles, c0, awaited, dependencyQueue, i);
          return Fail(NotFound(id));
        }
        VisitAdvance(c0.queue, awaited, dependencyQueue, i);
        awaited := awaited + [id];
        dependencyQueue := RemoveFirst(dependencyQueue, id);
        i := i + 1;
      }
      VisitDone(c0.queue, awaited, dependencyQueue, i);
      AwaitCompletes(handles, c0, awaited, dependencyQueue);
      futureQueue := futureQueue + awaited;
      AwaitPassSpec(dependencies, handles, c0);
      return Pass;
    }

    /** `resolve_dependencies`.  A future that did not finish ok stays in the
        future queue. */
    method ResolveDependencies() returns (r: Outcome<Failure>)
      requires Valid()
      modifies this
      ensures ResolvePass(dependencies, handles, old(Current())).Failure? ==>
                r == Fail(ResolvePass(dependencies, handles, old(Current())).error)
      ensures ResolvePass(dependencies, handles, old(Current())).Success? ==>
                r == Pass && Current() == ResolvePass(dependencies, handles, old(Current())).value && Valid()
      ensures r.Fail? && r.error.DependencyFailed? ==> r.error.id in futureQueue
      ensures dependentId == old(dependentId) && submitted == old(submitted)
    {
      ghost var c0 := Current();
      ghost var seen: seq<Id> := [];
      var i := 0;
      VisitStart(futureQueue);
      while i < |futureQueue|
        invariant Resolving(c0, seen, i)
        invariant dependentId == old(dependentId) && submitted == old(submitted)
        decreases |futureQueue| - i
      {
        r, seen := ResolveOne(c0, seen, i);
        if r.Fail? {
          return;
        }
        i := i + 1;
      }
      VisitDone(c0.futures, seen, futureQueue, i);
      ResolvePassSpec(dependencies, handles, c0);
      return Pass;
    }

    /** Where the loop of `resolve_dependencies` stands after the futures
        `seen`, starting from the context `c0`. */
    ghost predicate Resolving(c0: Ctx, seen: seq<Id>, i: nat)
      reads this
    {
      ResolveState(dependencies, handles, c0, seen, i, Current())
    }

    /** One pass of the loop body of `resolve_dependencies`, on the future at
        position `i`: either the whole pass fails with the error the
        specification gives, or the future is resolved and removed. */
    method ResolveOne(ghost c0: Ctx, ghost seen: seq<Id>, i: nat) returns (r: Outcome<Failure>, ghost seen': seq<Id>)
      requires Resolving(c0, seen, i) && i < |futureQueue|
      modifies this
      ensures r.Fail? ==> ResolvePass(dependencies, handles, c0).Failure?
                          && r == Fail(ResolvePass(dependencies, handles, c0).error)
      ensures r.Fail? && r.error.DependencyFailed? ==> r.error.id in futureQueue
      ensures r.Pass? ==> Resolving(c0, seen', i + 1) && |futureQueue| < |old(futureQueue)|
      ensures dependentId == old(dependentId) && submitted == old(submitted)
    {
      seen' := seen;
      var future := futureQueue[i];
      ResolveStateStep(dependencies, handles, c0, seen, i, Current());
      if handles[future].status != FinishedOk {
        return Fail(DependencyFailed(future)), seen';
      }
      futureQueue := RemoveFirst(futureQueue, future);
      r := Follow(future);
      if r.Fail? {
        return;
      }
      seen' := seen + [future];
    }

    /** The rest of the loop body for a future that finished ok and has been
        removed from the future queue. */
    method Follow(future: Id) returns (r: Outcome<Failure>)
      requires future in handles && future in dependencyResolution && handles[future].status == FinishedOk
      modifies this
      ensures Step(handles, old(Current()), future).Failure? ==>
                r == Fail(Step(handles, old(Current()), future).error)
      ensures Step(handles, old(Current()), future).Success? ==>
                r == Pass && Current() == Step(handles, old(Current()), future).value
      ensures futureQueue == old(futureQueue) && dependentId == old(dependentId) && submitted == old(submitted)
      ensures handles[future].kind.DependenciesRun? ==>
                (r == Pass <==> handles[future].kind.dependentId in handles)
      ensures handles[future].kind.DependenciesRun? && r == Pass ==>
                && dependencyQueue == old(dependencyQueue) + [handles[future].kind.dependentId]
                && dependencyResolution ==
                   old(dependencyResolution)[handles[future].kind.dependentId := old(dependencyResolution)[future]]
                && collectedWorkchains == old(collectedWorkchains)
      ensures !handles[future].kind.DependenciesRun? ==>
                && r == Pass && collectedWorkchains == old(collectedWorkchains) + [future]
                && dependencyQueue == old(dependencyQueue) && dependencyResolution == old(dependencyResolution)
    {
      if handles[future].kind.DependenciesRun? {
        var dependent := GetDependent(handles, future);
        if dependent.Failure? {
          return Fail(dependent.error);
        }
        dependencyQueue := dependencyQueue + [dependent.value];
        dependencyResolution := dependencyResolution[dependent.value := dependencyResolution[future]];
      } else {
        collectedWorkchains := collectedWorkchains + [future];
      }
      return Pass;
    }

    /** `collect_inputs`. */
    method CollectInputs() returns (r: Outcome<Failure>)
      requires Valid()
      modifies this
      ensures CollectedInputs(dependencies, handles, old(Current()), passthroughInputs).Failure? ==>
                r == Fail(CollectedInputs(dependencies, handles, old(Current()), passthroughInputs).error)
      ensures CollectedInputs(dependencies, handles, old(Current()), passthroughInputs).Success? ==>
                && r == Pass
                && collectedInputs == CollectedInputs(dependencies, handles, old(Current()), passthroughInputs).value
      ensures dependencyQueue == old(dependencyQueue) && futureQueue == old(futureQueue)
      ensures dependencyResolution == old(dependencyResolution) && collectedWorkchains == old(collectedWorkchains)
      ensures dependentId == old(dependentId) && submitted == old(submitted)
    {
      r := GatherInputs();
      if r.Fail? {
        return;
      }
      var merged := MergePassthrough(handles, collectedInputs, passthroughInputs);
      if merged.Failure? {
        return Fail(merged.error);
      }
      collectedInputs := merged.value;
      return Pass;
    }

    /** The loop of `collect_inputs` over the collected workchains. */
    method GatherInputs() returns (r: Outcome<Failure>)
      requires Valid()
      modifies this
      ensures Gather(dependencies, handles, old(dependencyResolution), old(collectedWorkchains), old(collectedInputs)).Failure? ==>
                r == Fail(Gather(dependencies, handles, old(dependencyResolution), old(collectedWorkchains), old(collectedInputs)).error)
      ensures Gather(dependencies, handles, old(dependencyResolution), old(collectedWorkchains), old(collectedInputs)).Success? ==>
                && r == Pass
                && collectedInputs == Gather(dependencies, handles, old(dependencyResolution), old(collectedWorkchains), old(collectedInputs)).value
      ensures dependencyQueue == old(dependencyQueue) && futureQueue == old(futureQueue)
      ensures dependencyResolution == old(dependencyResolution) && collectedWorkchains == old(collectedWorkchains)
      ensures dependentId == old(dependentId) && submitted == old(submitted)
    {
      ghost var acc0 := collectedInputs;
      for i := 0 to |collectedWorkchains|
        invariant dependencyQueue == old(dependencyQueue) && futureQueue == old(futureQueue)
        invariant dependencyResolution == old(dependencyResolution) && collectedWorkchains == old(collectedWorkchains)
        invariant dependentId == old(dependentId) && submitted == old(submitted)
        invariant Valid()
        invariant Gather(dependencies, handles, dependencyResolution, collectedWorkchains[..i], acc0) == Success(collectedInputs)
      {
        var uuid := collectedWorkchains[i];
        var connectionTable := WiringOf(dependencies, dependencyResolution[uuid]);
        var bound := Bind(handles[uuid].outputs, connectionTable);
        GatherStep(dependencies, handles, dependencyResolution, collectedWorkchains, i, acc0, collectedInputs);
        if bound.Failure? {
          return Fail(MissingOutput(uuid, bound.error));
        }
        collectedInputs := collectedInputs + bound.value;
      }
      assert collectedWorkchains[..|collectedWorkchains|] == collectedWorkchains;
      return Pass;
    }

    /** `start_dependent`: submit one dependent with the collected inputs and
        record its uuid. */
    method StartDependent(newId: Id)
      modifies this
      ensures submitted == old(submitted) + [Submission(newId, dependent, collectedInputs)]
      ensures dependentId == Some(newId)
      ensures collectedInputs == old(collectedInputs) && dependencyQueue == old(dependencyQueue)
      ensures futureQueue == old(futureQueue) && dependencyResolution == old(dependencyResolution)
      ensures collectedWorkchains == old(collectedWorkchains)
    {
      submitted := submitted + [Submission(newId, dependent, collectedInputs)];
      dependentId := Some(newId);
    }

    /** The outline: prepare, the loop while waiting, collect_inputs, then
        start_dependent.  The rank only serves the termination argument. */
    method Run(ghost rank: map<Id, nat>, newId: Id) returns (r: Result<Id, Failure>)
      requires Ranked(handles, rank, DependenciesClass) && forall u :: u in Upstreams(dependencies) ==> u in rank
      modifies this
      ensures Scheduled(dependencies, handles, rank, passthroughInputs).Failure? ==>
                && r == Failure(Scheduled(dependencies, handles, rank, passthroughInputs).error)
                && dependentId == old(dependentId) && submitted == old(submitted)
      ensures Scheduled(dependencies, handles, rank, passthroughInputs).Success? ==>
                && r == Success(newId) && dependentId == Some(newId)
                && submitted == old(submitted) + [Submission(newId, dependent,
                                                  Scheduled(dependencies, handles, rank, passthroughInputs).value)]
    {
      var o := Prepare();
      if o.Fail? {
        return Failure(o.error);
      }
      ghost var goal := Wait(dependencies, handles, rank, Current());
      while |IsWaiting()| > 0
        invariant Valid() && InRank(rank, Current())
        invariant Wait(dependencies, handles, rank, Current()) == goal
        invariant dependentId == old(dependentId) && submitted == old(submitted)
        decreases Weight(rank, Current())
      {
        o := Round(rank, goal, Weight(rank, Current()));
        if o.Fail? {
          return Failure(o.error);
        }
      }
      o := CollectInputs();
      if o.Fail? {
        return Failure(o.error);
      }
      StartDependent(newId);
      return Success(newId);
    }

    /** One pass of the waiting loop: await, then resolve. */
    method Round(ghost rank: map<Id, nat>, ghost goal: Result<Ctx, Failure>, ghost w: nat) returns (o: Outcome<Failure>)
      requires Ranked(handles, rank, DependenciesClass)
      requires Valid() && InRank(rank, Current()) && |IsWaiting()| > 0
      requires Wait(dependencies, handles, rank, Current()) == goal && w == Weight(rank, Current())
      modifies this
      ensures o.Fail? ==> goal.Failure? && goal.error == o.error
      ensures o.Pass? ==> Valid() && InRank(rank, Current()) && Weight(rank, Current()) < w
      ensures o.Pass? ==> Wait(dependencies, handles, rank, Current()) == goal
      ensures dependentId == old(dependentId) && submitted == old(submitted)
    {
      ghost var c := Current();
      AwaitPassSpec(dependencies, handles, c);
      o := AwaitDependencies();
      if o.Fail? {
        return;
      }
      AwaitWeight(dependencies, handles, rank, c);
      ghost var c1 := Current();
      ResolvePassSpec(dependencies, handles, c1);
      o := ResolveDependencies();
      if o.Fail? {
        return;
      }
      ResolvePassWeight(dependencies, handles, rank, c1);
    }
  }

  /** One workchain of the `collect_inputs` loop: binding its outputs either
      fails the whole gathering with the same error, or extends what was
      gathered so far. */
  lemma GatherStep(deps: seq<Link>, handles: Handles, resolution: map<Id, Id>, ids: seq<Id>, i: nat, acc: map<Name, Id>, cur: map<Name, Id>)
    requires forall x :: x in ids ==> x in handles && x in resolution && resolution[x] in Upstreams(deps)
    requires i < |ids| && Gather(deps, handles, resolution, ids[..i], acc) == Success(cur)
    ensures var b := Bind(handles[ids[i]].outputs, WiringOf(deps, resolution[ids[i]]));
      && (b.Failure? ==> Gather(deps, handles, resolution, ids, acc) == Failure(MissingOutput(ids[i], b.error)))
      && (b.Success? ==> Gather(deps, handles, resolution, ids[..i + 1], acc) == Success(cur + b.value))
  {
    assert ids[..i + 1] == ids[..i] + [ids[i]];
    GatherSnoc(deps, handles, resolution, ids[..i], ids[i], acc);
    if Bind(handles[ids[i]].outputs, WiringOf(deps, resolution[ids[i]])).Failure? {
      GatherAppendFails(deps, handles, resolution, ids, i + 1, acc);
    }
  }

  lemma {:induction false} GatherAppendFails(deps: seq<Link>, handles: Handles, resolution: map<Id, Id>, ids: seq<Id>, i: nat, acc: map<Name, Id>)
    requires i <= |ids|
    requires forall x :: x in ids ==> x in handles && x in resolution && resolution[x] in Upstreams(deps)
    requires Gather(deps, handles, resolution, ids[..i], acc).Failure?
    ensures Gather(deps, handles, resolution, ids, acc) == Gather(deps, handles, resolution, ids[..i], acc)
    decreases |ids| - i
  {
    if i < |ids| {
      assert ids[..i + 1] == ids[..i] + [ids[i]];
      GatherSnoc(deps, handles, resolution, ids[..i], ids[i], acc);
      GatherAppendFails(deps, handles, resolution, ids, i + 1, acc);
    } else {
      assert ids[..i] == ids;
    }
  }
}
