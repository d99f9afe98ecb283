/** bakery.py's WaitForDependencies (lines 257-348): a scheduling workchain
    that waits for its upstream nodes, follows chains of other
    WaitForDependencies runs to the job each of them dispatched, wires the
    named outputs of every upstream job into the inputs of its own dependent,
    and submits that dependent.

    The step functions below say what one step of the outline does to the
    context; the class runs the steps as the source does, with the same list
    mutations, and each of its methods is proved to compute its step function. */
module Bakery {
  import opened Wrappers
  import opened Engine

  /** The workchain context between two steps: `wait_for_ids`, `futures`,
      `resolution_table` and `dependent_inputs`. */
  datatype Ctx = Ctx(waitForIds: seq<Id>, futures: seq<Id>, table: map<Id, Id>, inputs: map<Name, Id>)

  /** The context `prepare` sets up: the upstream ids in dict order, each
      resolving to itself, nothing awaited and nothing collected. */
  function Prepared(deps: seq<Link>): (c: Ctx)
    ensures c.waitForIds == Upstreams(deps) && c.futures == [] && c.inputs == map[]
    ensures forall id :: id in c.waitForIds <==> id in c.table
    ensures forall id :: id in c.table ==> c.table[id] == id && c.table[id] in Upstreams(deps)
  {
    Ctx(Upstreams(deps), [], IdentityTable(Upstreams(deps)), map[])
  }

  predicate TableOk(deps: seq<Link>, c: Ctx) {
    forall id :: id in c.table ==> c.table[id] in Upstreams(deps)
  }

  predicate WaitOk(c: Ctx) {
    forall id :: id in c.waitForIds ==> id in c.table
  }

  /** What makes every lookup of the two loop steps succeed: every id still
      to push or to check has a resolution-table entry, every future is a node
      of the database, and the table only ever points at keys of
      `dependencies`. */
  predicate Consistent(deps: seq<Link>, handles: Handles, c: Ctx) {
    && WaitOk(c)
    && (forall id :: id in c.futures ==> id in c.table && id in handles)
    && TableOk(deps, c)
  }

  // ---- push_futures ----

  lemma PushFailsAt(handles: Handles, c0: Ctx, pushed: seq<Id>, s: seq<Id>, i: nat)
    requires i < |s| && VisitsSoFar(c0.waitForIds, pushed, s, i) && s[i] !in handles
    requires forall id :: id in pushed ==> id in handles
    ensures PushPass(handles, c0) == Failure(NotFound(s[i]))
  {
    VisitAdvance(c0.waitForIds, pushed, s, i);
    FirstUnknownAfterKnown(handles, pushed, Visit(s, i).0);
  }

  lemma PushCompletes(handles: Handles, c0: Ctx, pushed: seq<Id>, s: seq<Id>)
    requires Visit(c0.waitForIds, 0) == (pushed, s)
    requires forall id :: id in pushed ==> id in handles
    ensures PushPass(handles, c0) == Success(c0.(waitForIds := s, futures := c0.futures + pushed))
  {
  }

  /** One `push_futures` step: the loop removes each id it visits from
      `wait_for_ids` and awaits the node, and the awaited nodes land in
      `futures` once the step is over.  Loading an id the database lacks
      raises. */
  function PushPass(handles: Handles, c: Ctx): Result<Ctx, Failure> {
    var v := Visit(c.waitForIds, 0);
    match FirstUnknown(handles, v.0)
    case Some(id) => Failure(NotFound(id))
    case None => Success(c.(waitForIds := v.1, futures := c.futures + v.0))
  }

  /** A push pass fails exactly when it visits an unknown id.  Otherwise it
      keeps the context consistent, loses and duplicates no id between the
      two lists, halves `wait_for_ids` (rounding down), and on a list without
      repeats moves exactly the ids at even positions. */
  lemma PushPassSpec(deps: seq<Link>, handles: Handles, c: Ctx)
    requires Consistent(deps, handles, c)
    ensures PushPass(handles, c).Failure? <==> exists id :: id in Visit(c.waitForIds, 0).0 && id !in handles
    ensures PushPass(handles, c).Success? ==>
      var c' := PushPass(handles, c).value;
      && Consistent(deps, handles, c')
      && c'.table == c.table && c'.inputs == c.inputs
      && multiset(c'.waitForIds) + multiset(c'.futures) == multiset(c.waitForIds) + multiset(c.futures)
      && |c'.waitForIds| == |c.waitForIds| / 2
      && (NoDups(c.waitForIds) ==>
            c'.waitForIds == Odds(c.waitForIds) && c'.futures == c.futures + Evens(c.waitForIds))
  {
    var v := Visit(c.waitForIds, 0);
    PushPassFails(handles, c);
    if PushPass(handles, c).Success? {
      PushPassMoves(deps, handles, c);
      VisitCount(c.waitForIds, 0);
      if NoDups(c.waitForIds) {
        VisitEvensOdds(c.waitForIds);
      }
    }
  }

  lemma PushPassFails(handles: Handles, c: Ctx)
    ensures PushPass(handles, c).Failure? <==> exists id :: id in Visit(c.waitForIds, 0).0 && id !in handles
  {
    var u := FirstUnknown(handles, Visit(c.waitForIds, 0).0);
    assert PushPass(handles, c).Failure? <==> u.Some?;
    if u.Some? {
      assert u.value in Visit(c.waitForIds, 0).0;
    }
  }

  lemma PushPassMoves(deps: seq<Link>, handles: Handles, c: Ctx)
    requires Consistent(deps, handles, c) && PushPass(handles, c).Success?
    ensures var v := Visit(c.waitForIds, 0); var c' := PushPass(handles, c).value;
      && c' == c.(waitForIds := v.1, futures := c.futures + v.0)
      && Consistent(deps, handles, c')
      && multiset(c'.waitForIds) + multiset(c'.futures) == multiset(c.waitForIds) + multiset(c.futures)
  {
    var v := Visit(c.waitForIds, 0);
    VisitMultiset(c.waitForIds, 0);
    VisitIn(c.waitForIds, 0);
    assert multiset(c.futures + v.0) == multiset(c.futures) + multiset(v.0);
  }

  // ---- collect_inputs ----

  /** The loop body of `collect_inputs` for one future.  The future must have
      finished ok.  A WaitForDependencies future hands over its dependent,
      which joins `wait_for_ids` and inherits the future's resolution entry.
      Any other future has the wiring of the upstream it resolves to applied
      to its outputs, updating `dependent_inputs`. */
  function Step(deps: seq<Link>, handles: Handles, c: Ctx, id: Id): (r: Result<Ctx, Failure>)
    requires id in handles && id in c.table && c.table[id] in Upstreams(deps)
    ensures r.Success? ==> r.value.futures == c.futures && c.table.Keys <= r.value.table.Keys
    ensures r.Success? ==> c.waitForIds <= r.value.waitForIds
    ensures r.Success? && TableOk(deps, c) ==> TableOk(deps, r.value)
    ensures r.Success? && WaitOk(c) ==> WaitOk(r.value)
    ensures r.Success? ==> handles[id].status == FinishedOk
  {
    var h := handles[id];
    if h.status != FinishedOk then Failure(AssertionFailed(id))
    else if h.kind.WaitForDependenciesRun? then
      var d := h.kind.dependentId;
      Success(c.(waitForIds := c.waitForIds + [d], table := c.table[d := c.table[id]]))
    else
      match Bind(h.outputs, WiringOf(deps, c.table[id]))
      case Failure(name) => Failure(MissingOutput(id, name))
      case Success(bound) => Success(c.(inputs := c.inputs + bound))
  }

  /** Whether the wiring names an output the node does not have. */
  predicate MissesOutput(outputs: map<Name, Id>, w: Wiring) {
    exists k :: 0 <= k < |w| && w[k].0 !in outputs
  }

  /** An upstream that did not finish ok fails the assertion; one that did
      fails only as a job lacking an output its wiring names. */
  lemma StepFails(deps: seq<Link>, handles: Handles, c: Ctx, id: Id)
    requires id in handles && id in c.table && c.table[id] in Upstreams(deps)
    ensures handles[id].status != FinishedOk ==> Step(deps, handles, c, id) == Failure(AssertionFailed(id))
    ensures handles[id].status == FinishedOk && handles[id].kind.WaitForDependenciesRun? ==>
              Step(deps, handles, c, id).Success?
    ensures handles[id].status == FinishedOk && !handles[id].kind.WaitForDependenciesRun? ==>
              (Step(deps, handles, c, id).Failure? <==> MissesOutput(handles[id].outputs, WiringOf(deps, c.table[id])))
  {
    var h := handles[id];
    var w := WiringOf(deps, c.table[id]);
    BindSpec(h.outputs, w);
    if h.status == FinishedOk && !h.kind.WaitForDependenciesRun? {
      assert Step(deps, handles, c, id).Failure? == Bind(h.outputs, w).Failure?;
      assert Bind(h.outputs, w).Failure? <==> !(forall k :: 0 <= k < |w| ==> w[k].0 in h.outputs);
      assert (!(forall k :: 0 <= k < |w| ==> w[k].0 in h.outputs)) <==> exists k :: 0 <= k < |w| && w[k].0 !in h.outputs;
    }
  }

  /** A finished WaitForDependencies future: its dependent is queued with the
      future's own resolution entry, and nothing else changes. */
  lemma StepWaiter(deps: seq<Link>, handles: Handles, c: Ctx, id: Id)
    requires id in handles && id in c.table && c.table[id] in Upstreams(deps)
    requires handles[id].status == FinishedOk && handles[id].kind.WaitForDependenciesRun?
    ensures Step(deps, handles, c, id).Success?
    ensures var r := Step(deps, handles, c, id).value;
            var d := handles[id].kind.dependentId;
            && r.waitForIds == c.waitForIds + [d]
            && r.table.Keys == c.table.Keys + {d}
            && r.table[d] == c.table[id]
            && (forall k :: k in c.table && k != d ==> r.table[k] == c.table[k])
            && r.inputs == c.inputs && r.futures == c.futures
  {
  }

  /** A finished job future: every input name of the wiring of the upstream it
      resolves to is bound to the output its last pair names, every other input
      keeps its value, and the queue and the table do not change. */
  lemma StepBinds(deps: seq<Link>, handles: Handles, c: Ctx, id: Id)
    requires id in handles && id in c.table && c.table[id] in Upstreams(deps)
    requires handles[id].status == FinishedOk && !handles[id].kind.WaitForDependenciesRun?
    requires Step(deps, handles, c, id).Success?
    ensures var r := Step(deps, handles, c, id).value;
            var w := WiringOf(deps, c.table[id]);
            && r.waitForIds == c.waitForIds && r.table == c.table && r.futures == c.futures
            && r.inputs.Keys == c.inputs.Keys + InputNames(w)
            && (forall k :: 0 <= k < |w| ==> w[k].0 in handles[id].outputs)
            && (forall j :: 0 <= j < |w| && LastFor(w, j) ==> r.inputs[w[j].1] == handles[id].outputs[w[j].0])
            && (forall n :: n in c.inputs && n !in InputNames(w) ==> r.inputs[n] == c.inputs[n])
  {
    BindSpec(handles[id].outputs, WiringOf(deps, c.table[id]));
  }

  /** The loop body applied to each of the given futures in turn, stopping at
      the first failure. */
  function Collect(deps: seq<Link>, handles: Handles, c: Ctx, ids: seq<Id>): (r: Result<Ctx, Failure>)
    requires TableOk(deps, c)
    requires forall id :: id in ids ==> id in handles && id in c.table
    ensures r.Success? ==> r.value.futures == c.futures && c.table.Keys <= r.value.table.Keys
    ensures r.Success? ==> c.waitForIds <= r.value.waitForIds
    ensures r.Success? ==> TableOk(deps, r.value) && (WaitOk(c) ==> WaitOk(r.value))
    ensures r.Success? ==> forall id :: id in ids ==> handles[id].status == FinishedOk
    decreases |ids|
  {
    if ids == [] then Success(c)
    else
      var c' :- Step(deps, handles, c, ids[0]);
      Collect(deps, handles, c', ids[1..])
  }

  /** One `collect_inputs` step: the loop visits futures as `push_futures`
      visits ids, handling each and removing it from `futures`. */
  function CollectPass(deps: seq<Link>, handles: Handles, c: Ctx): Result<Ctx, Failure>
    requires Consistent(deps, handles, c)
  {
    var v := Visit(c.futures, 0);
    VisitIn(c.futures, 0);
    var r :- Collect(deps, handles, c, v.0);
    Success(r.(futures := v.1))
  }

  /** A collect pass keeps the context consistent, keeps every queued id
      queued, and leaves in `futures` what it did not visit: half of them,
      rounded down, and on a list without repeats those at odd positions. */
  lemma {:induction false} CollectPassSpec(deps: seq<Link>, handles: Handles, c: Ctx)
    requires Consistent(deps, handles, c)
    ensures CollectPass(deps, handles, c).Success? ==>
      var c' := CollectPass(deps, handles, c).value;
      && Consistent(deps, handles, c')
      && c.waitForIds <= c'.waitForIds
      && c'.futures == Visit(c.futures, 0).1
      && |c'.futures| == |c.futures| / 2
      && (NoDups(c.futures) ==> c'.futures == Odds(c.futures))
      && (forall id :: id in Visit(c.futures, 0).0 ==> id in handles && handles[id].status == FinishedOk)
  {
    if CollectPass(deps, handles, c).Success? {
      var v := Visit(c.futures, 0);
      VisitIn(c.futures, 0);
      var r := Collect(deps, handles, c, v.0).value;
      CollectPassKeeps(deps, handles, c, v, r);
      VisitCount(c.futures, 0);
      if NoDups(c.futures) {
        VisitEvensOdds(c.futures);
      }
    }
  }

  lemma CollectPassKeeps(deps: seq<Link>, handles: Handles, c: Ctx, v: (seq<Id>, seq<Id>), r: Ctx)
    requires Consistent(deps, handles, c) && v == Visit(c.futures, 0)
    requires forall id :: id in v.0 ==> id in c.futures
    requires Collect(deps, handles, c, v.0) == Success(r)
    ensures Consistent(deps, handles, r.(futures := v.1))
  {
    VisitIn(c.futures, 0);
  }

  lemma {:induction false} CollectAppend(deps: seq<Link>, handles: Handles, c: Ctx, a: seq<Id>, b: seq<Id>)
    requires TableOk(deps, c)
    requires forall id :: id in a + b ==> id in handles && id in c.table
    ensures Collect(deps, handles, c, a).Success? ==>
              Collect(deps, handles, c, a + b) == Collect(deps, handles, Collect(deps, handles, c, a).value, b)
    ensures Collect(deps, handles, c, a).Failure? ==>
              Collect(deps, handles, c, a + b) == Collect(deps, handles, c, a)
    decreases |a|
  {
    if a == [] {
      assert a + b == b;
    } else {
      assert (a + b)[0] == a[0] && (a + b)[1..] == a[1..] + b;
      var s := Step(deps, handles, c, a[0]);
      if s.Success? {
        CollectAppend(deps, handles, s.value, a[1..], b);
      }
    }
  }

  /** The loop body never looks at `futures`. */
  lemma StepIgnoresFutures(deps: seq<Link>, handles: Handles, c: Ctx, id: Id, fs: seq<Id>)
    requires id in handles && id in c.table && c.table[id] in Upstreams(deps)
    ensures Step(deps, handles, c.(futures := fs), id).Failure? == Step(deps, handles, c, id).Failure?
    ensures Step(deps, handles, c, id).Failure? ==>
              Step(deps, handles, c.(futures := fs), id).error == Step(deps, handles, c, id).error
    ensures Step(deps, handles, c, id).Success? ==>
              Step(deps, handles, c.(futures := fs), id).value == Step(deps, handles, c, id).value.(futures := fs)
  {
  }

  lemma CollectSnoc(deps: seq<Link>, handles: Handles, c0: Ctx, seen: seq<Id>, id: Id, cur: Ctx)
    requires TableOk(deps, c0)
    requires forall x :: x in seen + [id] ==> x in handles && x in c0.table
    requires Collect(deps, handles, c0, seen) == Success(cur)
    ensures id in cur.table && cur.table[id] in Upstreams(deps)
    ensures Collect(deps, handles, c0, seen + [id]) == Step(deps, handles, cur, id)
  {
    CollectAppend(deps, handles, c0, seen, [id]);
    CollectOneId(deps, handles, cur, id);
  }

  lemma CollectOneId(deps: seq<Link>, handles: Handles, c: Ctx, id: Id)
    requires TableOk(deps, c) && id in handles && id in c.table
    ensures c.table[id] in Upstreams(deps)
    ensures Collect(deps, handles, c, [id]) == Step(deps, handles, c, id)
  {
    assert [id][1..] == [];
  }

  lemma CollectFailsAt(deps: seq<Link>, handles: Handles, c0: Ctx, seen: seq<Id>, s: seq<Id>, i: nat, cur: Ctx)
    requires Consistent(deps, handles, c0)
    requires i < |s| && VisitsSoFar(c0.futures, seen, s, i)
    requires forall x :: x in seen ==> x in c0.futures
    requires Collect(deps, handles, c0, seen) == Success(cur)
    requires s[i] in handles && s[i] in cur.table && cur.table[s[i]] in Upstreams(deps)
    requires Step(deps, handles, cur, s[i]).Failure?
    ensures CollectPass(deps, handles, c0) == Failure(Step(deps, handles, cur, s[i]).error)
  {
    var v0 := Visit(c0.futures, 0);
    VisitIn(c0.futures, 0);
    VisitAdvance(c0.futures, seen, s, i);
    var rest := Visit(RemoveFirst(s, s[i]), i + 1).0;
    assert v0.0 == seen + ([s[i]] + rest);
    CollectAppend(deps, handles, c0, seen, [s[i]] + rest);
  }

  /** The state of the `collect_inputs` loop after the futures in `seen`,
      `cur` being the current context: the specification function applied to
      them gives the current context, up to the futures still to visit. */
  ghost predicate CollectState(deps: seq<Link>, handles: Handles, c0: Ctx, seen: seq<Id>, i: nat, cur: Ctx) {
    && Consistent(deps, handles, c0)
    && (forall id :: id in cur.futures ==> id in c0.futures)
    && (forall id :: id in seen ==> id in c0.futures)
    && VisitsSoFar(c0.futures, seen, cur.futures, i)
    && Collect(deps, handles, c0, seen) == Success(cur.(futures := c0.futures))
  }

  /** One future of the loop: checking it either fails the whole pass with
      the same error, or leads to the state after it, with the future
      removed. */
  lemma CollectStateStep(deps: seq<Link>, handles: Handles, c0: Ctx, seen: seq<Id>, i: nat, cur: Ctx)
    requires CollectState(deps, handles, c0, seen, i, cur) && i < |cur.futures|
    ensures var id := cur.futures[i];
      && id in handles && id in cur.table && cur.table[id] in Upstreams(deps)
      && (Step(deps, handles, cur, id).Failure? ==>
            CollectPass(deps, handles, c0) == Failure(Step(deps, handles, cur, id).error))
      && (Step(deps, handles, cur, id).Success? ==>
            CollectState(deps, handles, c0, seen + [id], i + 1,
                         Step(deps, handles, cur, id).value.(futures := RemoveFirst(cur.futures, id))))
      && |RemoveFirst(cur.futures, id)| < |cur.futures|
  {
    var id := cur.futures[i];
    VisitAdvance(c0.futures, seen, cur.futures, i);
    var cur' := cur.(futures := c0.futures);
    CollectSnoc(deps, handles, c0, seen, id, cur');
    StepIgnoresFutures(deps, handles, cur, id, c0.futures);
    RemoveFirstIn(cur.futures, id);
    if Step(deps, handles, cur, id).Failure? {
      CollectFailsAt(deps, handles, c0, seen, cur.futures, i, cur');
    }
  }

  // ---- the while_ loop as a whole ----

  predicate InRank(rank: map<Id, nat>, c: Ctx) {
    (forall id :: id in c.waitForIds ==> id in rank) && (forall id :: id in c.futures ==> id in rank)
  }

  /** Queued ids weigh more than awaited ones, and a scheduler weighs more
      than its dependent queued three times over. */
  function Weight(rank: map<Id, nat>, c: Ctx): nat
    requires InRank(rank, c)
  {
    3 * Weigh(rank, c.waitForIds) + 2 * Weigh(rank, c.futures)
  }

  lemma PushWeight(deps: seq<Link>, handles: Handles, rank: map<Id, nat>, c: Ctx)
    requires Consistent(deps, handles, c) && InRank(rank, c) && PushPass(handles, c).Success?
    ensures InRank(rank, PushPass(handles, c).value)
    ensures Weight(rank, PushPass(handles, c).value) + (if |c.waitForIds| > 0 then 1 else 0) <= Weight(rank, c)
  {
    var v := Visit(c.waitForIds, 0);
    VisitWeigh(rank, c.waitForIds, 0);
    WeighAppend(rank, c.futures, v.0);
    VisitCount(c.waitForIds, 0);
  }

  lemma {:induction false} CollectWeight(deps: seq<Link>, handles: Handles, rank: map<Id, nat>, c: Ctx, ids: seq<Id>)
    requires TableOk(deps, c) && forall id :: id in ids ==> id in handles && id in c.table
    requires Ranked(handles, rank, WaitForDependenciesClass)
    requires (forall id :: id in c.waitForIds ==> id in rank) && (forall id :: id in ids ==> id in rank)
    requires Collect(deps, handles, c, ids).Success?
    ensures forall id :: id in Collect(deps, handles, c, ids).value.waitForIds ==> id in rank
    ensures 3 * Weigh(rank, Collect(deps, handles, c, ids).value.waitForIds) + (if ids == [] then 0 else 1)
            <= 3 * Weigh(rank, c.waitForIds) + 2 * Weigh(rank, ids)
    decreases |ids|
  {
    if ids != [] {
      var x := ids[0];
      var c' := Step(deps, handles, c, x).value;
      assert Collect(deps, handles, c, ids) == Collect(deps, handles, c', ids[1..]);
      assert Weigh(rank, ids) == Pow2(rank[x]) + Weigh(rank, ids[1..]);
      StepWeight(deps, handles, rank, c, x);
      CollectWeight(deps, handles, rank, c', ids[1..]);
    }
  }

  /** One checked future adds at most its dependent to the awaited ids,
      which weighs less than the future did. */
  lemma StepWeight(deps: seq<Link>, handles: Handles, rank: map<Id, nat>, c: Ctx, x: Id)
    requires x in handles && x in c.table && c.table[x] in Upstreams(deps) && x in rank
    requires Ranked(handles, rank, WaitForDependenciesClass)
    requires forall id :: id in c.waitForIds ==> id in rank
    requires Step(deps, handles, c, x).Success?
    ensures forall id :: id in Step(deps, handles, c, x).value.waitForIds ==> id in rank
    ensures 3 * Weigh(rank, Step(deps, handles, c, x).value.waitForIds) + 1
            <= 3 * Weigh(rank, c.waitForIds) + 2 * Pow2(rank[x])
  {
    var c' := Step(deps, handles, c, x).value;
    if handles[x].kind.WaitForDependenciesRun? {
      var d := handles[x].kind.dependentId;
      assert c'.waitForIds == c.waitForIds + [d];
      WeighAppend(rank, c.waitForIds, [d]);
      assert Weigh(rank, [d]) == Pow2(rank[d]);
      Pow2Grows(rank[d], rank[x]);
    } else {
      assert c'.waitForIds == c.waitForIds;
    }
  }

  lemma CollectPassWeight(deps: seq<Link>, handles: Handles, rank: map<Id, nat>, c: Ctx)
    requires Consistent(deps, handles, c) && Ranked(handles, rank, WaitForDependenciesClass) && InRank(rank, c)
    requires CollectPass(deps, handles, c).Success?
    ensures InRank(rank, CollectPass(deps, handles, c).value)
    ensures Weight(rank, CollectPass(deps, handles, c).value) + (if |c.futures| > 0 then 1 else 0) <= Weight(rank, c)
  {
    var v := Visit(c.futures, 0);
    VisitIn(c.futures, 0);
    VisitWeigh(rank, c.futures, 0);
    VisitCount(c.futures, 0);
    CollectWeight(deps, handles, rank, c, v.0);
  }

  /** `while_(dependencies_left)(push_futures, collect_inputs)`. */
  function Resolve(deps: seq<Link>, handles: Handles, rank: map<Id, nat>, c: Ctx): Result<Ctx, Failure>
    requires Consistent(deps, handles, c) && Ranked(handles, rank, WaitForDependenciesClass) && InRank(rank, c)
    decreases Weight(rank, c)
  {
    if c.waitForIds == [] && c.futures == [] then Success(c)
    else
      PushPassSpec(deps, handles, c);
      var c1 :- PushPass(handles, c);
      PushWeight(deps, handles, rank, c);
      var c2 :- CollectPass(deps, handles, c1);
      CollectPassSpec(deps, handles, c1);
      CollectPassWeight(deps, handles, rank, c1);
      Resolve(deps, handles, rank, c2)
  }

  /** A context of the loop from which it ends in `goal`. */
  ghost predicate Heading(deps: seq<Link>, handles: Handles, rank: map<Id, nat>, goal: Result<Ctx, Failure>, c: Ctx) {
    && Consistent(deps, handles, c) && Ranked(handles, rank, WaitForDependenciesClass) && InRank(rank, c)
    && Resolve(deps, handles, rank, c) == goal
  }

  /** A pass of the loop body with ids left: a failure of `push_futures`
      or of `collect_inputs` is the failure of the whole loop; otherwise
      the context after both steps leads to the same outcome and weighs
      less. */
  lemma ResolveStep(deps: seq<Link>, handles: Handles, rank: map<Id, nat>, c: Ctx)
    requires Consistent(deps, handles, c) && Ranked(handles, rank, WaitForDependenciesClass) && InRank(rank, c)
    requires |c.waitForIds| > 0 || |c.futures| > 0
    ensures PushPass(handles, c).Failure? ==> Resolve(deps, handles, rank, c) == Failure(PushPass(handles, c).error)
    ensures PushPass(handles, c).Success? ==>
              var c1 := PushPass(handles, c).value;
              && Consistent(deps, handles, c1)
              && (CollectPass(deps, handles, c1).Failure? ==>
                    Resolve(deps, handles, rank, c) == Failure(CollectPass(deps, handles, c1).error))
              && (CollectPass(deps, handles, c1).Success? ==>
                    var c2 := CollectPass(deps, handles, c1).value;
                    && Consistent(deps, handles, c2) && InRank(rank, c2)
                    && Weight(rank, c2) < Weight(rank, c)
                    && Resolve(deps, handles, rank, c2) == Resolve(deps, handles, rank, c))
  {
    PushPassSpec(deps, handles, c);
    if PushPass(handles, c).Success? {
      var c1 := PushPass(handles, c).value;
      PushWeight(deps, handles, rank, c);
      CollectPassSpec(deps, handles, c1);
      if CollectPass(deps, handles, c1).Success? {
        CollectPassWeight(deps, handles, rank, c1);
      }
    }
  }

  /** When the loop ends without an exception both lists are empty, the table
      still points only at keys of `dependencies`, and every node that was
      queued or awaited is in the database and finished ok: a single failed
      upstream anywhere along the chains stops the dependent from being
      dispatched. */
  lemma {:induction false} ResolveSpec(deps: seq<Link>, handles: Handles, rank: map<Id, nat>, c: Ctx)
    requires Consistent(deps, handles, c) && Ranked(handles, rank, WaitForDependenciesClass) && InRank(rank, c)
    requires Resolve(deps, handles, rank, c).Success?
    ensures var r := Resolve(deps, handles, rank, c).value;
            r.waitForIds == [] && r.futures == [] && TableOk(deps, r)
    ensures forall id :: id in c.waitForIds || id in c.futures ==>
              id in handles && handles[id].status == FinishedOk
    decreases Weight(rank, c)
  {
    if !(c.waitForIds == [] && c.futures == []) {
      PushPassSpec(deps, handles, c);
      var c1 := PushPass(handles, c).value;
      PushWeight(deps, handles, rank, c);
      var c2 := CollectPass(deps, handles, c1).value;
      CollectPassSpec(deps, handles, c1);
      CollectPassWeight(deps, handles, rank, c1);
      ResolveSpec(deps, handles, rank, c2);
      PassCovers(deps, handles, c, c1, c2);
    }
  }

  /** After one push and one collect pass every id that was queued or awaited
      is either still queued or awaited, or was checked and finished ok. */
  lemma PassCovers(deps: seq<Link>, handles: Handles, c: Ctx, c1: Ctx, c2: Ctx)
    requires Consistent(deps, handles, c) && PushPass(handles, c) == Success(c1)
    requires Consistent(deps, handles, c1) && CollectPass(deps, handles, c1) == Success(c2)
    ensures forall id :: id in c.waitForIds || id in c.futures ==>
              || id in c2.waitForIds || id in c2.futures
              || (id in handles && handles[id].status == FinishedOk)
  {
    var v0 := Visit(c.waitForIds, 0);
    PushPassMoves(deps, handles, c);
    var v := Visit(c1.futures, 0);
    VisitIn(c1.futures, 0);
    VisitMultiset(c1.futures, 0);
    var r := Collect(deps, handles, c1, v.0).value;
    assert c2 == r.(futures := v.1);
    forall id | id in c.waitForIds || id in c.futures
      ensures || id in c2.waitForIds || id in c2.futures
              || (id in handles && handles[id].status == FinishedOk)
    {
      InEither(multiset(c.waitForIds), multiset(c.futures), multiset(c1.waitForIds), multiset(c1.futures), id);
      if id in c1.futures {
        InEither(multiset(c1.futures), multiset{}, multiset(v.0), multiset(v.1), id);
      }
    }
  }

  // ---- start_dependent ----

  /** The inputs `start_dependent` submits with: the collected ones, with the
      passthrough inputs, when given, merged over them. */
  function Dispatch(handles: Handles, collected: map<Name, Id>, passthrough: Option<seq<(Name, Id)>>): Result<map<Name, Id>, Failure> {
    match passthrough
    case None => Success(collected)
    case Some(items) => MergePassthrough(handles, collected, items)
  }

  /** The whole run: prepare, the loop, and the inputs of the dependent. */
  function Scheduled(deps: seq<Link>, handles: Handles, rank: map<Id, nat>, passthrough: Option<seq<(Name, Id)>>): Result<map<Name, Id>, Failure>
    requires Ranked(handles, rank, WaitForDependenciesClass) && forall u :: u in Upstreams(deps) ==> u in rank
  {
    var c :- Resolve(deps, handles, rank, Prepared(deps));
    Dispatch(handles, c.inputs, passthrough)
  }

  /** The workchain: its inputs as constants, its context as fields, and the
      engine's database as a read-only handle map. */
  class WaitForDependencies {
    const dependent: string
    const dependencies: seq<Link>
    const passthroughInputs: Option<seq<(Name, Id)>>
    const handles: Handles
    var waitForIds: seq<Id>
    var futures: seq<Id>
    var resolutionTable: map<Id, Id>
    var dependentInputs: map<Name, Id>
    /** The `dependent_id` output. */
    var dependentId: Option<Id>
    /** Every process this workchain submitted, in order. */
    var submitted: seq<Submission>

    function Current(): Ctx
      reads this
    {
      Ctx(waitForIds, futures, resolutionTable, dependentInputs)
    }

    predicate Valid()
      reads this
    {
      Consistent(dependencies, handles, Current())
    }

    constructor (dependent: string, dependencies: seq<Link>, passthroughInputs: Option<seq<(Name, Id)>>, handles: Handles)
      ensures this.dependent == dependent && this.dependencies == dependencies
      ensures this.passthroughInputs == passthroughInputs && this.handles == handles
      ensures waitForIds == [] && futures == [] && resolutionTable == map[] && dependentInputs == map[]
      ensures dependentId == None && submitted == []
      ensures Valid()
    {
      this.dependent := dependent;
      this.dependencies := dependencies;
      this.passthroughInputs := passthroughInputs;
      this.handles := handles;
      waitForIds := [];
      futures := [];
      resolutionTable := map[];
      dependentInputs := map[];
      dependentId := None;
      submitted := [];
    }

    /** `prepare`. */
    method Prepare()
      modifies this
      ensures Current() == Prepared(dependencies)
      ensures waitForIds == Upstreams(dependencies) && futures == [] && dependentInputs == map[]
      ensures resolutionTable == IdentityTable(Upstreams(dependencies))
      ensures dependentId == old(dependentId) && submitted == old(submitted)
      ensures Valid()
    {
      waitForIds := Upstreams(dependencies);
      dependentInputs := map[];
      resolutionTable := IdentityTable(waitForIds);
      futures := [];
    }

    /** `dependencies_left`. */
    predicate DependenciesLeft()
      reads this
    {
      |waitForIds| > 0 || |futures| > 0
    }

    /** `push_futures`. */
    method PushFutures() returns (r: Outcome<Failure>)
      requires Valid()
      modifies this
      ensures PushPass(handles, old(Current())).Failure? ==>
                r == Fail(PushPass(handles, old(Current())).error) && futures == old(futures)
      ensures PushPass(handles, old(Current())).Success? ==>
                r == Pass && Current() == PushPass(handles, old(Current())).value && Valid()
      ensures resolutionTable == old(resolutionTable) && dependentInputs == old(dependentInputs)
      ensures dependentId == old(dependentId) && submitted == old(submitted)
    {
      ghost var c0 := Current();
      var pushed: seq<Id> := [];
      var i := 0;
      VisitStart(waitForIds);
      while i < |waitForIds|
        invariant VisitsSoFar(c0.waitForIds, pushed, waitForIds, i)
        invariant forall id :: id in pushed ==> id in handles
        invariant futures == c0.futures && resolutionTable == c0.table && dependentInputs == c0.inputs
        invariant dependentId == old(dependentId) && submitted == old(submitted)
        decreases |waitForIds| - i
      {
        var id := waitForIds[i];
        if id !in handles {
          PushFailsAt(handles, c0, pushed, waitForIds, i);
          return Fail(NotFound(id));
        }
        VisitAdvance(c0.waitForIds, pushed, waitForIds, i);
        pushed := pushed + [id];
        waitForIds := RemoveFirst(waitForIds, id);
        i := i + 1;
      }
      VisitDone(c0.waitForIds, pushed, waitForIds, i);
      PushCompletes(handles, c0, pushed, waitForIds);
      futures := futures + pushed;
      PushPassSpec(dependencies, handles, c0);
      return Pass;
    }

    /** `collect_inputs`. */
    method CollectInputs() returns (r: Outcome<Failure>)
      requires Valid()
      modifies this
      ensures CollectPass(dependencies, handles, old(Current())).Failure? ==>
                r == Fail(CollectPass(dependencies, handles, old(Current())).error)
      ensures CollectPass(dependencies, handles, old(Current())).Success? ==>
                r == Pass && Current() == CollectPass(dependencies, handles, old(Current())).value && Valid()
      ensures dependentId == old(dependentId) && submitted == old(submitted)
    {
      ghost var c0 := Current();
      ghost var seen: seq<Id> := [];
      var i := 0;
      VisitStart(futures);
      while i < |futures|
        invariant Collecting(c0, seen, i)
        invariant dependentId == old(dependentId) && submitted == old(submitted)
        decreases |futures| - i
      {
        r, seen := CollectOne(c0, seen, i);
        if r.Fail? {
          return;
        }
        i := i + 1;
      }
      VisitDone(c0.futures, seen, futures, i);
      CollectPassSpec(dependencies, handles, c0);
      return Pass;
    }

    /** The state of the `collect_inputs` loop after the futures in `seen`. */
    ghost predicate Collecting(c0: Ctx, seen: seq<Id>, i: nat)
      reads this
    {
      CollectState(dependencies, handles, c0, seen, i, Current())
    }

    /** One pass of the `collect_inputs` loop, on the future at position `i`:
        either the whole pass fails with the error the specification gives,
        or the future is checked and removed. */
    method CollectOne(ghost c0: Ctx, ghost seen: seq<Id>, i: nat) returns (r: Outcome<Failure>, ghost seen': seq<Id>)
      requires Collecting(c0, seen, i) && i < |futures|
      modifies this
      ensures r.Fail? ==> CollectPass(dependencies, handles, c0).Failure?
                          && r == Fail(CollectPass(dependencies, handles, c0).error)
      ensures r.Pass? ==> Collecting(c0, seen', i + 1) && |futures| < |old(futures)|
      ensures dependentId == old(dependentId) && submitted == old(submitted)
    {
      seen' := seen;
      var id := futures[i];
      CollectStateStep(dependencies, handles, c0, seen, i, Current());
      r := CheckFuture(id);
      if r.Fail? {
        return;
      }
      futures := RemoveFirst(futures, id);
      seen' := seen + [id];
    }

    /** The body of the `collect_inputs` loop for one future. */
    method CheckFuture(id: Id) returns (r: Outcome<Failure>)
      requires id in handles && id in resolutionTable && resolutionTable[id] in Upstreams(dependencies)
      modifies this
      ensures Step(dependencies, handles, old(Current()), id).Failure? ==>
                r == Fail(Step(dependencies, handles, old(Current()), id).error) && unchanged(this)
      ensures Step(dependencies, handles, old(Current()), id).Success? ==>
                r == Pass && Current() == Step(dependencies, handles, old(Current()), id).value
      ensures futures == old(futures) && dependentId == old(dependentId) && submitted == old(submitted)
    {
      var h := handles[id];
      if h.status != FinishedOk {
        return Fail(AssertionFailed(id));
      }
      if h.kind.WaitForDependenciesRun? {
        var d := h.kind.dependentId;
        waitForIds := waitForIds + [d];
        resolutionTable := resolutionTable[d := resolutionTable[id]];
      } else {
        var bound := Bind(h.outputs, WiringOf(dependencies, resolutionTable[id]));
        if bound.Failure? {
          return Fail(MissingOutput(id, bound.error));
        }
        dependentInputs := dependentInputs + bound.value;
      }
      return Pass;
    }

    /** `start_dependent`: merge the passthrough inputs, submit one dependent
        and record its uuid. */
    method StartDependent(newId: Id) returns (r: Outcome<Failure>)
      modifies this
      ensures Dispatch(handles, old(dependentInputs), passthroughInputs).Failure? ==>
                && r == Fail(Dispatch(handles, old(dependentInputs), passthroughInputs).error)
                && dependentInputs == old(dependentInputs)
                && dependentId == old(dependentId) && submitted == old(submitted)
      ensures Dispatch(handles, old(dependentInputs), passthroughInputs).Success? ==>
                && r == Pass
                && dependentInputs == Dispatch(handles, old(dependentInputs), passthroughInputs).value
                && submitted == old(submitted) + [Submission(newId, dependent, dependentInputs)]
                && dependentId == Some(newId)
      ensures waitForIds == old(waitForIds) && futures == old(futures) && resolutionTable == old(resolutionTable)
    {
      if passthroughInputs.Some? {
        var merged := MergePassthrough(handles, dependentInputs, passthroughInputs.value);
        if merged.Failure? {
          return Fail(merged.error);
        }
        dependentInputs := merged.value;
      }
      submitted := submitted + [Submission(newId, dependent, dependentInputs)];
      dependentId := Some(newId);
      return Pass;
    }

    /** The outline: prepare, the loop while dependencies are left, then
        start_dependent.  The rank only serves the termination argument. */
    method Run(ghost rank: map<Id, nat>, newId: Id) returns (r: Result<Id, Failure>)
      requires Ranked(handles, rank, WaitForDependenciesClass) && forall u :: u in Upstreams(dependencies) ==> u in rank
      modifies this
      ensures Scheduled(dependencies, handles, rank, passthroughInputs).Failure? ==>
                && r == Failure(Scheduled(dependencies, handles, rank, passthroughInputs).error)
                && dependentId == old(dependentId) && submitted == old(submitted)
      ensures Scheduled(dependencies, handles, rank, passthroughInputs).Success? ==>
                && r == Success(newId) && dependentId == Some(newId)
                && submitted == old(submitted) + [Submission(newId, dependent,
                                                  Scheduled(dependencies, handles, rank, passthroughInputs).value)]
    {
      Prepare();
      ghost var goal := Resolve(dependencies, handles, rank, Prepared(dependencies));
      while DependenciesLeft()
        invariant Heading(dependencies, handles, rank, goal, Current())
        invariant dependentId == old(dependentId) && submitted == old(submitted)
        decreases Weight(rank, Current())
      {
        var o := Round(rank, goal, Weight(rank, Current()));
        if o.Fail? {
          return Failure(o.error);
        }
      }
      var o := StartDependent(newId);
      if o.Fail? {
        return Failure(o.error);
      }
      return Success(newId);
    }

    /** One iteration of the `while_` loop: `push_futures`, then
        `collect_inputs`.  A failure is the failure of the whole loop; otherwise
        the loop's outcome is unchanged and the weight has gone down. */
    method Round(ghost rank: map<Id, nat>, ghost goal: Result<Ctx, Failure>, ghost w: nat) returns (o: Outcome<Failure>)
      requires Ranked(handles, rank, WaitForDependenciesClass)
      requires Valid() && InRank(rank, Current()) && DependenciesLeft()
      requires Resolve(dependencies, handles, rank, Current()) == goal && w == Weight(rank, Current())
      modifies this
      ensures o.Fail? ==> goal.Failure? && goal.error == o.error
      ensures o.Pass? ==> Heading(dependencies, handles, rank, goal, Current()) && Weight(rank, Current()) < w
      ensures dependentId == old(dependentId) && submitted == old(submitted)
    {
      ResolveStep(dependencies, handles, rank, Current());
      o := PushFutures();
      if o.Fail? {
        return;
      }
      o := CollectInputs();
    }
  }
}
