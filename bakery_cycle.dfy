/** The bakery demonstration workflows of bakery.py: BakeryCycle, which
    submits the six stages of every iteration as WaitForDependencies
    schedulers wired to the stages of earlier iterations, and
    BakeryIteration's choice of its first two stages.

    The database is a list of nodes: storing or submitting appends one and
    its id is its position.  Only the nodes the workflows refer to by id are
    stored: the `one()` values and the submitted processes. */
module BakeryLoop {
  import opened Wrappers
  import opened Engine

  /** The bakery's workchains. */
  datatype Workchain =
    | BuyIngredients | BuyIngredientsFromIncome | PreHeatOven | PreHeatOvenFromCleanOven
    | MakeDough | BakeBread | CleanOven | SellBread

  /** The entry point of a workchain, as the schedulers' `dependent` input
      names it; the two `From...` workchains are only submitted directly. */
  function EntryPoint(w: Workchain): string {
    match w
    case BuyIngredients => "c2sm.bakery_buy_ingredients"
    case PreHeatOven => "c2sm.bakery_pre_heat_oven"
    case MakeDough => "c2sm.bakery_make_dough"
    case BakeBread => "c2sm.bakery_bake_bread"
    case CleanOven => "c2sm.bakery_clean_oven"
    case SellBread => "c2sm.bakery_sell_bread"
    case BuyIngredientsFromIncome => "c2sm.bakery_buy_ingredients_from_income"
    case PreHeatOvenFromCleanOven => "c2sm.bakery_pre_heat_oven_from_clean_oven"
  }

  /** The `{output_name: input_name}` tables of the stages. */
  const MONEY: Wiring := [("money", "money")]
  const OVEN_COLD: Wiring := [("oven_cold", "oven_cold")]
  const INGREDIENTS: Wiring := [("flour", "flour"), ("water", "water"), ("salt", "salt")]
  const OVEN_HOT: Wiring := [("oven_hot", "oven_hot")]
  const DOUGH: Wiring := [("dough", "dough")]
  const OVEN_CLEAN: Wiring := [("oven_clean", "oven_clean")]
  const OVEN_DIRTY: Wiring := [("oven_dirty", "oven_dirty")]
  const BREAD: Wiring := [("bread", "bread")]

  /** A submitted process: a workchain with its inputs, or a
      WaitForDependencies scheduler with its `dependent`, `dependencies`
      and optional `passthrough_inputs`. */
  datatype Process =
    | Direct(workchain: Workchain, inputs: map<Name, Id>)
    | Waiter(dependent: Workchain, dependencies: seq<Link>, passthrough: Option<seq<(Name, Id)>>)

  datatype Node = IntNode(value: int) | ProcessNode(process: Process)

  // ---- the thresholds shared by BakeryIteration and BakeryCycle ----

  /** Iterations up to the second buy with seed money; later ones pay with the
      income of the bread sold two iterations before. */
  predicate BuysWithSeedMoney(n: int) {
    n <= 2
  }

  /** Only the first iteration heats a cold oven; later ones wait for the
      previous iteration's cleaning. */
  predicate HeatsColdOven(n: int) {
    n <= 1
  }

  /** Python's IndexError for `list[index]`. */
  datatype IndexError = IndexError(list: string, index: int)

  /** The ids of the three `one()` nodes created by `prepare`. */
  datatype Seeds = Seeds(money: Id, ovenCold: Id, ovenClean: Id)

  /** `run_iteration` reads `sell_bread_ids[-2]` after the second iteration
      and `clean_oven_ids[-1]` after the first. */
  predicate InBounds(n: int, cleanCount: nat, sellCount: nat) {
    (BuysWithSeedMoney(n) || sellCount >= 2) && (HeatsColdOven(n) || cleanCount >= 1)
  }

  /** `run_iteration` fails on the first negative index it cannot take:
      the buying stage reads the sold bread first, the heating stage the
      cleaned oven. */
  function IterationError(n: int, cleanCount: nat, sellCount: nat): (e: IndexError)
    requires !InBounds(n, cleanCount, sellCount)
    ensures e.list == "sell_bread_ids" <==> !BuysWithSeedMoney(n) && sellCount < 2
    ensures e.index == (if e.list == "sell_bread_ids" then -2 else -1)
  {
    if !BuysWithSeedMoney(n) && sellCount < 2 then IndexError("sell_bread_ids", -2)
    else IndexError("clean_oven_ids", -1)
  }

  /** The buying stage: `BuyIngredients` with the seed money, or a scheduler
      waiting for the money of the bread sold two iterations before. */
  function BuyProcess(n: int, sell: seq<Id>, seeds: Seeds): Process
    requires BuysWithSeedMoney(n) || |sell| >= 2
  {
    if BuysWithSeedMoney(n) then Direct(Workchain.BuyIngredients, map["money" := seeds.money])
    else Waiter(BuyIngredients, [Link(sell[|sell| - 2], MONEY)], None)
  }

  /** The heating stage: `PreHeatOven` on the cold starting oven, or a
      scheduler waiting for the previous iteration's cleaned oven. */
  function HeatProcess(n: int, clean: seq<Id>, seeds: Seeds): Process
    requires HeatsColdOven(n) || |clean| >= 1
  {
    if HeatsColdOven(n) then Direct(Workchain.PreHeatOven, map["oven_cold" := seeds.ovenCold])
    else Waiter(PreHeatOven, [Link(clean[|clean| - 1], OVEN_COLD)], None)
  }

  /** The baking stage waits for the hot oven and the dough, and after the
      first iteration for the previous cleaning; in the first iteration the
      clean oven is a passthrough input. */
  function BakeProcess(n: int, clean: seq<Id>, seeds: Seeds, hotOven: Id, dough: Id): Process
    requires n <= 1 || |clean| >= 1
  {
    var deps := [Link(hotOven, OVEN_HOT), Link(dough, DOUGH)];
    if n > 1 then Waiter(BakeBread, deps + [Link(clean[|clean| - 1], OVEN_CLEAN)], None)
    else Waiter(BakeBread, deps, Some([("oven_clean", seeds.ovenClean)]))
  }

  /** The six processes of iteration n, in submission order, when its first
      one gets id `base`: buying, heating, making dough, baking, cleaning
      and selling. */
  function Iteration(n: int, clean: seq<Id>, sell: seq<Id>, seeds: Seeds, base: Id): (ps: seq<Process>)
    requires InBounds(n, |clean|, |sell|)
    ensures |ps| == 6
  {
    [ BuyProcess(n, sell, seeds),
      HeatProcess(n, clean, seeds),
      Waiter(MakeDough, [Link(base, INGREDIENTS)], None),
      BakeProcess(n, clean, seeds, base + 1, base + 2),
      Waiter(CleanOven, [Link(base + 1, OVEN_HOT), Link(base + 3, OVEN_DIRTY)], None),
      Waiter(SellBread, [Link(base + 3, BREAD)], None) ]
  }

  lemma AsNodesSix(ps: seq<Process>)
    requires |ps| == 6
    ensures AsNodes(ps) == [ProcessNode(ps[0]), ProcessNode(ps[1]), ProcessNode(ps[2]),
                            ProcessNode(ps[3]), ProcessNode(ps[4]), ProcessNode(ps[5])]
  {
  }

  /** The nodes of an iteration, in the two halves `run_iteration` submits. */
  lemma IterationNodes(n: int, clean: seq<Id>, sell: seq<Id>, seeds: Seeds, base: Id)
    requires InBounds(n, |clean|, |sell|)
    ensures AsNodes(Iteration(n, clean, sell, seeds, base)) ==
      [ProcessNode(BuyProcess(n, sell, seeds)),
       ProcessNode(HeatProcess(n, clean, seeds)),
       ProcessNode(Waiter(MakeDough, [Link(base, INGREDIENTS)], None))] +
      [ProcessNode(BakeProcess(n, clean, seeds, base + 1, base + 2)),
       ProcessNode(Waiter(CleanOven, [Link(base + 1, OVEN_HOT), Link(base + 3, OVEN_DIRTY)], None)),
       ProcessNode(Waiter(SellBread, [Link(base + 3, BREAD)], None))]
  {
    AsNodesSix(Iteration(n, clean, sell, seeds, base));
  }

  function AsNodes(ps: seq<Process>): (ns: seq<Node>)
    ensures |ns| == |ps| && forall k :: 0 <= k < |ps| ==> ns[k] == ProcessNode(ps[k])
  {
    if ps == [] then [] else [ProcessNode(ps[0])] + AsNodes(ps[1..])
  }

  /** The upstream ids a process names: its inputs and its dependencies'
      keys. */
  function Refs(p: Process): set<Id> {
    match p
    case Direct(_, inputs) => inputs.Values
    case Waiter(_, deps, pass) =>
      (set k | 0 <= k < |deps| :: deps[k].upstream)
      + (if pass.Some? then set k | 0 <= k < |pass.value| :: pass.value[k].1 else {})
  }

  /** The wiring of an iteration.  With the seeds and the history stored
      before the iteration, every process names only nodes created before
      itself, so the submitted graph has no cycle; each scheduler's
      dependency keys are distinct; and the oven is cleaned either by
      passthrough (first iteration) or through the previous cleaning. */
  lemma IterationWiring(n: int, clean: seq<Id>, sell: seq<Id>, seeds: Seeds, base: Id)
    requires InBounds(n, |clean|, |sell|)
    requires seeds.money < base && seeds.ovenCold < base && seeds.ovenClean < base
    requires (forall k :: 0 <= k < |clean| ==> clean[k] < base) && (forall k :: 0 <= k < |sell| ==> sell[k] < base)
    ensures var ps := Iteration(n, clean, sell, seeds, base);
            && (forall j :: 0 <= j < 6 ==> forall id :: id in Refs(ps[j]) ==> id < base + j)
            && (forall j :: 0 <= j < 6 ==> ps[j].Waiter? ==> NoDups(Upstreams(ps[j].dependencies)))
            && (ps[3].passthrough.Some? <==> HeatsColdOven(n))
            && (!HeatsColdOven(n) ==> Link(clean[|clean| - 1], OVEN_CLEAN) in ps[3].dependencies)
  {
    var ps := Iteration(n, clean, sell, seeds, base);
    forall j | 0 <= j < 6
      ensures forall id :: id in Refs(ps[j]) ==> id < base + j
    {
      if j == 0 && BuysWithSeedMoney(n) {
        SingleValue("money", seeds.money);
      } else if j == 1 && HeatsColdOven(n) {
        SingleValue("oven_cold", seeds.ovenCold);
      }
    }
    forall j | 0 <= j < 6 && ps[j].Waiter?
      ensures NoDups(Upstreams(ps[j].dependencies))
    {
      StageDistinct(n, clean, sell, seeds, base, j);
    }
  }

  /** The dependency keys of one scheduler of the iteration are distinct. */
  lemma StageDistinct(n: int, clean: seq<Id>, sell: seq<Id>, seeds: Seeds, base: Id, j: nat)
    requires InBounds(n, |clean|, |sell|) && j < 6
    requires forall k :: 0 <= k < |clean| ==> clean[k] < base
    ensures var p := Iteration(n, clean, sell, seeds, base)[j];
            p.Waiter? ==> NoDups(Upstreams(p.dependencies))
  {
    var p := Iteration(n, clean, sell, seeds, base)[j];
    if j == 3 && n > 1 {
      assert Upstreams(p.dependencies) == [base + 1, base + 2, clean[|clean| - 1]];
    } else if j == 3 {
      assert Upstreams(p.dependencies) == [base + 1, base + 2];
    } else if j == 4 {
      assert Upstreams(p.dependencies) == [base + 1, base + 3];
    }
  }

  /** The history lists grow together; the k-th entries are the buying,
      cleaning and selling stage of the k-th iteration, whose six nodes
      follow each other in the database from `first` on; the selling stage
      waits for that iteration's baking. */
  ghost predicate History(first: Id, seeds: Seeds, ingredients: seq<Id>, clean: seq<Id>, sell: seq<Id>, nodes: seq<Node>) {
    && |ingredients| == |clean| == |sell|
    && seeds.money < first && seeds.ovenCold < first && seeds.ovenClean < first
    && first + 6 * |sell| == |nodes|
    && (forall k :: 0 <= k < |ingredients| ==> ingredients[k] == first + 6 * k)
    && (forall k :: 0 <= k < |clean| ==> clean[k] == first + 6 * k + 4)
    && (forall k :: 0 <= k < |sell| ==> sell[k] == first + 6 * k + 5)
    && (forall k :: 0 <= k < |sell| ==>
          nodes[sell[k]] == ProcessNode(Waiter(SellBread, [Link(sell[k] - 2, BREAD)], None)))
    && (forall k :: 0 <= k < |clean| ==>
          nodes[clean[k]].ProcessNode? && nodes[clean[k]].process.Waiter?
          && nodes[clean[k]].process.dependent == CleanOven)
  }

  /** An iteration keeps the history invariant. */
  lemma HistoryStep(n: int, first: Id, seeds: Seeds, ingredients: seq<Id>, clean: seq<Id>, sell: seq<Id>, nodes: seq<Node>)
    requires History(first, seeds, ingredients, clean, sell, nodes) && InBounds(n, |clean|, |sell|)
    ensures History(first, seeds, ingredients + [|nodes|], clean + [|nodes| + 4], sell + [|nodes| + 5],
                    nodes + AsNodes(Iteration(n, clean, sell, seeds, |nodes|)))
  {
    var ns := nodes + AsNodes(Iteration(n, clean, sell, seeds, |nodes|));
    var sell' := sell + [|nodes| + 5];
    var clean' := clean + [|nodes| + 4];
    forall k | 0 <= k < |sell'|
      ensures ns[sell'[k]] == ProcessNode(Waiter(SellBread, [Link(sell'[k] - 2, BREAD)], None))
    {
      if k < |sell| {
        assert sell'[k] == sell[k];
      }
    }
    forall k | 0 <= k < |clean'|
      ensures ns[clean'[k]].ProcessNode? && ns[clean'[k]].process.Waiter? && ns[clean'[k]].process.dependent == CleanOven
    {
      if k < |clean| {
        assert clean'[k] == clean[k];
      }
    }
  }

  /** `HistoryStep` for lists given by name. */
  lemma HistoryNext(n: int, first: Id, seeds: Seeds, ingredients: seq<Id>, clean: seq<Id>, sell: seq<Id>, nodes: seq<Node>,
                    ingredients': seq<Id>, clean': seq<Id>, sell': seq<Id>, nodes': seq<Node>)
    requires History(first, seeds, ingredients, clean, sell, nodes) && InBounds(n, |clean|, |sell|)
    requires ingredients' == ingredients + [|nodes|] && clean' == clean + [|nodes| + 4]
    requires sell' == sell + [|nodes| + 5] && nodes' == nodes + AsNodes(Iteration(n, clean, sell, seeds, |nodes|))
    ensures History(first, seeds, ingredients', clean', sell', nodes')
    ensures |nodes'| == |nodes| + 6 && |sell'| == |sell| + 1
  {
    HistoryStep(n, first, seeds, ingredients, clean, sell, nodes);
  }

  lemma SingleValue(k: Name, v: Id)
    ensures map[k := v].Values == {v}
  {
    var m := map[k := v];
    assert m[k] == v;
  }

  /** While a cycle goes through, iteration n finds n - start entries in
      each history; the indices are in range at every iteration exactly when
      the cycle started at iteration 1 or earlier, and a later start already
      fails in its first iteration. */
  lemma StartDecides(start: int, n: int)
    requires start <= n && (n == start || start <= 1)
    ensures InBounds(n, n - start, n - start) <==> start <= 1
  {
  }

  /** The iterations a cycle from `start` to `end` runs. */
  function Iterations(start: int, end: int): nat {
    if end >= start then end - start + 1 else 0
  }

  class BakeryCycle {
    const startIteration: int
    const endIteration: int
    /** The database: the nodes stored so far, in creation order; a node's
        id is its position. */
    var nodes: seq<Node>
    var iterationNr: int
    var ingredientsIds: seq<Id>
    var cleanOvenIds: seq<Id>
    var sellBreadIds: seq<Id>
    var seeds: Seeds
    /** The id of the first node submitted by the first iteration. */
    ghost var first: Id
    var latestBakedBread: Option<Id>

    ghost predicate Valid()
      reads this
    {
      History(first, seeds, ingredientsIds, cleanOvenIds, sellBreadIds, nodes)
    }

    constructor (startIteration: int, endIteration: int, nodes: seq<Node>)
      ensures this.startIteration == startIteration && this.endIteration == endIteration && this.nodes == nodes
      ensures ingredientsIds == [] && cleanOvenIds == [] && sellBreadIds == [] && latestBakedBread == None
    {
      this.startIteration := startIteration;
      this.endIteration := endIteration;
      this.nodes := nodes;
      ingredientsIds := [];
      cleanOvenIds := [];
      sellBreadIds := [];
      latestBakedBread := None;
    }

    /** `prepare`: start at the first iteration with empty histories and
        three fresh `one()` nodes as seed money and starting oven. */
    method Prepare()
      modifies this
      ensures iterationNr == startIteration
      ensures ingredientsIds == [] && cleanOvenIds == [] && sellBreadIds == []
      ensures nodes == old(nodes) + [IntNode(1), IntNode(1), IntNode(1)]
      ensures seeds == Seeds(|old(nodes)|, |old(nodes)| + 1, |old(nodes)| + 2)
      ensures Valid()
    {
      iterationNr := startIteration;
      ingredientsIds := [];
      cleanOvenIds := [];
      sellBreadIds := [];
      var money := |nodes|;
      nodes := nodes + [IntNode(1)];
      var cold := |nodes|;
      nodes := nodes + [IntNode(1)];
      var clean := |nodes|;
      nodes := nodes + [IntNode(1)];
      seeds := Seeds(money, cold, clean);
      first := |nodes|;
    }

    /** `should_continue`: the loop goes on exactly while iterations are
        left to run. */
    predicate ShouldContinue(): (b: bool)
      reads this
      ensures b <==> Iterations(iterationNr, endIteration) > 0
    {
      iterationNr <= endIteration
    }

    /** `run_iteration`: submit the six stages and extend each history by
        one; an index before the start of a history list raises.  When the
        heating stage raises, the buying stage before it has already been
        submitted and recorded. */
    method RunIteration() returns (r: Outcome<IndexError>)
      modifies this
      ensures r.Pass? <==> InBounds(old(iterationNr), |old(cleanOvenIds)|, |old(sellBreadIds)|)
      ensures r.Fail? ==> r.error == IterationError(old(iterationNr), |old(cleanOvenIds)|, |old(sellBreadIds)|)
      ensures r.Pass? ==>
        && nodes == old(nodes) + AsNodes(Iteration(old(iterationNr), old(cleanOvenIds), old(sellBreadIds), seeds, |old(nodes)|))
        && ingredientsIds == old(ingredientsIds) + [|old(nodes)|]
        && cleanOvenIds == old(cleanOvenIds) + [|old(nodes)| + 4]
        && sellBreadIds == old(sellBreadIds) + [|old(nodes)| + 5]
        && latestBakedBread == Some(|old(nodes)| + 3)
      ensures r.Fail? && !BuysWithSeedMoney(old(iterationNr)) && |old(sellBreadIds)| < 2 ==>
        nodes == old(nodes) && ingredientsIds == old(ingredientsIds)
      ensures r.Fail? && (BuysWithSeedMoney(old(iterationNr)) || |old(sellBreadIds)| >= 2) ==>
        && nodes == old(nodes) + [ProcessNode(BuyProcess(old(iterationNr), old(sellBreadIds), seeds))]
        && ingredientsIds == old(ingredientsIds) + [|old(nodes)|]
      ensures r.Fail? ==>
        && cleanOvenIds == old(cleanOvenIds) && sellBreadIds == old(sellBreadIds)
        && latestBakedBread == old(latestBakedBread)
      ensures iterationNr == old(iterationNr) && seeds == old(seeds) && first == old(first)
    {
      var n := iterationNr;
      if !InBounds(n, |cleanOvenIds|, |sellBreadIds|) {
        var e := SubmitUntilError();
        return Fail(e);
      }
      SubmitIteration();
      return Pass;
    }

    /** A `run_iteration` whose indices are in range: the six stages are
        submitted, and the buying, cleaning and selling histories and the
        latest baking record them. */
    method SubmitIteration()
      requires InBounds(iterationNr, |cleanOvenIds|, |sellBreadIds|)
      modifies this
      ensures nodes == old(nodes) + AsNodes(Iteration(old(iterationNr), old(cleanOvenIds), old(sellBreadIds), seeds, |old(nodes)|))
      ensures ingredientsIds == old(ingredientsIds) + [|old(nodes)|]
      ensures cleanOvenIds == old(cleanOvenIds) + [|old(nodes)| + 4]
      ensures sellBreadIds == old(sellBreadIds) + [|old(nodes)| + 5]
      ensures latestBakedBread == Some(|old(nodes)| + 3)
      ensures iterationNr == old(iterationNr) && seeds == old(seeds) && first == old(first)
    {
      var n := iterationNr;
      IterationNodes(n, cleanOvenIds, sellBreadIds, seeds, |nodes|);
      var hotOven, makeDough := SubmitSupplies(n);
      SubmitBaking(n, hotOven, makeDough);
    }

    /** A `run_iteration` that raises: the buying stage is still submitted
        and recorded when its own index is in range, and the heating stage
        then raises. */
    method SubmitUntilError() returns (e: IndexError)
      requires !InBounds(iterationNr, |cleanOvenIds|, |sellBreadIds|)
      modifies this
      ensures e == IterationError(old(iterationNr), |old(cleanOvenIds)|, |old(sellBreadIds)|)
      ensures !BuysWithSeedMoney(old(iterationNr)) && |old(sellBreadIds)| < 2 ==>
        nodes == old(nodes) && ingredientsIds == old(ingredientsIds)
      ensures BuysWithSeedMoney(old(iterationNr)) || |old(sellBreadIds)| >= 2 ==>
        && nodes == old(nodes) + [ProcessNode(BuyProcess(old(iterationNr), old(sellBreadIds), seeds))]
        && ingredientsIds == old(ingredientsIds) + [|old(nodes)|]
      ensures cleanOvenIds == old(cleanOvenIds) && sellBreadIds == old(sellBreadIds)
      ensures latestBakedBread == old(latestBakedBread)
      ensures iterationNr == old(iterationNr) && seeds == old(seeds) && first == old(first)
    {
      var n := iterationNr;
      if BuysWithSeedMoney(n) || |sellBreadIds| >= 2 {
        var buy := |nodes|;
        nodes := nodes + [ProcessNode(BuyProcess(n, sellBreadIds, seeds))];
        ingredientsIds := ingredientsIds + [buy];
      }
      e := IterationError(n, |cleanOvenIds|, |sellBreadIds|);
    }

    /** The first half of `run_iteration`: buying, heating and making
        dough; the dough waits for the ingredients just bought. */
    method SubmitSupplies(n: int) returns (hotOven: Id, makeDough: Id)
      requires InBounds(n, |cleanOvenIds|, |sellBreadIds|)
      modifies this
      ensures nodes == old(nodes) + [ProcessNode(BuyProcess(n, old(sellBreadIds), seeds)),
                                     ProcessNode(HeatProcess(n, old(cleanOvenIds), seeds)),
                                     ProcessNode(Waiter(MakeDough, [Link(|old(nodes)|, INGREDIENTS)], None))]
      ensures ingredientsIds == old(ingredientsIds) + [|old(nodes)|]
      ensures hotOven == |old(nodes)| + 1 && makeDough == |old(nodes)| + 2
      ensures cleanOvenIds == old(cleanOvenIds) && sellBreadIds == old(sellBreadIds)
      ensures iterationNr == old(iterationNr) && seeds == old(seeds) && first == old(first)
      ensures latestBakedBread == old(latestBakedBread)
    {
      var buy := |nodes|;
      nodes := nodes + [ProcessNode(BuyProcess(n, sellBreadIds, seeds))];
      ingredientsIds := ingredientsIds + [buy];
      hotOven := |nodes|;
      nodes := nodes + [ProcessNode(HeatProcess(n, cleanOvenIds, seeds))];
      makeDough := |nodes|;
      nodes := nodes + [ProcessNode(Waiter(MakeDough, [Link(ingredientsIds[|ingredientsIds| - 1], INGREDIENTS)], None))];
    }

    /** The second half of `run_iteration`: baking, cleaning and selling;
        cleaning and selling wait for this iteration's baking. */
    method SubmitBaking(n: int, hotOven: Id, makeDough: Id)
      requires n <= 1 || |cleanOvenIds| >= 1
      modifies this
      ensures nodes == old(nodes) + [ProcessNode(BakeProcess(n, old(cleanOvenIds), seeds, hotOven, makeDough)),
                                     ProcessNode(Waiter(CleanOven, [Link(hotOven, OVEN_HOT), Link(|old(nodes)|, OVEN_DIRTY)], None)),
                                     ProcessNode(Waiter(SellBread, [Link(|old(nodes)|, BREAD)], None))]
      ensures cleanOvenIds == old(cleanOvenIds) + [|old(nodes)| + 1]
      ensures sellBreadIds == old(sellBreadIds) + [|old(nodes)| + 2]
      ensures latestBakedBread == Some(|old(nodes)|)
      ensures ingredientsIds == old(ingredientsIds)
      ensures iterationNr == old(iterationNr) && seeds == old(seeds) && first == old(first)
    {
      var bakeBread := |nodes|;
      nodes := nodes + [ProcessNode(BakeProcess(n, cleanOvenIds, seeds, hotOven, makeDough))];
      var cleaned := |nodes|;
      nodes := nodes + [ProcessNode(Waiter(CleanOven, [Link(hotOven, OVEN_HOT), Link(bakeBread, OVEN_DIRTY)], None))];
      cleanOvenIds := cleanOvenIds + [cleaned];
      var sold := |nodes|;
      nodes := nodes + [ProcessNode(Waiter(SellBread, [Link(bakeBread, BREAD)], None))];
      sellBreadIds := sellBreadIds + [sold];
      latestBakedBread := Some(bakeBread);
    }

    /** `increment_iteration`. */
    method IncrementIteration()
      modifies this
      ensures iterationNr == old(iterationNr) + 1
      ensures ingredientsIds == old(ingredientsIds) && cleanOvenIds == old(cleanOvenIds)
      ensures sellBreadIds == old(sellBreadIds) && seeds == old(seeds) && first == old(first)
      ensures latestBakedBread == old(latestBakedBread) && nodes == old(nodes)
    {
      iterationNr := iterationNr + 1;
    }

    /** One round of the `while_` body: `run_iteration`, then
        `increment_iteration`. */
    method Round() returns (r: Outcome<IndexError>)
      requires Valid()
      modifies this
      ensures r.Pass? <==> InBounds(old(iterationNr), |old(cleanOvenIds)|, |old(sellBreadIds)|)
      ensures r.Pass? ==>
        && Valid() && iterationNr == old(iterationNr) + 1
        && |sellBreadIds| == |old(sellBreadIds)| + 1 && |nodes| == |old(nodes)| + 6
    {
      ghost var before := (ingredientsIds, cleanOvenIds, sellBreadIds, nodes);
      r := RunIteration();
      if r.Fail? {
        return;
      }
      IncrementIteration();
      HistoryNext(iterationNr - 1, first, seeds, before.0, before.1, before.2, before.3,
                  ingredientsIds, cleanOvenIds, sellBreadIds, nodes);
    }

    /** The outline: prepare, then run and increment while the iteration
        number has not passed the end.  The run goes through exactly when it
        starts at iteration 1 or earlier, or runs no iteration at all; it
        then has run `end - start + 1` iterations (none when that is not
        positive), each adding one entry to every history list. */
    method Run() returns (r: Outcome<IndexError>)
      modifies this
      ensures r.Pass? <==> startIteration <= 1 || startIteration > endIteration
      ensures r.Pass? ==>
        && |ingredientsIds| == |cleanOvenIds| == |sellBreadIds| == Iterations(startIteration, endIteration)
        && iterationNr == startIteration + Iterations(startIteration, endIteration)
        && |nodes| == |old(nodes)| + 3 + 6 * Iterations(startIteration, endIteration)
        && Valid()
    {
      Prepare();
      while ShouldContinue()
        invariant Valid() && |nodes| == |old(nodes)| + 3 + 6 * |sellBreadIds|
        invariant |sellBreadIds| == iterationNr - startIteration
        invariant startIteration <= iterationNr <= startIteration + Iterations(startIteration, endIteration)
        invariant startIteration != iterationNr ==> startIteration <= 1
        decreases endIteration - iterationNr
      {
        StartDecides(startIteration, iterationNr);
        r := Round();
        if r.Fail? {
          return;
        }
      }
      return Pass;
    }
  }

  /** A BakeryIteration's own first stages, submitted directly instead of
      through schedulers; the providers are the ids of the selling and
      cleaning stages of earlier iterations. */
  class BakeryIteration {
    const iterationNr: int
    const capitalProvider: Id
    const cleaningProvider: Id
    /** The database: the nodes stored so far, in creation order; a node's
        id is its position. */
    var nodes: seq<Node>
    var ingredientsId: Option<Id>
    var hotOvenId: Option<Id>

    constructor (iterationNr: int, capitalProvider: Id, cleaningProvider: Id, nodes: seq<Node>)
      ensures this.iterationNr == iterationNr && this.capitalProvider == capitalProvider
      ensures this.cleaningProvider == cleaningProvider && this.nodes == nodes
      ensures ingredientsId == None && hotOvenId == None
    {
      this.iterationNr := iterationNr;
      this.capitalProvider := capitalProvider;
      this.cleaningProvider := cleaningProvider;
      this.nodes := nodes;
      ingredientsId := None;
      hotOvenId := None;
    }

    /** `buy_ingredients`: with seed money (a fresh `one()`) up to the
        second iteration, from the provider's income afterwards. */
    method BuyIngredients()
      modifies this
      ensures BuysWithSeedMoney(iterationNr) ==>
        && nodes == old(nodes) + [IntNode(1), ProcessNode(Direct(Workchain.BuyIngredients, map["money" := |old(nodes)|]))]
        && ingredientsId == Some(|old(nodes)| + 1)
      ensures !BuysWithSeedMoney(iterationNr) ==>
        && nodes == old(nodes) + [ProcessNode(Direct(BuyIngredientsFromIncome, map["sell_bread_id" := capitalProvider]))]
        && ingredientsId == Some(|old(nodes)|)
      ensures hotOvenId == old(hotOvenId)
    {
      if iterationNr <= 2 {
        var money := |nodes|;
        nodes := nodes + [IntNode(1)];
        var ingredients := |nodes|;
        nodes := nodes + [ProcessNode(Direct(Workchain.BuyIngredients, map["money" := money]))];
        ingredientsId := Some(ingredients);
      } else {
        var ingredients := |nodes|;
        nodes := nodes + [ProcessNode(Direct(BuyIngredientsFromIncome, map["sell_bread_id" := capitalProvider]))];
        ingredientsId := Some(ingredients);
      }
    }

    /** `pre_heat_oven`: a cold oven (a fresh `one()`) in the first
        iteration, the provider's cleaned oven afterwards. */
    method PreHeatOven()
      modifies this
      ensures HeatsColdOven(iterationNr) ==>
        && nodes == old(nodes) + [IntNode(1), ProcessNode(Direct(Workchain.PreHeatOven, map["oven_cold" := |old(nodes)|]))]
        && hotOvenId == Some(|old(nodes)| + 1)
      ensures !HeatsColdOven(iterationNr) ==>
        && nodes == old(nodes) + [ProcessNode(Direct(PreHeatOvenFromCleanOven, map["clean_oven_id" := cleaningProvider]))]
        && hotOvenId == Some(|old(nodes)|)
      ensures ingredientsId == old(ingredientsId)
    {
      if iterationNr <= 1 {
        var cold := |nodes|;
        nodes := nodes + [IntNode(1)];
        var hot := |nodes|;
        nodes := nodes + [ProcessNode(Direct(Workchain.PreHeatOven, map["oven_cold" := cold]))];
        hotOvenId := Some(hot);
      } else {
        var hot := |nodes|;
        nodes := nodes + [ProcessNode(Direct(PreHeatOvenFromCleanOven, map["clean_oven_id" := cleaningProvider]))];
        hotOvenId := Some(hot);
      }
    }
  }
}
