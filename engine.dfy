/** What both dependency schedulers (bakery.py's WaitForDependencies and
    cycle.py's Dependencies) see of the workflow engine, and the list and dict
    idioms they are written with.

    The engine is a read-only map from node uuid to the final state of that
    node.  The schedulers only look at a node after awaiting it (`to_context`),
    so a node they read has finished, and a finished node never changes:
    reading its final state is what the code does. */
module Engine {
  import opened Wrappers
  import opened Seqs

  /** A node uuid; the model hands out fresh ones by counting. */
  type Id = nat

  /** An input or output port name. */
  type Name = string

  datatype Status = FinishedOk | FinishedFailed

  /** `process_class` of a finished node: a plain job, or one of the two
      scheduler classes with the `dependent_id` output it produced. */
  datatype Kind =
    | Job
    | WaitForDependenciesRun(dependentId: Id)
    | DependenciesRun(dependentId: Id)

  datatype Handle = Handle(status: Status, kind: Kind, outputs: map<Name, Id>)

  type Handles = map<Id, Handle>

  /** One `{output_name: input_name}` dict, in insertion order. */
  type Wiring = seq<(Name, Name)>

  /** One entry `uuid: {output_name: input_name}` of the `dependencies` dict. */
  datatype Link = Link(upstream: Id, wiring: Wiring)

  /** Why a scheduler run stops without dispatching its dependent. */
  datatype Failure =
    | NotFound(id: Id)                  // loading a uuid the database does not have
    | AssertionFailed(id: Id)           // bakery.py: `assert dependency.is_finished_ok`
    | MissingOutput(id: Id, name: Name) // `getattr(dependency.outputs, name)` fails
    | DependencyFailed(id: Id)          // cycle.py: exit code 400 DEPENDENCY_FAILED

  const DEPENDENCY_FAILED: int := 400

  // ---- the dependencies dict ----

  /** `list(dependencies.keys())`. */
  function Upstreams(deps: seq<Link>): (ids: seq<Id>)
    ensures |ids| == |deps|
    ensures forall k :: 0 <= k < |deps| ==> ids[k] == deps[k].upstream
  {
    if deps == [] then [] else [deps[0].upstream] + Upstreams(deps[1..])
  }

  predicate NoDups<T(==)>(s: seq<T>) {
    forall i, j :: 0 <= i < j < |s| ==> s[i] != s[j]
  }

  /** A dict has each key once. */
  predicate IsDict(deps: seq<Link>) {
    NoDups(Upstreams(deps))
  }

  /** `dependencies[id]`. */
  function WiringOf(deps: seq<Link>, id: Id): (w: Wiring)
    requires id in Upstreams(deps)
    ensures exists k :: 0 <= k < |deps| && deps[k].upstream == id && deps[k].wiring == w
  {
    if deps[0].upstream == id then deps[0].wiring else WiringOf(deps[1..], id)
  }

  lemma WiringOfAt(deps: seq<Link>, k: nat)
    requires IsDict(deps) && k < |deps|
    ensures deps[k].upstream in Upstreams(deps)
    ensures WiringOf(deps, deps[k].upstream) == deps[k].wiring
  {
    if k > 0 && deps[0].upstream != deps[k].upstream {
      assert Upstreams(deps[1..]) == Upstreams(deps)[1..];
      WiringOfAt(deps[1..], k - 1);
    }
  }

  /** `{i: i for i in ids}`. */
  function IdentityTable(ids: seq<Id>): (m: map<Id, Id>)
    ensures m.Keys == set i | i in ids
    ensures forall i :: i in m ==> m[i] == i
  {
    map i | i in ids :: i
  }

  /** The first id of the list that the database does not have. */
  function FirstUnknown(handles: Handles, ids: seq<Id>): (r: Option<Id>)
    ensures r.None? <==> forall id :: id in ids ==> id in handles
    ensures r.Some? ==> exists k :: 0 <= k < |ids| && ids[k] == r.value && r.value !in handles
                                    && forall j :: 0 <= j < k ==> ids[j] in handles
  {
    if ids == [] then None
    else if ids[0] !in handles then Some(ids[0])
    else
      var r := FirstUnknown(handles, ids[1..]);
      assert r.Some? ==> exists k :: 0 <= k < |ids[1..]| && ids[1..][k] == r.value && r.value !in handles
                                     && forall j :: 0 <= j < k ==> ids[1..][j] in handles;
      r
  }

  lemma {:induction false} FirstUnknownAfterKnown(handles: Handles, a: seq<Id>, b: seq<Id>)
    requires forall id :: id in a ==> id in handles
    ensures FirstUnknown(handles, a + b) == FirstUnknown(handles, b)
  {
    if a != [] {
      assert (a + b)[1..] == a[1..] + b;
      FirstUnknownAfterKnown(handles, a[1..], b);
    } else {
      assert a + b == b;
    }
  }

  // ---- list.remove and a for loop over the same list ----

  /** `s.remove(x)`: drops the first element equal to x. */
  function RemoveFirst<T(==)>(s: seq<T>, x: T): (r: seq<T>)
    ensures x in s ==> |r| == |s| - 1
    ensures x !in s ==> r == s
  {
    if s == [] then []
    else if s[0] == x then s[1..]
    else [s[0]] + RemoveFirst(s[1..], x)
  }

  /** Removing takes out one occurrence of x, if there is one, and nothing else. */
  lemma {:induction false} RemoveFirstMultiset<T>(s: seq<T>, x: T)
    ensures multiset(RemoveFirst(s, x)) == multiset(s) - multiset{x}
  {
    if s != [] {
      assert s == [s[0]] + s[1..];
      if s[0] != x {
        RemoveFirstMultiset(s[1..], x);
      }
    }
  }

  lemma {:induction false} RemoveFirstAfter<T>(a: seq<T>, b: seq<T>)
    requires |b| > 0 && b[0] !in a
    ensures RemoveFirst(a + b, b[0]) == a + b[1..]
  {
    if a != [] {
      var s := a + b;
      assert s[0] == a[0] && s[0] != b[0];
      assert s[1..] == a[1..] + b;
      RemoveFirstAfter(a[1..], b);
      assert RemoveFirst(s, b[0]) == [a[0]] + (a[1..] + b[1..]);
      assert [a[0]] + (a[1..] + b[1..]) == a + b[1..];
    }
  }

  /** `for x in s: ...; s.remove(x)` from position i on: Python's list
      iterator keeps its index while the list shrinks beneath it, so each
      removal makes it skip the element that moved into the freed slot.
      Returns the elements the loop body saw, in order, and what is left. */
  function Visit<T(==)>(s: seq<T>, i: nat): (r: (seq<T>, seq<T>))
    decreases |s| - i
  {
    if i >= |s| then ([], s)
    else
      var next := Visit(RemoveFirst(s, s[i]), i + 1);
      ([s[i]] + next.0, next.1)
  }

  /** One pass sees ceil((|s| - i) / 2) elements, duplicates or not: each step
      removes one element and advances the index by one. */
  lemma {:induction false} VisitCount<T>(s: seq<T>, i: nat)
    ensures |Visit(s, i).0| == if i >= |s| then 0 else (|s| - i + 1) / 2
    ensures |Visit(s, i).1| == |s| - |Visit(s, i).0|
    decreases |s| - i
  {
    if i < |s| {
      VisitCount(RemoveFirst(s, s[i]), i + 1);
    }
  }

  /** No element is lost or duplicated: what was seen and what is left make up
      the original list. */
  lemma {:induction false} VisitMultiset<T>(s: seq<T>, i: nat)
    ensures multiset(Visit(s, i).0) + multiset(Visit(s, i).1) == multiset(s)
    decreases |s| - i
  {
    if i < |s| {
      var s' := RemoveFirst(s, s[i]);
      var next := Visit(s', i + 1);
      assert Visit(s, i) == ([s[i]] + next.0, next.1);
      VisitMultiset(s', i + 1);
      RemoveFirstMultiset(s, s[i]);
      AddBack(s[i], next.0, next.1, s', s);
    }
  }

  /** An element of two lists whose contents are redistributed between two
      others is in one of those. */
  lemma InEither<T>(a: multiset<T>, b: multiset<T>, a': multiset<T>, b': multiset<T>, x: T)
    requires a + b == a' + b' && (x in a || x in b)
    ensures x in a' || x in b'
  {
    assert x in a + b;
  }

  /** Putting a removed element back in front of what was seen. */
  lemma AddBack<T>(x: T, seen: seq<T>, left: seq<T>, s': seq<T>, s: seq<T>)
    requires x in s && multiset(s') == multiset(s) - multiset{x}
    requires multiset(seen) + multiset(left) == multiset(s')
    ensures multiset([x] + seen) + multiset(left) == multiset(s)
  {
    assert x in multiset(s);
    assert multiset(s) == multiset(s') + multiset{x};
    calc {
      multiset([x] + seen) + multiset(left);
      multiset{x} + multiset(seen) + multiset(left);
      multiset{x} + multiset(s');
    }
  }

  /** How a loop over a list it shrinks is proved to compute Visit: what the
      loop has seen so far plus what the rest of the pass sees from index i
      of the current list is what the whole pass sees. */
  predicate VisitsSoFar<T(==)>(s0: seq<T>, seen: seq<T>, s: seq<T>, i: nat) {
    Visit(s0, 0) == (seen + Visit(s, i).0, Visit(s, i).1)
  }

  lemma VisitStart<T>(s: seq<T>)
    ensures VisitsSoFar(s, [], s, 0)
  {
    assert [] + Visit(s, 0).0 == Visit(s, 0).0;
  }

  lemma VisitAdvance<T>(s0: seq<T>, seen: seq<T>, s: seq<T>, i: nat)
    requires i < |s| && VisitsSoFar(s0, seen, s, i)
    ensures VisitsSoFar(s0, seen + [s[i]], RemoveFirst(s, s[i]), i + 1)
    ensures Visit(s, i).0 == [s[i]] + Visit(RemoveFirst(s, s[i]), i + 1).0
  {
    var rest := Visit(RemoveFirst(s, s[i]), i + 1);
    assert seen + ([s[i]] + rest.0) == (seen + [s[i]]) + rest.0;
  }

  lemma VisitDone<T>(s0: seq<T>, seen: seq<T>, s: seq<T>, i: nat)
    requires i >= |s| && VisitsSoFar(s0, seen, s, i)
    ensures Visit(s0, 0) == (seen, s)
  {
    assert seen + [] == seen;
  }

  /** A pass over a non-empty list sees at least one element, so the list
      strictly shrinks. */
  lemma VisitShrinks<T>(s: seq<T>)
    requires |s| > 0
    ensures |Visit(s, 0).0| >= 1 && |Visit(s, 0).1| < |s|
  {
    VisitCount(s, 0);
  }

  /** The elements at positions 0, 2, 4, ... */
  function Evens<T>(s: seq<T>): (r: seq<T>)
    ensures |r| == (|s| + 1) / 2
    ensures forall k :: 0 <= k < |r| ==> r[k] == s[2 * k]
  {
    if |s| == 0 then [] else if |s| == 1 then [s[0]] else [s[0]] + Evens(s[2..])
  }

  /** The elements at positions 1, 3, 5, ... */
  function Odds<T>(s: seq<T>): (r: seq<T>)
    ensures |r| == |s| / 2
    ensures forall k :: 0 <= k < |r| ==> r[k] == s[2 * k + 1]
  {
    if |s| <= 1 then [] else [s[1]] + Odds(s[2..])
  }

  lemma FirstOfSuffixNotInPrefix<T>(a: seq<T>, b: seq<T>)
    requires NoDups(a + b) && |b| > 0
    ensures b[0] !in a
  {
    forall j | 0 <= j < |a|
      ensures a[j] != b[0]
    {
      assert (a + b)[j] == a[j] && (a + b)[|a|] == b[0];
    }
  }

  lemma NoDupsShift<T>(a: seq<T>, b: seq<T>)
    requires NoDups(a + b) && |b| >= 2
    ensures NoDups((a + [b[1]]) + b[2..])
  {
    assert (a + [b[1]]) + b[2..] == a + b[1..];
    forall i, j | 0 <= i < j < |a + b[1..]|
      ensures (a + b[1..])[i] != (a + b[1..])[j]
    {
      var i0 := if i < |a| then i else i + 1;
      var j0 := if j < |a| then j else j + 1;
      assert (a + b[1..])[i] == (a + b)[i0];
      assert (a + b[1..])[j] == (a + b)[j0];
    }
  }

  lemma EvensOddsShift<T>(a: seq<T>, b: seq<T>)
    requires |b| >= 2
    ensures a + b[1..] == (a + [b[1]]) + b[2..]
    ensures [b[0]] + Evens(b[2..]) == Evens(b)
    ensures (a + [b[1]]) + Odds(b[2..]) == a + Odds(b)
  {
    var t := b[2..];
    assert Evens(b) == [b[0]] + Evens(t);
    assert Odds(b) == [b[1]] + Odds(t);
    ConsSlice(b, 1);
    Assoc(a, [b[1]], t);
    Assoc(a, [b[1]], Odds(t));
  }

  lemma {:induction false} VisitEvensOddsFrom<T>(a: seq<T>, b: seq<T>)
    requires NoDups(a + b)
    ensures Visit(a + b, |a|) == (Evens(b), a + Odds(b))
    decreases |b|
  {
    if b == [] {
      assert a + b == a;
    } else {
      var s := a + b;
      assert s[|a|] == b[0];
      FirstOfSuffixNotInPrefix(a, b);
      RemoveFirstAfter(a, b);
      var next := Visit(a + b[1..], |a| + 1);
      assert Visit(s, |a|) == ([b[0]] + next.0, next.1);
      if |b| == 1 {
        assert a + b[1..] == a;
        assert next == ([], a);
        assert Evens(b) == [b[0]] && a + Odds(b) == a;
        assert [b[0]] + next.0 == [b[0]];
      } else {
        var a' := a + [b[1]];
        EvensOddsShift(a, b);
        NoDupsShift(a, b);
        VisitEvensOddsFrom(a', b[2..]);
      }
    }
  }

  /** On a list without duplicates, one pass handles exactly the elements at
      even positions and leaves exactly those at odd positions, in order. */
  lemma VisitEvensOdds<T>(s: seq<T>)
    requires NoDups(s)
    ensures Visit(s, 0) == (Evens(s), Odds(s))
  {
    assert [] + s == s;
    VisitEvensOddsFrom([], s);
    assert [] + Odds(s) == Odds(s);
  }

  // ---- {input_name: outputs[output_name] for output_name, input_name in wiring} ----

  /** `{name: lookup[key] for key, name in pairs}`, built left to right: a
      later pair for the same name overwrites an earlier one, and the first
      key the lookup lacks raises.  With a node's outputs as the lookup and a
      wiring as the pairs this binds outputs to inputs; with `load_node` as the
      lookup it loads passthrough inputs. */
  function BindFrom<K>(outputs: map<K, Id>, wiring: seq<(K, Name)>, acc: map<Name, Id>): Result<map<Name, Id>, K>
  {
    if wiring == [] then Success(acc)
    else if wiring[0].0 !in outputs then Failure(wiring[0].0)
    else BindFrom(outputs, wiring[1..], acc[wiring[0].1 := outputs[wiring[0].0]])
  }

  function Bind<K>(outputs: map<K, Id>, wiring: seq<(K, Name)>): Result<map<Name, Id>, K> {
    BindFrom(outputs, wiring, map[])
  }

  function InputNames<K>(wiring: seq<(K, Name)>): set<Name> {
    set k | 0 <= k < |wiring| :: wiring[k].1
  }

  /** Whether the pair at position j is the last one for its input name. */
  predicate LastFor<K>(wiring: seq<(K, Name)>, j: nat)
    requires j < |wiring|
  {
    forall j' :: j < j' < |wiring| ==> wiring[j'].1 != wiring[j].1
  }

  lemma {:induction false} BindFromSpec<K>(outputs: map<K, Id>, wiring: seq<(K, Name)>, acc: map<Name, Id>)
    ensures BindFrom(outputs, wiring, acc).Success?
            <==> forall k :: 0 <= k < |wiring| ==> wiring[k].0 in outputs
    ensures BindFrom(outputs, wiring, acc).Failure? ==>
            exists k :: 0 <= k < |wiring| && wiring[k].0 == BindFrom(outputs, wiring, acc).error
                        && wiring[k].0 !in outputs
    ensures BindFrom(outputs, wiring, acc).Success? ==>
            var m := BindFrom(outputs, wiring, acc).value;
            && m.Keys == acc.Keys + InputNames(wiring)
            && (forall n :: n in acc && n !in InputNames(wiring) ==> m[n] == acc[n])
            && (forall j :: 0 <= j < |wiring| && LastFor(wiring, j) ==>
                  m[wiring[j].1] == outputs[wiring[j].0])
  {
    if wiring != [] && wiring[0].0 in outputs {
      var acc' := acc[wiring[0].1 := outputs[wiring[0].0]];
      BindFromSpec(outputs, wiring[1..], acc');
      if BindFrom(outputs, wiring, acc).Success? {
        var m := BindFrom(outputs, wiring, acc).value;
        assert InputNames(wiring) == {wiring[0].1} + InputNames(wiring[1..]) by {
          forall n | n in InputNames(wiring) ensures n in {wiring[0].1} + InputNames(wiring[1..]) {
            var k :| 0 <= k < |wiring| && wiring[k].1 == n;
            if k > 0 { assert wiring[1..][k - 1].1 == n; }
          }
        }
        forall j | 0 <= j < |wiring| && LastFor(wiring, j)
          ensures m[wiring[j].1] == outputs[wiring[j].0]
        {
          if j > 0 {
            assert LastFor(wiring[1..], j - 1);
          } else {
            forall k | 0 <= k < |wiring[1..]|
              ensures wiring[1..][k].1 != wiring[0].1
            {
              assert wiring[1..][k] == wiring[k + 1];
            }
            assert wiring[0].1 !in InputNames(wiring[1..]);
          }
        }
      }
    } else if wiring != [] {
      assert wiring[0].0 !in outputs;
    }
  }

  /** The bound names: every name of the pairs, each from the key of the last
      pair for it; it fails exactly when a key is missing. */
  lemma BindSpec<K>(outputs: map<K, Id>, wiring: seq<(K, Name)>)
    ensures Bind(outputs, wiring).Success? <==> forall k :: 0 <= k < |wiring| ==> wiring[k].0 in outputs
    ensures Bind(outputs, wiring).Success? ==>
            var m := Bind(outputs, wiring).value;
            && m.Keys == InputNames(wiring)
            && forall j :: 0 <= j < |wiring| && LastFor(wiring, j) ==> m[wiring[j].1] == outputs[wiring[j].0]
  {
    BindFromSpec(outputs, wiring, map[]);
  }

  /** `orm.load_node(uuid=...)` as a lookup: every node the database has. */
  function Loadable(handles: Handles): (m: map<Id, Id>)
    ensures m.Keys == handles.Keys && forall id :: id in m ==> m[id] == id
  {
    map id | id in handles :: id
  }

  /** `{k: load_node(uuid=v) for k, v in items}` has its pairs the other way round. */
  function Swap(items: seq<(Name, Id)>): (r: seq<(Id, Name)>)
    ensures |r| == |items| && forall k :: 0 <= k < |items| ==> r[k] == (items[k].1, items[k].0)
  {
    if items == [] then [] else [(items[0].1, items[0].0)] + Swap(items[1..])
  }

  /** `inputs | {k: orm.load_node(uuid=v) for k, v in passthrough.items()}`:
      the passthrough inputs loaded by uuid and merged over the given inputs.
      Loading a uuid the database lacks raises. */
  function MergePassthrough(handles: Handles, inputs: map<Name, Id>, items: seq<(Name, Id)>): Result<map<Name, Id>, Failure> {
    match Bind(Loadable(handles), Swap(items))
    case Failure(id) => Failure(NotFound(id))
    case Success(loaded) => Success(inputs + loaded)
  }

  /** Passthrough inputs win on a shared name, the other inputs are kept as
      they were, and the merge fails exactly when a passthrough uuid is
      unknown. */
  lemma MergePassthroughSpec(handles: Handles, inputs: map<Name, Id>, items: seq<(Name, Id)>)
    ensures MergePassthrough(handles, inputs, items).Success? <==>
            forall k :: 0 <= k < |items| ==> items[k].1 in handles
    ensures MergePassthrough(handles, inputs, items).Success? ==>
      var m := MergePassthrough(handles, inputs, items).value;
      && m.Keys == inputs.Keys + (set k | 0 <= k < |items| :: items[k].0)
      && (forall j :: 0 <= j < |items| && (forall j' :: j < j' < |items| ==> items[j'].0 != items[j].0) ==>
            m[items[j].0] == items[j].1)
      && (forall n :: n in inputs && (forall k :: 0 <= k < |items| ==> items[k].0 != n) ==>
            m[n] == inputs[n])
  {
    var sw := Swap(items);
    BindSpec(Loadable(handles), sw);
    assert forall k :: 0 <= k < |items| ==> sw[k] == (items[k].1, items[k].0);
    assert InputNames(sw) == (set k | 0 <= k < |items| :: items[k].0) by {
      forall n | n in (set k | 0 <= k < |items| :: items[k].0) ensures n in InputNames(sw) {
        var k :| 0 <= k < |items| && items[k].0 == n;
        assert sw[k].1 == n;
      }
    }
    forall j | 0 <= j < |items| && (forall j' :: j < j' < |items| ==> items[j'].0 != items[j].0)
      ensures LastFor(sw, j)
    {
      forall j' | j < j' < |sw| ensures sw[j'].1 != sw[j].1 {
        assert sw[j'].1 == items[j'].0;
      }
    }
  }

  /** One submitted process: its uuid, its entry point and its inputs. */
  datatype Submission = Submission(id: Id, entryPoint: string, inputs: map<Name, Id>)

  // ---- chain depth: the termination measure of a resolver loop ----

  /** The two scheduler workchain classes; each follows only runs of its own
      class (`process_class is self.__class__`). */
  datatype SchedulerClass = WaitForDependenciesClass | DependenciesClass

  predicate IsRunOf(k: Kind, cls: SchedulerClass) {
    match cls
    case WaitForDependenciesClass => k.WaitForDependenciesRun?
    case DependenciesClass => k.DependenciesRun?
  }

  /** A depth for the nodes: a scheduler run of the class is deeper than the
      dependent it hands over.  Chains of schedulers are then finite, which is
      what makes a resolver loop stop. */
  predicate Ranked(handles: Handles, rank: map<Id, nat>, cls: SchedulerClass) {
    forall id :: id in handles && IsRunOf(handles[id].kind, cls) ==>
      && id in rank
      && handles[id].kind.dependentId in rank
      && rank[handles[id].kind.dependentId] < rank[id]
  }

  function Pow2(k: nat): (p: nat)
    ensures p >= 1
  {
    if k == 0 then 1 else 2 * Pow2(k - 1)
  }

  lemma {:induction false} Pow2Grows(a: nat, b: nat)
    requires a < b
    ensures 2 * Pow2(a) <= Pow2(b)
  {
    if a + 1 < b {
      Pow2Grows(a, b - 1);
    }
  }

  /** Each id weighs 2^depth, depth being how many scheduler hops separate it
      from a plain job; a sequence weighs the sum of its ids. */
  function Weigh(rank: map<Id, nat>, ids: seq<Id>): nat
    requires forall id :: id in ids ==> id in rank
  {
    if ids == [] then 0 else Pow2(rank[ids[0]]) + Weigh(rank, ids[1..])
  }

  lemma {:induction false} WeighAppend(rank: map<Id, nat>, a: seq<Id>, b: seq<Id>)
    requires forall id :: id in a + b ==> id in rank
    ensures Weigh(rank, a + b) == Weigh(rank, a) + Weigh(rank, b)
  {
    if a != [] {
      assert (a + b)[1..] == a[1..] + b;
      WeighAppend(rank, a[1..], b);
    } else {
      assert a + b == b;
    }
  }

  lemma {:induction false} RemoveFirstIn<T>(s: seq<T>, x: T)
    ensures forall y :: y in RemoveFirst(s, x) ==> y in s
  {
    RemoveFirstMultiset(s, x);
    forall y | y in RemoveFirst(s, x) ensures y in s {
      assert y in multiset(RemoveFirst(s, x));
    }
  }

  lemma {:induction false} WeighRemoveFirst(rank: map<Id, nat>, s: seq<Id>, x: Id)
    requires x in s && forall id :: id in s ==> id in rank
    ensures forall id :: id in RemoveFirst(s, x) ==> id in rank
    ensures Weigh(rank, RemoveFirst(s, x)) + Pow2(rank[x]) == Weigh(rank, s)
  {
    RemoveFirstIn(s, x);
    if s[0] != x {
      RemoveFirstIn(s[1..], x);
      WeighRemoveFirst(rank, s[1..], x);
    }
  }

  /** The seen and the left elements of a pass are elements of the list. */
  lemma VisitIn<T>(s: seq<T>, i: nat)
    ensures forall x :: x in Visit(s, i).0 ==> x in s
    ensures forall x :: x in Visit(s, i).1 ==> x in s
  {
    VisitMultiset(s, i);
    forall x | x in Visit(s, i).0 ensures x in s {
      assert x in multiset(Visit(s, i).0);
      assert x in multiset(s);
    }
    forall x | x in Visit(s, i).1 ensures x in s {
      assert x in multiset(Visit(s, i).1);
      assert x in multiset(s);
    }
  }

  /** A pass moves weight around without creating or losing any. */
  lemma {:induction false} VisitWeigh(rank: map<Id, nat>, s: seq<Id>, i: nat)
    requires forall id :: id in s ==> id in rank
    ensures forall id :: id in Visit(s, i).0 ==> id in rank
    ensures forall id :: id in Visit(s, i).1 ==> id in rank
    ensures Weigh(rank, Visit(s, i).0) + Weigh(rank, Visit(s, i).1) == Weigh(rank, s)
    decreases |s| - i
  {
    VisitIn(s, i);
    if i < |s| {
      WeighRemoveFirst(rank, s, s[i]);
      VisitWeigh(rank, RemoveFirst(s, s[i]), i + 1);
    }
  }
}
