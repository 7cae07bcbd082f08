/** `MiddlewareManager`: validating, ordering and selecting middleware
    (src/server/libs/middlewareManager.ts). */
module MiddlewareManager {
  import opened OrderedMap

  /** `priority` as found in the definition: absent, an integer, or anything else. */
  datatype Priority = Unset | Whole(n: int) | Other

  /** A definition as exported by the middleware file; `id` tells handlers apart. */
  datatype Raw =
    | NotAnObject
    | Definition(phase: string, step: string, arity: Option<nat>, priority: Priority, enabled: Option<bool>, id: nat)

  const MAX_SAFE_INTEGER := 9007199254740991
  const PHASES := ["before", "after"]
  const STEPS := ["parsing", "signatureVerification", "trustVerification", "onArtifact", "onError"]

  /** `validateMiddlewareDefinition` does not throw. No arity means the handler is no function. */
  predicate Valid(mw: Raw) {
    && mw.Definition?
    && mw.phase in PHASES && mw.step in STEPS
    && mw.arity.Some? && mw.arity.value >= 3
    && (mw.priority.Unset? || (mw.priority.Whole? && mw.priority.n >= 0))
  }

  predicate Loaded(mw: Raw) {
    Valid(mw) && mw.enabled != Some(false)
  }

  predicate AtStage(mw: Raw, phase: string, step: string) {
    mw.Definition? && mw.phase == phase && mw.step == step
  }

  function Rank(mw: Raw): int {
    if mw.Definition? && mw.priority.Whole? then mw.priority.n else MAX_SAFE_INTEGER
  }

  function Filter<T>(xs: seq<T>, p: T -> bool): (r: seq<T>)
    ensures forall x | x in r :: p(x) && x in xs
  {
    if xs == [] then [] else if p(xs[0]) then [xs[0]] + Filter(xs[1..], p) else Filter(xs[1..], p)
  }

  predicate Ordered(xs: seq<Raw>) {
    forall i, j | 0 <= i < j < |xs| :: Rank(xs[i]) <= Rank(xs[j])
  }

  function WithRank(xs: seq<Raw>, rank: int): seq<Raw> {
    if xs == [] then []
    else if Rank(xs[0]) == rank then [xs[0]] + WithRank(xs[1..], rank)
    else WithRank(xs[1..], rank)
  }

  /** What a stable sort promises, said without an algorithm: ordered, and each priority class in
      its original order. Classes determine the elements, so nothing is lost or duplicated. */
  ghost predicate StablySorted(xs: seq<Raw>, sorted: seq<Raw>) {
    Ordered(sorted) && forall rank :: WithRank(sorted, rank) == WithRank(xs, rank)
  }

  /** Insertion behind everything of a lower or equal priority. */
  function Insert(sorted: seq<Raw>, mw: Raw): (r: seq<Raw>)
    ensures multiset(r) == multiset(sorted) + multiset{mw}
  {
    if sorted == [] then [mw]
    else if Rank(sorted[0]) <= Rank(mw) then
      assert sorted == [sorted[0]] + sorted[1..];
      [sorted[0]] + Insert(sorted[1..], mw)
    else [mw] + sorted
  }

  /** `Array.prototype.sort` with the priority comparator, which is stable. */
  function Sort(xs: seq<Raw>): (r: seq<Raw>)
    ensures multiset(r) == multiset(xs)
  {
    if xs == [] then []
    else
      assert xs == xs[..|xs| - 1] + [xs[|xs| - 1]];
      Insert(Sort(xs[..|xs| - 1]), xs[|xs| - 1])
  }

  // ---------- the sort is the stable sort ----------

  lemma {:induction false} InsertOrdered(sorted: seq<Raw>, mw: Raw)
    requires Ordered(sorted)
    ensures Ordered(Insert(sorted, mw))
  {
    if sorted != [] && Rank(sorted[0]) <= Rank(mw) {
      var rest := Insert(sorted[1..], mw);
      assert Ordered(sorted[1..]);
      InsertOrdered(sorted[1..], mw);
      forall x | x in rest
        ensures Rank(sorted[0]) <= Rank(x)
      {
        assert x in multiset(rest);
        assert x in multiset(sorted[1..]) + multiset{mw};
        if x != mw {
          assert x in sorted[1..];
        }
      }
    }
  }

  lemma {:induction false} FilterAppend<T>(xs: seq<T>, ys: seq<T>, p: T -> bool)
    ensures Filter(xs + ys, p) == Filter(xs, p) + Filter(ys, p)
  {
    if xs == [] {
      assert xs + ys == ys;
    } else {
      assert (xs + ys)[1..] == xs[1..] + ys;
      FilterAppend(xs[1..], ys, p);
    }
  }

  lemma {:induction false} ClassAppend(xs: seq<Raw>, mw: Raw, rank: int)
    ensures WithRank(xs + [mw], rank) == WithRank(xs, rank) + if Rank(mw) == rank then [mw] else []
  {
    if xs == [] {
      assert xs + [mw] == [mw];
    } else {
      assert (xs + [mw])[1..] == xs[1..] + [mw];
      ClassAppend(xs[1..], mw, rank);
    }
  }

  lemma {:induction false} ClassEmpty(xs: seq<Raw>, rank: int)
    requires forall x | x in xs :: Rank(x) > rank
    ensures WithRank(xs, rank) == []
  {
    if xs != [] {
      assert xs[0] in xs;
      ClassEmpty(xs[1..], rank);
    }
  }

  lemma ClassOfCons(x: Raw, xs: seq<Raw>, rank: int)
    ensures WithRank([x] + xs, rank) == (if Rank(x) == rank then [x] else []) + WithRank(xs, rank)
  {
    assert ([x] + xs)[1..] == xs;
  }

  lemma ClassUnderCons(x: Raw, xs: seq<Raw>, ys: seq<Raw>, tail: seq<Raw>, rank: int)
    requires WithRank(ys, rank) == WithRank(xs, rank) + tail
    ensures WithRank([x] + ys, rank) == WithRank([x] + xs, rank) + tail
  {
    ClassOfCons(x, xs, rank);
    ClassOfCons(x, ys, rank);
    if Rank(x) == rank {
      Associative([x], WithRank(xs, rank), tail);
    } else {
      assert [] + WithRank(xs, rank) == WithRank(xs, rank) && [] + WithRank(ys, rank) == WithRank(ys, rank);
    }
  }

  lemma ClassInFront(sorted: seq<Raw>, mw: Raw, rank: int)
    requires Ordered(sorted) && sorted != [] && Rank(mw) < Rank(sorted[0])
    ensures WithRank([mw] + sorted, rank) == WithRank(sorted, rank) + if Rank(mw) == rank then [mw] else []
  {
    ClassOfCons(mw, sorted, rank);
    if Rank(mw) == rank {
      forall x | x in sorted
        ensures Rank(x) > rank
      {
        var i :| 0 <= i < |sorted| && sorted[i] == x;
      }
      ClassEmpty(sorted, rank);
    }
  }

  /** Inserting puts an element at the end of its own class and leaves the others alone. */
  lemma {:induction false} InsertClass(sorted: seq<Raw>, mw: Raw, rank: int)
    requires Ordered(sorted)
    ensures WithRank(Insert(sorted, mw), rank) == WithRank(sorted, rank) + if Rank(mw) == rank then [mw] else []
  {
    if sorted != [] {
      var first, rest := sorted[0], sorted[1..];
      assert sorted == [first] + rest;
      if Rank(first) <= Rank(mw) {
        InsertClass(rest, mw, rank);
        ClassUnderCons(first, rest, Insert(rest, mw), if Rank(mw) == rank then [mw] else [], rank);
      } else {
        ClassInFront(sorted, mw, rank);
      }
    } else {
      assert [mw][1..] == [];
    }
  }

  lemma {:induction false} SortIsStable(xs: seq<Raw>)
    ensures StablySorted(xs, Sort(xs))
  {
    if xs != [] {
      var front, last := xs[..|xs| - 1], xs[|xs| - 1];
      SortIsStable(front);
      InsertOrdered(Sort(front), last);
      assert xs == front + [last];
      forall rank
        ensures WithRank(Sort(xs), rank) == WithRank(xs, rank)
      {
        InsertClass(Sort(front), last, rank);
        ClassAppend(front, last, rank);
        assert WithRank(Sort(front), rank) == WithRank(front, rank);
      }
    }
  }

  lemma {:induction false} ClassMembers(xs: seq<Raw>, rank: int)
    ensures forall x | x in WithRank(xs, rank) :: x in xs && Rank(x) == rank
  {
    if xs != [] {
      ClassMembers(xs[1..], rank);
    }
  }

  lemma ClassOfFirst(a: seq<Raw>)
    requires a != []
    ensures WithRank(a, Rank(a[0])) != [] && WithRank(a, Rank(a[0]))[0] == a[0]
  {
  }

  /** Ordered sequences with the same classes start alike. */
  lemma SameFirst(a: seq<Raw>, b: seq<Raw>)
    requires a != [] && Ordered(a) && Ordered(b) && forall rank :: WithRank(a, rank) == WithRank(b, rank)
    ensures b != [] && a[0] == b[0]
  {
    var rank := Rank(a[0]);
    ClassOfFirst(a);
    assert WithRank(a, rank) == WithRank(b, rank);
    ClassMembers(b, rank);
    assert WithRank(b, rank)[0] in b;
    var other := Rank(b[0]);
    ClassOfFirst(b);
    assert WithRank(a, other) == WithRank(b, other);
    ClassMembers(a, other);
    assert WithRank(a, other)[0] in a;
  }

  /** Two ordered sequences with the same classes are the same. */
  lemma {:induction false} StableSortUnique(a: seq<Raw>, b: seq<Raw>)
    requires Ordered(a) && Ordered(b) && forall rank :: WithRank(a, rank) == WithRank(b, rank)
    ensures a == b
  {
    if a == [] {
      if b != [] {
        SameFirst(b, a);
      }
    } else {
      SameFirst(a, b);
      forall r
        ensures WithRank(a[1..], r) == WithRank(b[1..], r)
      {
        assert WithRank(a, r) == WithRank(b, r);
        if Rank(a[0]) == r {
          assert WithRank(a[1..], r) == WithRank(a, r)[1..];
          assert WithRank(b[1..], r) == WithRank(b, r)[1..];
        }
      }
      assert Ordered(a[1..]) && Ordered(b[1..]);
      StableSortUnique(a[1..], b[1..]);
      assert a == [a[0]] + a[1..] && b == [b[0]] + b[1..];
    }
  }

  lemma {:induction false} FilterOrdered(xs: seq<Raw>, p: Raw -> bool)
    requires Ordered(xs)
    ensures Ordered(Filter(xs, p))
  {
    if xs != [] {
      assert Ordered(xs[1..]);
      FilterOrdered(xs[1..], p);
      forall x | x in Filter(xs[1..], p)
        ensures Rank(xs[0]) <= Rank(x)
      {
        assert x in xs[1..];
      }
    }
  }

  lemma {:induction false} FilterCommutesWithClass(xs: seq<Raw>, p: Raw -> bool, rank: int)
    ensures WithRank(Filter(xs, p), rank) == Filter(WithRank(xs, rank), p)
  {
    if xs != [] {
      FilterCommutesWithClass(xs[1..], p, rank);
      if p(xs[0]) {
        assert ([xs[0]] + Filter(xs[1..], p))[1..] == Filter(xs[1..], p);
      }
      if Rank(xs[0]) == rank {
        assert ([xs[0]] + WithRank(xs[1..], rank))[1..] == WithRank(xs[1..], rank);
      }
    }
  }

  /** Selecting commutes with sorting. */
  lemma FilterOfSort(xs: seq<Raw>, p: Raw -> bool)
    ensures Filter(Sort(xs), p) == Sort(Filter(xs, p))
  {
    SortIsStable(xs);
    SortIsStable(Filter(xs, p));
    FilterOrdered(Sort(xs), p);
    forall rank
      ensures WithRank(Filter(Sort(xs), p), rank) == WithRank(Sort(Filter(xs, p)), rank)
    {
      FilterCommutesWithClass(Sort(xs), p, rank);
      FilterCommutesWithClass(xs, p, rank);
      assert WithRank(Sort(xs), rank) == WithRank(xs, rank);
      assert WithRank(Sort(Filter(xs, p)), rank) == WithRank(Filter(xs, p), rank);
    }
    StableSortUnique(Filter(Sort(xs), p), Sort(Filter(xs, p)));
  }

  lemma {:induction false} FilterTwice<T(!new)>(xs: seq<T>, p: T -> bool, q: T -> bool, both: T -> bool)
    requires forall x :: both(x) <==> p(x) && q(x)
    ensures Filter(Filter(xs, p), q) == Filter(xs, both)
  {
    if xs != [] {
      FilterTwice(xs[1..], p, q, both);
      assert both(xs[0]) <==> p(xs[0]) && q(xs[0]);
      if p(xs[0]) {
        assert ([xs[0]] + Filter(xs[1..], p))[1..] == Filter(xs[1..], p);
      }
    }
  }

  function StageOf(phase: string, step: string): Raw -> bool {
    mw => AtStage(mw, phase, step)
  }

  function LoadedStage(phase: string, step: string): Raw -> bool {
    mw => Loaded(mw) && AtStage(mw, phase, step)
  }

  lemma SelectionIsStableSort(definitions: seq<Raw>, p: Raw -> bool, q: Raw -> bool, both: Raw -> bool)
    requires forall mw :: both(mw) <==> p(mw) && q(mw)
    ensures Filter(Sort(Filter(definitions, p)), q) == Sort(Filter(definitions, both))
    ensures StablySorted(Filter(definitions, both), Filter(Sort(Filter(definitions, p)), q))
  {
    FilterOfSort(Filter(definitions, p), q);
    FilterTwice(definitions, p, q, both);
    SortIsStable(Filter(definitions, both));
  }

  /** The stage list is the stable priority sort of exactly the valid, enabled definitions of that
      stage: nothing lost, nothing twice, nothing out of order. */
  lemma StageListIsStableSort(definitions: seq<Raw>, phase: string, step: string)
    ensures var stage := Filter(Sort(Filter(definitions, Loaded)), StageOf(phase, step));
            && StablySorted(Filter(definitions, LoadedStage(phase, step)), stage)
            && multiset(stage) == multiset(Filter(definitions, LoadedStage(phase, step)))
  {
    SelectionIsStableSort(definitions, Loaded, StageOf(phase, step), LoadedStage(phase, step));
  }

  /** What a definition has to be to run at a stage. */
  predicate Offered(mw: Raw, phase: string, step: string) {
    && mw.Definition? && mw.phase == phase && mw.step == step
    && phase in ["before", "after"]
    && step in ["parsing", "signatureVerification", "trustVerification", "onArtifact", "onError"]
    && mw.arity.Some? && mw.arity.value >= 3
    && (mw.priority == Unset || (mw.priority.Whole? && mw.priority.n >= 0))
    && mw.enabled != Some(false)
  }

  /** A lower number runs first, and a definition without one after every number below 2^53 - 1. */
  predicate RunsFirst(a: Raw, b: Raw) {
    a.Definition? && b.Definition? && a.priority.Whole?
    && (b.priority.Whole? ==> a.priority.n < b.priority.n) && (b.priority.Unset? ==> a.priority.n < 9007199254740991)
    && !b.priority.Other?
  }

  function SamePriority(p: Priority, phase: string, step: string): Raw -> bool {
    mw => Offered(mw, phase, step) && mw.priority == p
  }

  ghost predicate Arranged(definitions: seq<Raw>, stage: seq<Raw>, phase: string, step: string) {
    && (forall mw :: mw in stage <==> mw in definitions && Offered(mw, phase, step))
    && (forall p :: Filter(stage, SamePriority(p, phase, step)) == Filter(definitions, SamePriority(p, phase, step)))
    && forall i, j | 0 <= i < |stage| && 0 <= j < |stage| && RunsFirst(stage[i], stage[j]) :: i < j
  }

  lemma {:induction false} FilterKeeps<T>(xs: seq<T>, p: T -> bool)
    ensures forall x | x in xs && p(x) :: x in Filter(xs, p)
  {
    if xs != [] {
      FilterKeeps(xs[1..], p);
    }
  }

  lemma {:induction false} FilterOfClass(xs: seq<Raw>, p: Raw -> bool, rank: int)
    requires forall mw | p(mw) :: Rank(mw) == rank
    ensures Filter(WithRank(xs, rank), p) == Filter(xs, p)
  {
    if xs != [] {
      FilterOfClass(xs[1..], p, rank);
      if Rank(xs[0]) == rank {
        assert ([xs[0]] + WithRank(xs[1..], rank))[1..] == WithRank(xs[1..], rank);
      }
    }
  }

  lemma PriorityKeepsOrder(definitions: seq<Raw>, stage: seq<Raw>, p: Priority, phase: string, step: string)
    requires StablySorted(Filter(definitions, LoadedStage(phase, step)), stage)
    ensures Filter(stage, SamePriority(p, phase, step)) == Filter(definitions, SamePriority(p, phase, step))
  {
    var all, same := Filter(definitions, LoadedStage(phase, step)), SamePriority(p, phase, step);
    var rank := if p.Whole? then p.n else MAX_SAFE_INTEGER;
    FilterOfClass(stage, same, rank);
    FilterOfClass(all, same, rank);
    assert WithRank(stage, rank) == WithRank(all, rank);
    FilterTwice(definitions, LoadedStage(phase, step), same, same);
  }

  lemma StageMembers(definitions: seq<Raw>, stage: seq<Raw>, phase: string, step: string, mw: Raw)
    requires multiset(stage) == multiset(Filter(definitions, LoadedStage(phase, step)))
    ensures mw in stage <==> mw in definitions && Offered(mw, phase, step)
  {
    var loaded := LoadedStage(phase, step);
    FilterKeeps(definitions, loaded);
    assert mw in stage <==> mw in multiset(stage);
    assert mw in Filter(definitions, loaded) <==> mw in multiset(Filter(definitions, loaded));
    assert loaded(mw) <==> Offered(mw, phase, step);
  }

  lemma StageOrder(stage: seq<Raw>, i: nat, j: nat)
    requires Ordered(stage) && i < |stage| && j < |stage| && RunsFirst(stage[i], stage[j])
    ensures i < j
  {
    assert Rank(stage[i]) < Rank(stage[j]);
  }

  /** Exactly the definitions that satisfy every condition are at the stage, lower numbers first
      and equal ones in the order they were defined. */
  lemma StageIsArranged(definitions: seq<Raw>, phase: string, step: string)
    ensures Arranged(definitions, Filter(Sort(Filter(definitions, Loaded)), StageOf(phase, step)), phase, step)
  {
    var stage := Filter(Sort(Filter(definitions, Loaded)), StageOf(phase, step));
    StageListIsStableSort(definitions, phase, step);
    forall mw {
      StageMembers(definitions, stage, phase, step, mw);
    }
    forall p {
      PriorityKeepsOrder(definitions, stage, p, phase, step);
    }
    forall i: nat, j: nat | i < |stage| && j < |stage| && RunsFirst(stage[i], stage[j]) {
      StageOrder(stage, i, j);
    }
  }

  // ---------- the class ----------

  class Manager {
    var middleware: seq<Raw>

    constructor ()
      ensures middleware == []
    {
      middleware := [];
    }

    /** Invalid definitions are skipped, disabled ones left out, the rest sorted by priority. */
    static method ValidateAndSort(definitions: seq<Raw>) returns (sorted: seq<Raw>)
      ensures StablySorted(Filter(definitions, Loaded), sorted)
      ensures sorted == Sort(Filter(definitions, Loaded))
    {
      var valid: seq<Raw> := [];
      for i := 0 to |definitions|
        invariant valid == Filter(definitions[..i], Loaded)
      {
        if Valid(definitions[i]) {
          if definitions[i].enabled != Some(false) {
            valid := valid + [definitions[i]];
          }
        }
        assert definitions[..i + 1] == definitions[..i] + [definitions[i]];
        FilterAppend(definitions[..i], [definitions[i]], Loaded);
      }
      assert definitions[..|definitions|] == definitions;
      sorted := Sort(valid);
      SortIsStable(valid);
    }

    method LoadMiddleware(definitions: seq<Raw>)
      modifies this
      ensures middleware == Sort(Filter(definitions, Loaded))
      ensures StablySorted(Filter(definitions, Loaded), middleware)
      ensures forall phase, step :: Arranged(definitions, GetMiddleware(phase, step), phase, step)
    {
      middleware := ValidateAndSort(definitions);
      forall phase, step {
        StageIsArranged(definitions, phase, step);
      }
    }

    function GetMiddleware(phase: string, step: string): (stage: seq<Raw>)
      reads this
      ensures forall mw | mw in stage :: mw in middleware && AtStage(mw, phase, step)
    {
      Filter(middleware, StageOf(phase, step))
    }

    /** What a caller sees after loading. */
    lemma StageAfterLoading(definitions: seq<Raw>, phase: string, step: string)
      requires middleware == Sort(Filter(definitions, Loaded))
      ensures StablySorted(Filter(definitions, LoadedStage(phase, step)), GetMiddleware(phase, step))
      ensures multiset(GetMiddleware(phase, step)) == multiset(Filter(definitions, LoadedStage(phase, step)))
    {
      StageListIsStableSort(definitions, phase, step);
    }
  }
}
