/**
One planning pass over a board snapshot: order the ready queue P0-first, take
the decision provider's choice when it names a ready item, else the first.
 */
module Selection {
  import opened Wrappers
  import opened TaskId

  datatype ReadyItem = ReadyItem(repo: string, number: u64, title: string)

  datatype ItemFacts = ItemFacts(repo: string, number: u64, priority: Option<string>)

  datatype WarningKind = NotOpen | Malformed | Truncated

  datatype BoardSnapshot = BoardSnapshot(
    open: seq<ItemFacts>, ready: seq<ReadyItem>, blocked: seq<ReadyItem>, warnings: seq<WarningKind>)

  datatype NoOpReason = EmptyQueue | AllBlocked | EpicExhausted | KickoffGate

  datatype Decision = Selected(item: ReadyItem, task: string) | NoOp(reason: NoOpReason)

  /** What the configured decision provider answered, if it was consulted. */
  datatype Consultation = NotConsulted | ProviderError | Proposed(task: string)

  function ItemTask(item: ReadyItem): string { TaskIdFor(item.repo, item.number) }

  // ------------------------------------------------------------- sorting order

  predicate IsP0(priority: Option<string>)
  {
    priority.Some? && (priority.value == "p0" || priority.value == "P0")
  }

  /** The first facts record for the item, as `find` takes it. */
  function FactsFor(open: seq<ItemFacts>, item: ReadyItem): Option<ItemFacts>
  {
    if open == [] then None
    else if open[0].repo == item.repo && open[0].number == item.number then Some(open[0])
    else FactsFor(open[1..], item)
  }

  function Rank(open: seq<ItemFacts>, item: ReadyItem): nat
  {
    var facts := FactsFor(open, item);
    if facts.Some? && IsP0(facts.value.priority) then 0 else 1
  }

  /** Lexicographic order on text, by code point. */
  predicate TextLeq(a: string, b: string)
  {
    a == [] || (b != [] && (a[0] < b[0] || (a[0] == b[0] && TextLeq(a[1..], b[1..]))))
  }

  /** `(not P0, repo, number)`, compared field by field. */
  predicate KeyLeq(open: seq<ItemFacts>, a: ReadyItem, b: ReadyItem)
  {
    var ra, rb := Rank(open, a), Rank(open, b);
    || ra < rb
    || (ra == rb && ((a.repo != b.repo && TextLeq(a.repo, b.repo)) || (a.repo == b.repo && a.number <= b.number)))
  }

  lemma {:induction false} TextTotal(a: string, b: string)
    ensures TextLeq(a, b) || TextLeq(b, a)
  {
    if a != [] && b != [] { TextTotal(a[1..], b[1..]); }
  }

  lemma {:induction false} TextAntisymmetric(a: string, b: string)
    requires TextLeq(a, b) && TextLeq(b, a)
    ensures a == b
  {
    if a != [] && b != [] {
      TextAntisymmetric(a[1..], b[1..]);
      assert a == [a[0]] + a[1..] && b == [b[0]] + b[1..];
    }
  }

  lemma {:induction false} TextTransitive(a: string, b: string, c: string)
    requires TextLeq(a, b) && TextLeq(b, c)
    ensures TextLeq(a, c)
  {
    if a != [] && a[0] == b[0] == c[0] { TextTransitive(a[1..], b[1..], c[1..]); }
  }

  lemma KeyTotal(open: seq<ItemFacts>, a: ReadyItem, b: ReadyItem)
    ensures KeyLeq(open, a, b) || KeyLeq(open, b, a)
  {
    TextTotal(a.repo, b.repo);
  }

  lemma KeyTransitive(open: seq<ItemFacts>, a: ReadyItem, b: ReadyItem, c: ReadyItem)
    requires KeyLeq(open, a, b) && KeyLeq(open, b, c)
    ensures KeyLeq(open, a, c)
  {
    if Rank(open, a) == Rank(open, b) == Rank(open, c) && a.repo != b.repo && b.repo != c.repo {
      TextTransitive(a.repo, b.repo, c.repo);
      if a.repo == c.repo { TextAntisymmetric(a.repo, b.repo); }
    }
  }

  // ------------------------------------------------------------- stable sorting

  /** Puts the item after every element whose key is not greater. */
  function Insert(open: seq<ItemFacts>, sorted: seq<ReadyItem>, item: ReadyItem): seq<ReadyItem>
  {
    if sorted == [] then [item]
    else
      var last := |sorted| - 1;
      if KeyLeq(open, sorted[last], item) then sorted + [item]
      else Insert(open, sorted[..last], item) + [sorted[last]]
  }

  function ComputeSelection(ready: seq<ReadyItem>, open: seq<ItemFacts>): seq<ReadyItem>
  {
    if ready == [] then []
    else Insert(open, ComputeSelection(ready[..|ready| - 1], open), ready[|ready| - 1])
  }

  predicate Sorted(open: seq<ItemFacts>, items: seq<ReadyItem>)
  {
    forall i, j :: 0 <= i < j < |items| ==> KeyLeq(open, items[i], items[j])
  }

  predicate SameKey(open: seq<ItemFacts>, a: ReadyItem, b: ReadyItem)
  {
    KeyLeq(open, a, b) && KeyLeq(open, b, a)
  }

  /** The elements that share a key, in their order. */
  function WithKey(open: seq<ItemFacts>, items: seq<ReadyItem>, key: ReadyItem): seq<ReadyItem>
  {
    if items == [] then []
    else
      var last := |items| - 1;
      WithKey(open, items[..last], key) + if SameKey(open, items[last], key) then [items[last]] else []
  }

  lemma {:induction false} InsertSorts(open: seq<ItemFacts>, sorted: seq<ReadyItem>, item: ReadyItem)
    requires Sorted(open, sorted)
    ensures Sorted(open, Insert(open, sorted, item))
    ensures multiset(Insert(open, sorted, item)) == multiset(sorted) + multiset{item}
  {
    if sorted == [] {
    } else {
      var last := |sorted| - 1;
      assert sorted == sorted[..last] + [sorted[last]];
      if KeyLeq(open, sorted[last], item) {
        forall i | 0 <= i < last ensures KeyLeq(open, sorted[i], item) {
          KeyTransitive(open, sorted[i], sorted[last], item);
        }
      } else {
        InsertSorts(open, sorted[..last], item);
        var rest := Insert(open, sorted[..last], item);
        KeyTotal(open, item, sorted[last]);
        forall i | 0 <= i < |rest| ensures KeyLeq(open, rest[i], sorted[last]) {
          assert rest[i] in multiset(rest);
          if rest[i] != item { assert rest[i] in sorted[..last]; }
        }
      }
    }
  }

  lemma {:induction false} WithKeyAppend(open: seq<ItemFacts>, items: seq<ReadyItem>, item: ReadyItem, key: ReadyItem)
    ensures WithKey(open, items + [item], key)
         == WithKey(open, items, key) + if SameKey(open, item, key) then [item] else []
  {
    assert (items + [item])[..|items|] == items;
  }

  lemma {:induction false} InsertIsStable(open: seq<ItemFacts>, sorted: seq<ReadyItem>, item: ReadyItem, key: ReadyItem)
    ensures WithKey(open, Insert(open, sorted, item), key)
         == WithKey(open, sorted, key) + if SameKey(open, item, key) then [item] else []
  {
    WithKeyAppend(open, sorted, item, key);
    if sorted == [] {
      assert [] + [item] == [item];
    } else {
      var last := |sorted| - 1;
      if !KeyLeq(open, sorted[last], item) {
        InsertIsStable(open, sorted[..last], item, key);
        WithKeyAppend(open, Insert(open, sorted[..last], item), sorted[last], key);
        if SameKey(open, item, key) && SameKey(open, sorted[last], key) {
          KeyTransitive(open, sorted[last], key, item);
        }
      }
    }
  }

  /**
  The selection order is a permutation of the ready queue, sorted P0-first and
  then by `(repo, number)`.
   */
  lemma {:induction false} SelectionIsSorted(ready: seq<ReadyItem>, open: seq<ItemFacts>)
    ensures Sorted(open, ComputeSelection(ready, open))
    ensures multiset(ComputeSelection(ready, open)) == multiset(ready)
  {
    if ready == [] {
      assert ComputeSelection(ready, open) == [];
    } else {
      SelectionIsSorted(ready[..|ready| - 1], open);
      SelectionStep(ready, open);
    }
  }

  lemma SelectionStep(ready: seq<ReadyItem>, open: seq<ItemFacts>)
    requires ready != []
    requires var earlier := ComputeSelection(ready[..|ready| - 1], open);
             Sorted(open, earlier) && multiset(earlier) == multiset(ready[..|ready| - 1])
    ensures Sorted(open, ComputeSelection(ready, open))
    ensures multiset(ComputeSelection(ready, open)) == multiset(ready)
  {
    var last := |ready| - 1;
    InsertSorts(open, ComputeSelection(ready[..last], open), ready[last]);
    assert ready == ready[..last] + [ready[last]];
  }

  /** Items with one key keep their queue order. */
  lemma {:induction false} SelectionIsStable(ready: seq<ReadyItem>, open: seq<ItemFacts>, key: ReadyItem)
    ensures WithKey(open, ComputeSelection(ready, open), key) == WithKey(open, ready, key)
  {
    if ready != [] {
      var last := |ready| - 1;
      SelectionIsStable(ready[..last], open, key);
      InsertIsStable(open, ComputeSelection(ready[..last], open), ready[last], key);
    }
  }

  /** The first facts record of the item says P0. */
  ghost predicate HasP0Facts(open: seq<ItemFacts>, item: ReadyItem)
  {
    exists k: nat :: k < |open| && IsFirstFacts(open, item, k) && open[k].priority.Some?
                     && open[k].priority.value in {"p0", "P0"}
  }

  predicate IsFactsOf(facts: ItemFacts, item: ReadyItem) { facts.repo == item.repo && facts.number == item.number }

  ghost predicate IsFirstFacts(open: seq<ItemFacts>, item: ReadyItem, k: nat)
  {
    k < |open| && IsFactsOf(open[k], item) && forall j :: 0 <= j < k ==> !IsFactsOf(open[j], item)
  }

  lemma {:induction false} FactsForIsFirst(open: seq<ItemFacts>, item: ReadyItem, k: nat)
    requires k <= |open| && (forall j :: 0 <= j < k ==> !IsFactsOf(open[j], item))
    requires k < |open| ==> IsFactsOf(open[k], item)
    ensures FactsFor(open, item) == if k < |open| then Some(open[k]) else None
  {
    if k > 0 { FactsForIsFirst(open[1..], item, k - 1); }
  }

  lemma RankMeans(open: seq<ItemFacts>, item: ReadyItem)
    ensures Rank(open, item) == if HasP0Facts(open, item) then 0 else 1
  {
    var k := 0;
    while k < |open| && !IsFactsOf(open[k], item)
      invariant k <= |open| && forall j :: 0 <= j < k ==> !IsFactsOf(open[j], item)
    {
      k := k + 1;
    }
    FactsForIsFirst(open, item, k);
    if HasP0Facts(open, item) {
      var m: nat :| m < |open| && IsFirstFacts(open, item, m) && open[m].priority.Some?
                    && open[m].priority.value in {"p0", "P0"};
      assert m == k;
    } else if k < |open| {
      assert IsFirstFacts(open, item, k);
    }
  }

  /** Text order: one text is a prefix of the other, or they differ first where `a` has the smaller character. */
  ghost predicate Precedes(a: string, b: string)
  {
    a <= b || exists k: nat :: k < |a| && k < |b| && a[..k] == b[..k] && a[k] < b[k]
  }

  lemma {:induction false} TextLeqMeans(a: string, b: string)
    ensures TextLeq(a, b) <==> Precedes(a, b)
  {
    if a != [] && b != [] {
      if a[0] == b[0] {
        TextLeqMeans(a[1..], b[1..]);
        PrecedesSplits(a, b);
      } else if a[0] < b[0] {
        assert a[..0] == b[..0];
      } else {
        GreaterFirst(a, b);
      }
    }
  }

  lemma GreaterFirst(a: string, b: string)
    requires a != [] && b != [] && a[0] > b[0]
    ensures !Precedes(a, b)
  {
    forall k: nat | 0 < k < |a| && k < |b| ensures a[..k] != b[..k] {
      assert a[..k][0] == a[0] && b[..k][0] == b[0];
    }
  }

  lemma PrecedesSplits(a: string, b: string)
    requires a != [] && b != [] && a[0] == b[0]
    ensures Precedes(a, b) <==> Precedes(a[1..], b[1..])
  {
    assert a == [a[0]] + a[1..] && b == [b[0]] + b[1..];
    if k: nat :| k < |a| && k < |b| && a[..k] == b[..k] && a[k] < b[k] {
      assert a[1..][..k - 1] == a[..k][1..] == b[..k][1..] == b[1..][..k - 1];
      assert a[1..][k - 1] < b[1..][k - 1];
    }
    if k: nat :| k < |a| - 1 && k < |b| - 1 && a[1..][..k] == b[1..][..k] && a[1..][k] < b[1..][k] {
      assert a[..k + 1] == [a[0]] + a[1..][..k] == b[..k + 1];
      assert a[k + 1] < b[k + 1];
    }
  }

  /**
  No item without P0 facts comes before one with them, and among items that
  agree on that the order is by repository, then by number.
   */
  lemma SelectionIsP0First(ready: seq<ReadyItem>, open: seq<ItemFacts>, i: nat, j: nat)
    requires i < j < |ComputeSelection(ready, open)|
    ensures var a, b := ComputeSelection(ready, open)[i], ComputeSelection(ready, open)[j];
            && (HasP0Facts(open, b) ==> HasP0Facts(open, a))
            && (HasP0Facts(open, a) == HasP0Facts(open, b) ==>
                  Precedes(a.repo, b.repo) && (a.repo == b.repo ==> a.number <= b.number))
  {
    var a, b := ComputeSelection(ready, open)[i], ComputeSelection(ready, open)[j];
    SelectionIsSorted(ready, open);
    RankMeans(open, a);
    RankMeans(open, b);
    assert KeyLeq(open, a, b);
    TextLeqMeans(a.repo, b.repo);
  }

  /** Walks back over the greater elements and puts the item behind the rest. */
  method InsertInPlace(open: seq<ItemFacts>, sorted: seq<ReadyItem>, item: ReadyItem) returns (result: seq<ReadyItem>)
    ensures result == Insert(open, sorted, item)
  {
    var at := |sorted|;
    assert sorted[..at] == sorted && sorted[at..] == [];
    while at > 0 && !KeyLeq(open, sorted[at - 1], item)
      invariant 0 <= at <= |sorted|
      invariant Insert(open, sorted, item) == Insert(open, sorted[..at], item) + sorted[at..]
    {
      InsertStepsBack(open, sorted, item, at);
      at := at - 1;
    }
    result := sorted[..at] + [item] + sorted[at..];
  }

  lemma InsertStepsBack(open: seq<ItemFacts>, sorted: seq<ReadyItem>, item: ReadyItem, at: nat)
    requires 0 < at <= |sorted| && !KeyLeq(open, sorted[at - 1], item)
    ensures Insert(open, sorted[..at], item) + sorted[at..] == Insert(open, sorted[..at - 1], item) + sorted[at - 1..]
  {
    assert sorted[..at][..at - 1] == sorted[..at - 1];
    assert sorted[at - 1..] == [sorted[at - 1]] + sorted[at..];
  }

  /** The ready queue copied and sorted element by element. */
  method SortSelection(ready: seq<ReadyItem>, open: seq<ItemFacts>) returns (ordered: seq<ReadyItem>)
    ensures ordered == ComputeSelection(ready, open)
    ensures Sorted(open, ordered) && multiset(ordered) == multiset(ready)
  {
    ordered := [];
    for n := 0 to |ready|
      invariant ordered == ComputeSelection(ready[..n], open)
    {
      ordered := InsertInPlace(open, ordered, ready[n]);
      assert ready[..n + 1][..n] == ready[..n];
    }
    assert ready[..|ready|] == ready;
    SelectionIsSorted(ready, open);
  }

  // --------------------------------------------------------------- the decision

  /** The first item whose task id is the proposed one. */
  function FindTask(items: seq<ReadyItem>, task: string): Option<ReadyItem>
  {
    if items == [] then None
    else if ItemTask(items[0]) == task then Some(items[0])
    else FindTask(items[1..], task)
  }

  function NoOpClassification(snapshot: BoardSnapshot): NoOpReason
  {
    if snapshot.open == [] then
      if snapshot.warnings != [] && forall i :: 0 <= i < |snapshot.warnings| ==> snapshot.warnings[i].NotOpen?
      then EpicExhausted else EmptyQueue
    else if snapshot.blocked == [] then EmptyQueue
    else AllBlocked
  }

  function CampaignDecision(snapshot: BoardSnapshot, consulted: Consultation): Decision
  {
    var ordered := ComputeSelection(snapshot.ready, snapshot.open);
    if ordered == [] then NoOp(NoOpClassification(snapshot))
    else
      var found := if consulted.Proposed? then FindTask(ordered, consulted.task) else None;
      var choice := if found.Some? then found.value else ordered[0];
      Selected(choice, ItemTask(choice))
  }

  /** There are warnings, and each is about an item that is not open. */
  ghost predicate IsExhausted(warnings: seq<WarningKind>)
  {
    warnings != [] && forall w :: w in warnings ==> w == NotOpen
  }

  lemma {:induction false} FindTaskSound(items: seq<ReadyItem>, task: string)
    ensures FindTask(items, task).Some? ==>
              FindTask(items, task).value in items && ItemTask(FindTask(items, task).value) == task
    ensures FindTask(items, task).None? ==> forall item :: item in items ==> ItemTask(item) != task
  {
    if items != [] { FindTaskSound(items[1..], task); }
  }

  /**
  Without a ready item the reason is that open work is blocked, that nothing is
  open and every warning is about a closed item, or else an empty queue.
   */
  lemma NoOpMeans(snapshot: BoardSnapshot, consulted: Consultation)
    requires snapshot.ready == []
    ensures CampaignDecision(snapshot, consulted).NoOp?
    ensures var reason := CampaignDecision(snapshot, consulted).reason;
            && (reason.AllBlocked? <==> snapshot.open != [] && snapshot.blocked != [])
            && (reason.EpicExhausted? <==> snapshot.open == [] && IsExhausted(snapshot.warnings))
            && (reason.EmptyQueue? <==> !reason.AllBlocked? && !reason.EpicExhausted?)
  {
    forall i | 0 <= i < |snapshot.warnings| ensures snapshot.warnings[i] in snapshot.warnings {}
  }

  /**
  A decision selects exactly when the ready queue is non-empty, always an item
  of that queue: the provider's proposal when some ready item carries that id,
  otherwise an item no ready item precedes. The kick-off reason never comes
  from here.
   */
  lemma DecisionIsEligible(snapshot: BoardSnapshot, consulted: Consultation)
    ensures var d := CampaignDecision(snapshot, consulted);
            && (d.Selected? <==> snapshot.ready != [])
            && (d.NoOp? ==> d.reason != KickoffGate)
            && (d.Selected? ==> d.item in snapshot.ready && d.task == ItemTask(d.item))
            && (d.Selected? && consulted.Proposed?
                && (exists item :: item in snapshot.ready && ItemTask(item) == consulted.task)
                ==> d.task == consulted.task)
            && (d.Selected?
                && !(consulted.Proposed? && exists item :: item in snapshot.ready && ItemTask(item) == consulted.task)
                ==> forall item :: item in snapshot.ready ==> item == d.item || KeyLeq(snapshot.open, d.item, item))
  {
    var ordered := ComputeSelection(snapshot.ready, snapshot.open);
    SelectionIsSorted(snapshot.ready, snapshot.open);
    assert |ordered| == |multiset(ordered)| == |multiset(snapshot.ready)| == |snapshot.ready|;
    SameMembers(ordered, snapshot.ready);
    if consulted.Proposed? { FindTaskSound(ordered, consulted.task); }
  }

  lemma SameMembers(a: seq<ReadyItem>, b: seq<ReadyItem>)
    requires multiset(a) == multiset(b)
    ensures forall item :: item in a <==> item in b
  {
    assert forall item :: item in a <==> item in multiset(a);
  }
}
