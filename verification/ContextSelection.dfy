/** The budgeted selection of compileFocusedContext: mandatory closure, optional roots, runtime snapshots. */
module ContextSelection {
  import opened Optional
  import opened ContextClosure

  datatype Reason = NotAuthorized | NotPublic | CrossTenant | Poisoned | Incompatible | Stale | BudgetExceeded

  /** A catalogued source; its serialized size depends on the selection reason it is printed with. */
  datatype Source = Source(
    dependsOn: seq<Id>, exclusion: Option<Reason>, contentBytes: nat,
    mandatoryBytes: nat, rootBytes: nat, dependencyBytes: nat)

  datatype Section = Section(id: Id, optionalRoot: bool, contentBytes: nat, jsonBytes: nat)

  datatype Snapshot = Snapshot(id: Id, exclusion: Option<Reason>, stateBytes: nat, jsonBytes: nat)

  datatype Usage = Usage(
    totalBytes: nat, authoredBytes: nat, runtimeBytes: nat, contractBytes: nat,
    optionalSources: nat, runtimeSnapshots: nat, toolContracts: nat)

  /** What does not depend on the selection: host policy, exact contracts and the JSON around them. */
  datatype Fixed = Fixed(baseBytes: nat, contractBytes: nat, toolContracts: nat)

  datatype Context = Context(sources: map<Id, Source>, fixed: Fixed, budget: Usage) {
    function Catalog(): Catalog {
      map id | id in sources :: sources[id].dependsOn
    }
  }

  predicate Within(budget: Usage, u: Usage) {
    && u.totalBytes <= budget.totalBytes
    && u.authoredBytes <= budget.authoredBytes
    && u.runtimeBytes <= budget.runtimeBytes
    && u.contractBytes <= budget.contractBytes
    && u.optionalSources <= budget.optionalSources
    && u.runtimeSnapshots <= budget.runtimeSnapshots
    && u.toolContracts <= budget.toolContracts
  }

  // ---------------------------------------------------------------- measuring

  datatype Measure = Measure(json: nat, content: nat, roots: nat, count: nat)

  function MeasureSections(list: seq<Section>): Measure {
    if list == [] then Measure(0, 0, 0, 0)
    else
      var m, s := MeasureSections(list[..|list| - 1]), list[|list| - 1];
      Measure(m.json + s.jsonBytes, m.content + s.contentBytes, m.roots + (if s.optionalRoot then 1 else 0),
              m.count + 1)
  }

  function MeasureSnapshots(list: seq<Snapshot>): Measure {
    if list == [] then Measure(0, 0, 0, 0)
    else
      var m, s := MeasureSnapshots(list[..|list| - 1]), list[|list| - 1];
      Measure(m.json + s.jsonBytes, m.content + s.stateBytes, 0, m.count + 1)
  }

  /** A JSON array's elements with the commas between them. */
  function ArrayBytes(m: Measure): nat {
    m.json + (if m.count == 0 then 0 else m.count - 1)
  }

  /** calculateContextBudgetUsage */
  function UsageOf(fixed: Fixed, sections: seq<Section>, snapshots: seq<Snapshot>): Usage {
    var a, r := MeasureSections(sections), MeasureSnapshots(snapshots);
    Usage(fixed.baseBytes + ArrayBytes(a) + ArrayBytes(r), a.content, r.content, fixed.contractBytes, a.roots, r.count,
          fixed.toolContracts)
  }

  lemma {:induction false} MeasureSplits(a: seq<Section>, b: seq<Section>)
    ensures var m, x, y := MeasureSections(a + b), MeasureSections(a), MeasureSections(b);
            m == Measure(x.json + y.json, x.content + y.content, x.roots + y.roots, x.count + y.count)
  {
    if b == [] {
      assert a + b == a;
    } else {
      assert (a + b)[..|a + b| - 1] == a + b[..|b| - 1];
      MeasureSplits(a, b[..|b| - 1]);
    }
  }

  /** More sections never measure less, so a selection within the budget was within it before. */
  lemma FewerStayWithin(budget: Usage, fixed: Fixed, a: seq<Section>, b: seq<Section>)
    requires Within(budget, UsageOf(fixed, a + b, []))
    ensures Within(budget, UsageOf(fixed, a, []))
  {
    MeasureSplits(a, b);
  }

  function InsertSection(list: seq<Section>, x: Section): (r: seq<Section>) {
    if list == [] || x.id < list[0].id then [x] + list else [list[0]] + InsertSection(list[1..], x)
  }

  function SortSections(list: seq<Section>): (r: seq<Section>) {
    if list == [] then [] else InsertSection(SortSections(list[..|list| - 1]), list[|list| - 1])
  }

  function InsertSnapshot(list: seq<Snapshot>, x: Snapshot): (r: seq<Snapshot>)
    ensures forall y :: y in r <==> y in list || y == x
  {
    if list == [] || x.id < list[0].id then [x] + list
    else
      assert forall y :: y in list <==> y == list[0] || y in list[1..];
      [list[0]] + InsertSnapshot(list[1..], x)
  }

  function SortSnapshots(list: seq<Snapshot>): (r: seq<Snapshot>)
    ensures forall y :: y in r <==> y in list
  {
    if list == [] then []
    else
      assert forall y :: y in list <==> y in list[..|list| - 1] || y == list[|list| - 1];
      InsertSnapshot(SortSnapshots(list[..|list| - 1]), list[|list| - 1])
  }

  lemma {:induction false} InsertAddsOne(list: seq<Section>, x: Section)
    ensures multiset(InsertSection(list, x)) == multiset(list) + multiset{x}
  {
    if list != [] && x.id >= list[0].id {
      InsertAddsOne(list[1..], x);
      assert list == [list[0]] + list[1..];
    }
  }

  lemma {:induction false} InsertMeasure(list: seq<Section>, x: Section)
    ensures MeasureSections(InsertSection(list, x)) == MeasureSections(list + [x])
  {
    if list == [] || x.id < list[0].id {
      MeasureSplits([x], list);
      MeasureSplits(list, [x]);
    } else {
      var rest := list[1..];
      InsertMeasure(rest, x);
      assert list == [list[0]] + rest;
      MeasureSplits([list[0]], InsertSection(rest, x));
      MeasureSplits([list[0]], rest);
      MeasureSplits(rest, [x]);
      MeasureSplits(list, [x]);
    }
  }

  /** Sorting the sections is a permutation and leaves every measured quantity unchanged. */
  lemma {:induction false} SortingKeepsUsage(fixed: Fixed, list: seq<Section>, snapshots: seq<Snapshot>)
    ensures MeasureSections(SortSections(list)) == MeasureSections(list)
    ensures UsageOf(fixed, SortSections(list), snapshots) == UsageOf(fixed, list, snapshots)
    ensures multiset(SortSections(list)) == multiset(list)
  {
    if list != [] {
      var init, x := list[..|list| - 1], list[|list| - 1];
      assert list == init + [x];
      SortingKeepsUsage(fixed, init, snapshots);
      InsertMeasure(SortSections(init), x);
      InsertAddsOne(SortSections(init), x);
      MeasureSplits(SortSections(init), [x]);
      MeasureSplits(init, [x]);
    }
  }

  ghost predicate SectionsOrdered(list: seq<Section>) {
    forall i, j | 0 <= i < j < |list| :: list[i].id <= list[j].id
  }

  ghost predicate SnapshotsOrdered(list: seq<Snapshot>) {
    forall i, j | 0 <= i < j < |list| :: list[i].id <= list[j].id
  }

  lemma {:induction false} InsertKeepsOrder(list: seq<Section>, x: Section)
    requires SectionsOrdered(list)
    ensures SectionsOrdered(InsertSection(list, x))
    ensures forall y :: y in InsertSection(list, x) <==> y in list || y == x
  {
    if list != [] && x.id >= list[0].id {
      InsertKeepsOrder(list[1..], x);
      assert forall y :: y in list <==> y == list[0] || y in list[1..];
      var r := InsertSection(list[1..], x);
      assert forall k | 0 <= k < |r| :: r[k] in list[1..] || r[k] == x;
    }
  }

  lemma {:induction false} SectionsSorted(list: seq<Section>)
    ensures SectionsOrdered(SortSections(list))
  {
    if list != [] {
      SectionsSorted(list[..|list| - 1]);
      InsertKeepsOrder(SortSections(list[..|list| - 1]), list[|list| - 1]);
    }
  }

  lemma {:induction false} InsertSnapshotKeepsOrder(list: seq<Snapshot>, x: Snapshot)
    requires SnapshotsOrdered(list)
    ensures SnapshotsOrdered(InsertSnapshot(list, x))
  {
    if list != [] && x.id >= list[0].id {
      InsertSnapshotKeepsOrder(list[1..], x);
      assert forall y :: y in list <==> y == list[0] || y in list[1..];
      var r := InsertSnapshot(list[1..], x);
      assert forall k | 0 <= k < |r| :: r[k] in list[1..] || r[k] == x;
    }
  }

  lemma {:induction false} InsertSnapshotAddsOne(list: seq<Snapshot>, x: Snapshot)
    ensures multiset(InsertSnapshot(list, x)) == multiset(list) + multiset{x}
  {
    if list != [] && x.id >= list[0].id {
      InsertSnapshotAddsOne(list[1..], x);
      assert list == [list[0]] + list[1..];
    }
  }

  lemma {:induction false} SnapshotsSorted(list: seq<Snapshot>)
    ensures SnapshotsOrdered(SortSnapshots(list))
    ensures multiset(SortSnapshots(list)) == multiset(list)
  {
    if list != [] {
      SnapshotsSorted(list[..|list| - 1]);
      InsertSnapshotKeepsOrder(SortSnapshots(list[..|list| - 1]), list[|list| - 1]);
      InsertSnapshotAddsOne(SortSnapshots(list[..|list| - 1]), list[|list| - 1]);
      assert list == list[..|list| - 1] + [list[|list| - 1]];
    }
  }

  // ---------------------------------------------------------------- optional roots

  /** The receipt's exclusion records; a runtime snapshot's id carries a prefix of its own. */
  datatype Excluded = ExcludedSource(id: Id, reason: Reason) | ExcludedSnapshot(id: Id, reason: Reason)

  ghost predicate SourceExcluded(excluded: seq<Excluded>, id: Id) {
    exists e <- excluded :: e.ExcludedSource? && e.id == id
  }

  ghost predicate SnapshotExcluded(excluded: seq<Excluded>, id: Id) {
    exists e <- excluded :: e.ExcludedSnapshot? && e.id == id
  }

  lemma ExclusionsStay(before: seq<Excluded>, after: seq<Excluded>, id: Id)
    requires before <= after
    ensures SourceExcluded(before, id) ==> SourceExcluded(after, id)
    ensures SnapshotExcluded(before, id) ==> SnapshotExcluded(after, id)
  {
    assert forall e <- before :: e in after;
  }

  datatype Selection = Selection(sections: seq<Section>, excluded: seq<Excluded>, roots: nat)

  function Ids(sections: seq<Section>): (r: set<Id>)
    ensures forall id :: id in r <==> exists s <- sections :: s.id == id
  {
    set s <- sections :: s.id
  }

  /** The first source of the closure that is excluded, is excluded for this reason. */
  ghost predicate FirstExcludedWith(ctx: Context, closure: seq<Id>, reason: Reason)
    requires forall id <- closure :: id in ctx.sources
  {
    exists k :: 0 <= k < |closure| && ctx.sources[closure[k]].exclusion == Some(reason)
                && forall i | 0 <= i < k :: ctx.sources[closure[i]].exclusion.None?
  }

  function FirstExclusion(ctx: Context, closure: seq<Id>): (r: Option<Reason>)
    requires forall id <- closure :: id in ctx.sources
    ensures r.None? <==> forall id <- closure :: ctx.sources[id].exclusion.None?
    ensures r.Some? ==> FirstExcludedWith(ctx, closure, r.value)
  {
    if closure == [] then None
    else
      assert forall id :: id in closure <==> id == closure[0] || id in closure[1..];
      if ctx.sources[closure[0]].exclusion.Some? then ctx.sources[closure[0]].exclusion
      else
        var rest := FirstExclusion(ctx, closure[1..]);
        assert rest.Some? ==> FirstExcludedWith(ctx, closure, rest.value) by {
          if rest.Some? {
            var k :| 0 <= k < |closure[1..]| && ctx.sources[closure[1..][k]].exclusion == rest
                     && forall i | 0 <= i < k :: ctx.sources[closure[1..][i]].exclusion.None?;
            assert ctx.sources[closure[k + 1]].exclusion == rest;
            forall i | 0 <= i < k + 1 ensures ctx.sources[closure[i]].exclusion.None? {
              assert i > 0 ==> closure[i] == closure[1..][i - 1];
            }
          }
        }
        rest
  }

  /** The sections an optional root would add: those of its closure that are not selected yet. */
  function Additions(ctx: Context, selected: set<Id>, closure: seq<Id>, root: Id): (r: seq<Section>)
    requires forall id <- closure :: id in ctx.sources
    ensures forall x :: x in Ids(r) <==> x in closure && x !in selected
  {
    if closure == [] then []
    else
      var id := closure[|closure| - 1];
      var rest := Additions(ctx, selected, closure[..|closure| - 1], root);
      assert forall x :: x in closure <==> x in closure[..|closure| - 1] || x == id;
      if id in selected then rest
      else
        var source := ctx.sources[id];
        var section := Section(id, id == root, source.contentBytes,
                               if id == root then source.rootBytes else source.dependencyBytes);
        assert Ids(rest + [section]) == Ids(rest) + {id};
        rest + [section]
  }

  ghost predicate Rooted(ctx: Context, rank: map<Id, nat>, bound: nat, roots: seq<Id>) {
    Ranked(ctx.Catalog(), rank) && forall id <- roots :: Height(rank, id) < bound
  }

  lemma ClosureKnown(ctx: Context, rank: map<Id, nat>, bound: nat, roots: seq<Id>)
    requires Rooted(ctx, rank, bound, roots)
    ensures var r := Closure(ctx.Catalog(), rank, roots, bound);
            r.Some? ==>
              && (forall id <- r.value :: id in ctx.sources && forall d <- ctx.sources[id].dependsOn :: d in r.value)
              && (forall i, j | 0 <= i < j < |r.value| :: r.value[i] != r.value[j])
              && (forall id <- roots :: id in r.value)
  {
    ClosureIsReachability(ctx.Catalog(), rank, roots, bound);
    var r := Closure(ctx.Catalog(), rank, roots, bound);
    if r.Some? {
      forall id <- r.value ensures id in ctx.sources && forall d <- ctx.sources[id].dependsOn :: d in r.value {
        var i :| 0 <= i < |r.value| && r.value[i] == id;
        assert id in ctx.Catalog();
        assert forall d <- ctx.Catalog()[id] :: d in r.value[..i];
      }
      forall id <- roots ensures id in r.value {
        ReachesSelf(ctx.Catalog(), id);
        assert ReachableFrom(ctx.Catalog(), roots, id);
      }
    }
  }

  function Exclude(s: Selection, id: Id, reason: Reason): Selection {
    s.(excluded := s.excluded + [ExcludedSource(id, reason)])
  }

  /** One turn of the optional-source loop. */
  ghost function Choose(ctx: Context, rank: map<Id, nat>, bound: nat, s: Selection, root: Id): Selection
    requires Rooted(ctx, rank, bound, [root])
  {
    ClosureKnown(ctx, rank, bound, [root]);
    match Closure(ctx.Catalog(), rank, [root], bound)
    case None => Exclude(s, root, Incompatible)
    case Some(closure) =>
      var exclusion := FirstExclusion(ctx, closure);
      if exclusion.Some? then Exclude(s, root, exclusion.value)
      else
        var prospective := s.sections + Additions(ctx, Ids(s.sections), closure, root);
        if s.roots >= ctx.budget.optionalSources || !Within(ctx.budget, UsageOf(ctx.fixed, prospective, []))
        then Exclude(s, root, BudgetExceeded)
        else Selection(prospective, s.excluded, s.roots + 1)
  }

  ghost function ChooseAll(ctx: Context, rank: map<Id, nat>, bound: nat, s: Selection, roots: seq<Id>): Selection
    requires Rooted(ctx, rank, bound, roots)
  {
    if roots == [] then s
    else Choose(ctx, rank, bound, ChooseAll(ctx, rank, bound, s, roots[..|roots| - 1]), roots[|roots| - 1])
  }

  /** The body of the optional-source loop; `ids` are the ids of the sections selected so far. */
  method ChooseRoot(ctx: Context, ghost rank: map<Id, nat>, ghost bound: nat, s: Selection, ids: set<Id>, root: Id)
    returns (t: Selection)
    requires Rooted(ctx, rank, bound, [root]) && ids == Ids(s.sections)
    ensures t == Choose(ctx, rank, bound, s, root)
  {
    ClosureKnown(ctx, rank, bound, [root]);
    var closure := ResolveClosure(ctx.Catalog(), rank, [root], bound);
    if closure.None? {
      return Exclude(s, root, Incompatible);
    }
    var exclusion := FirstExclusion(ctx, closure.value);
    if exclusion.Some? {
      return Exclude(s, root, exclusion.value);
    }
    var prospective := s.sections + Additions(ctx, ids, closure.value, root);
    if s.roots >= ctx.budget.optionalSources || !Within(ctx.budget, UsageOf(ctx.fixed, prospective, [])) {
      return Exclude(s, root, BudgetExceeded);
    }
    t := Selection(prospective, s.excluded, s.roots + 1);
  }

  lemma ChooseNext(ctx: Context, rank: map<Id, nat>, bound: nat, s: Selection, roots: seq<Id>, next: nat)
    requires Rooted(ctx, rank, bound, roots) && next < |roots|
    ensures Rooted(ctx, rank, bound, roots[..next]) && Rooted(ctx, rank, bound, roots[..next + 1])
            && Rooted(ctx, rank, bound, [roots[next]])
    ensures ChooseAll(ctx, rank, bound, s, roots[..next + 1])
            == Choose(ctx, rank, bound, ChooseAll(ctx, rank, bound, s, roots[..next]), roots[next])
  {
    assert roots[..next + 1][..next] == roots[..next];
  }

  method SelectOptional(ctx: Context, ghost rank: map<Id, nat>, ghost bound: nat, mandatory: seq<Section>,
      roots: seq<Id>)
    returns (s: Selection)
    requires Rooted(ctx, rank, bound, roots)
    ensures s == ChooseAll(ctx, rank, bound, Selection(mandatory, [], 0), roots)
  {
    s := Selection(mandatory, [], 0);
    var next := 0;
    while next < |roots|
      invariant next <= |roots|
      invariant s == ChooseAll(ctx, rank, bound, Selection(mandatory, [], 0), roots[..next])
    {
      ChooseNext(ctx, rank, bound, Selection(mandatory, [], 0), roots, next);
      s := ChooseRoot(ctx, rank, bound, s, Ids(s.sections), roots[next]);
      next := next + 1;
    }
    assert roots[..next] == roots;
  }

  // ---------------------------------------------------------------- what the loop keeps

  ghost predicate Closed(ctx: Context, ids: set<Id>) {
    forall id <- ids :: id in ctx.sources && forall d <- ctx.sources[id].dependsOn :: d in ids
  }

  ghost predicate DistinctIds(sections: seq<Section>) {
    forall i, j | 0 <= i < j < |sections| :: sections[i].id != sections[j].id
  }

  lemma {:induction false} AdditionsDistinct(ctx: Context, selected: set<Id>, closure: seq<Id>, root: Id)
    requires forall id <- closure :: id in ctx.sources
    requires forall i, j | 0 <= i < j < |closure| :: closure[i] != closure[j]
    ensures DistinctIds(Additions(ctx, selected, closure, root))
  {
    if closure != [] {
      var init, id := closure[..|closure| - 1], closure[|closure| - 1];
      AdditionsDistinct(ctx, selected, init, root);
      var rest := Additions(ctx, selected, init, root);
      assert id !in init;
      forall k | 0 <= k < |rest| ensures rest[k].id != id {
        assert rest[k].id in Ids(rest);
      }
    }
  }

  ghost predicate WholeClosure(ctx: Context, rank: map<Id, nat>, bound: nat, root: Id, before: set<Id>, after: set<Id>)
    requires Rooted(ctx, rank, bound, [root])
  {
    var closure := Closure(ctx.Catalog(), rank, [root], bound);
    closure.Some? && forall id :: id in after <==> id in before || id in closure.value
  }

  /** An optional root brings in its whole missing closure, or nothing and one exclusion record. */
  lemma AllOrNothing(ctx: Context, rank: map<Id, nat>, bound: nat, s: Selection, root: Id)
    requires Rooted(ctx, rank, bound, [root])
    ensures var t := Choose(ctx, rank, bound, s, root);
            || (t.sections == s.sections && t.roots == s.roots && exists reason ::
                t.excluded == s.excluded + [ExcludedSource(root, reason)])
            || (t.excluded == s.excluded && t.roots == s.roots + 1 && s.sections <= t.sections
                && Within(ctx.budget, UsageOf(ctx.fixed, t.sections, []))
                && WholeClosure(ctx, rank, bound, root, Ids(s.sections), Ids(t.sections)))
  {
    ClosureKnown(ctx, rank, bound, [root]);
    var t := Choose(ctx, rank, bound, s, root);
    if t.excluded == s.excluded {
      var closure := Closure(ctx.Catalog(), rank, [root], bound).value;
      var additions := Additions(ctx, Ids(s.sections), closure, root);
      IdsSplit(s.sections, additions);
    } else {
      assert t.excluded == s.excluded + [ExcludedSource(root, t.excluded[|s.excluded|].reason)];
    }
  }

  lemma IdsSplit(a: seq<Section>, b: seq<Section>)
    ensures Ids(a + b) == Ids(a) + Ids(b)
  {
    forall id ensures id in Ids(a + b) <==> id in Ids(a) + Ids(b) {
      if id in Ids(a + b) {
        var s :| s in a + b && s.id == id;
        assert s in a || s in b;
      }
      if id in Ids(a) {
        var s :| s in a && s.id == id;
        assert s in a + b;
      }
      if id in Ids(b) {
        var s :| s in b && s.id == id;
        assert s in a + b;
      }
    }
  }

  ghost predicate Sound(ctx: Context, mandatory: seq<Section>, s: Selection) {
    && mandatory <= s.sections && DistinctIds(s.sections) && Closed(ctx, Ids(s.sections))
    && (s.sections != mandatory ==> Within(ctx.budget, UsageOf(ctx.fixed, s.sections, [])))
    && MeasureSections(s.sections).roots <= MeasureSections(mandatory).roots + s.roots
  }

  lemma DistinctAppend(a: seq<Section>, b: seq<Section>)
    requires DistinctIds(a) && DistinctIds(b) && forall id :: id in Ids(a) ==> id !in Ids(b)
    ensures DistinctIds(a + b)
  {
    forall i, j | 0 <= i < |a| && 0 <= j < |b| ensures a[i].id != b[j].id {
      assert a[i].id in Ids(a) && b[j].id in Ids(b);
    }
  }

  lemma {:induction false} AdditionsRoots(ctx: Context, selected: set<Id>, closure: seq<Id>, root: Id)
    requires forall id <- closure :: id in ctx.sources
    requires forall i, j | 0 <= i < j < |closure| :: closure[i] != closure[j]
    ensures MeasureSections(Additions(ctx, selected, closure, root)).roots <= (if root in closure then 1 else 0)
  {
    if closure != [] {
      AdditionsRoots(ctx, selected, closure[..|closure| - 1], root);
    }
  }

  lemma AddedKeeps(ctx: Context, mandatory: seq<Section>, s: Selection, closure: seq<Id>, root: Id)
    requires Sound(ctx, mandatory, s) && forall id <- closure ::
             id in ctx.sources && forall d <- ctx.sources[id].dependsOn :: d in closure
    requires forall i, j | 0 <= i < j < |closure| :: closure[i] != closure[j]
    ensures var t := s.sections + Additions(ctx, Ids(s.sections), closure, root);
            && mandatory <= t && DistinctIds(t) && Closed(ctx, Ids(t))
            && MeasureSections(t).roots <= MeasureSections(mandatory).roots + s.roots + 1
  {
    var additions := Additions(ctx, Ids(s.sections), closure, root);
    AdditionsDistinct(ctx, Ids(s.sections), closure, root);
    AdditionsRoots(ctx, Ids(s.sections), closure, root);
    MeasureSplits(s.sections, additions);
    DistinctAppend(s.sections, additions);
    IdsSplit(s.sections, additions);
  }

  lemma ChooseShape(ctx: Context, rank: map<Id, nat>, bound: nat, s: Selection, root: Id)
    requires Rooted(ctx, rank, bound, [root])
    ensures var closure := Closure(ctx.Catalog(), rank, [root], bound);
            var t := Choose(ctx, rank, bound, s, root);
            || (t.sections == s.sections && t.roots == s.roots)
            || (&& closure.Some? && (forall id <- closure.value :: id in ctx.sources)
                && t.sections == s.sections + Additions(ctx, Ids(s.sections), closure.value, root)
                   && t.roots == s.roots + 1
                && Within(ctx.budget, UsageOf(ctx.fixed, t.sections, [])))
  {
    ClosureKnown(ctx, rank, bound, [root]);
  }

  lemma ChooseKeeps(ctx: Context, rank: map<Id, nat>, bound: nat, mandatory: seq<Section>, s: Selection, root: Id)
    requires Rooted(ctx, rank, bound, [root]) && Sound(ctx, mandatory, s)
    ensures Sound(ctx, mandatory, Choose(ctx, rank, bound, s, root))
  {
    ChooseShape(ctx, rank, bound, s, root);
    var t := Choose(ctx, rank, bound, s, root);
    if t.roots != s.roots {
      ClosureKnown(ctx, rank, bound, [root]);
      AddedKeeps(ctx, mandatory, s, Closure(ctx.Catalog(), rank, [root], bound).value, root);
    }
  }

  lemma {:induction false} ChooseAllKeeps(ctx: Context, rank: map<Id, nat>, bound: nat, mandatory: seq<Section>,
      s: Selection, roots: seq<Id>)
    requires Rooted(ctx, rank, bound, roots) && Sound(ctx, mandatory, s)
    ensures Sound(ctx, mandatory, ChooseAll(ctx, rank, bound, s, roots))
  {
    if roots != [] {
      ChooseAllKeeps(ctx, rank, bound, mandatory, s, roots[..|roots| - 1]);
      ChooseKeeps(ctx, rank, bound, mandatory, ChooseAll(ctx, rank, bound, s, roots[..|roots| - 1]),
                  roots[|roots| - 1]);
    }
  }

  /** Excluded with a reason, or with its whole closure selected. */
  ghost predicate RootAccounted(
    ctx: Context, rank: map<Id, nat>, bound: nat, selected: set<Id>, excluded: seq<Excluded>, root: Id)
    requires Rooted(ctx, rank, bound, [root])
  {
    || SourceExcluded(excluded, root)
    || (&& Closure(ctx.Catalog(), rank, [root], bound).Some?
        && forall id <- Closure(ctx.Catalog(), rank, [root], bound).value :: id in selected)
  }

  /** Every root is accounted for at the end of the loop. */
  lemma {:induction false} EveryRootAccounted(ctx: Context, rank: map<Id, nat>, bound: nat, s: Selection,
      roots: seq<Id>, k: nat)
    requires Rooted(ctx, rank, bound, roots) && k < |roots|
    ensures Rooted(ctx, rank, bound, [roots[k]])
    ensures var t := ChooseAll(ctx, rank, bound, s, roots);
            RootAccounted(ctx, rank, bound, Ids(t.sections), t.excluded, roots[k])
  {
    var init, last := roots[..|roots| - 1], roots[|roots| - 1];
    var before, after := ChooseAll(ctx, rank, bound, s, init), ChooseAll(ctx, rank, bound, s, roots);
    AllOrNothing(ctx, rank, bound, before, last);
    if k < |roots| - 1 {
      EveryRootAccounted(ctx, rank, bound, s, init, k);
      ExclusionsStay(before.excluded, after.excluded, roots[k]);
      IdsGrow(before.sections, after.sections);
    } else if after.excluded != before.excluded {
      assert after.excluded[|before.excluded|] in after.excluded;
    }
  }

  lemma IdsGrow(a: seq<Section>, b: seq<Section>)
    requires a <= b
    ensures Ids(a) <= Ids(b)
  {
    IdsSplit(a, b[|a|..]);
    assert b == a + b[|a|..];
  }

  /**
   * The final budget check fails exactly when the mandatory closure alone is over budget: optional
   * sources can neither break it nor repair it.
   */
  lemma FinalCheckIsMandatoryCheck(ctx: Context, rank: map<Id, nat>, bound: nat, mandatory: seq<Section>,
      roots: seq<Id>)
    requires Rooted(ctx, rank, bound, roots) && DistinctIds(mandatory) && Closed(ctx, Ids(mandatory))
    ensures var s := ChooseAll(ctx, rank, bound, Selection(mandatory, [], 0), roots);
            Within(ctx.budget, UsageOf(ctx.fixed, SortSections(s.sections), []))
            <==> Within(ctx.budget, UsageOf(ctx.fixed, mandatory, []))
  {
    var start := Selection(mandatory, [], 0);
    var s := ChooseAll(ctx, rank, bound, start, roots);
    ChooseAllKeeps(ctx, rank, bound, mandatory, start, roots);
    SortingKeepsUsage(ctx.fixed, s.sections, []);
    var more := s.sections[|mandatory|..];
    assert s.sections == mandatory + more;
    if Within(ctx.budget, UsageOf(ctx.fixed, s.sections, [])) {
      FewerStayWithin(ctx.budget, ctx.fixed, mandatory, more);
    }
  }

  // ---------------------------------------------------------------- runtime snapshots

  /** The snapshots the loop keeps, and what it turned away. */
  datatype Kept = Kept(snapshots: seq<Snapshot>, excluded: seq<Excluded>)

  function KeepOne(ctx: Context, sections: seq<Section>, k: Kept, candidate: Snapshot): Kept {
    if candidate.exclusion.Some? then
      k.(excluded := k.excluded + [ExcludedSnapshot(candidate.id, candidate.exclusion.value)])
    else if !Within(ctx.budget, UsageOf(ctx.fixed, sections, k.snapshots + [candidate])) then
      k.(excluded := k.excluded + [ExcludedSnapshot(candidate.id, BudgetExceeded)])
    else k.(snapshots := k.snapshots + [candidate])
  }

  function KeepAll(ctx: Context, sections: seq<Section>, k: Kept, candidates: seq<Snapshot>): Kept {
    if candidates == [] then k
    else KeepOne(ctx, sections, KeepAll(ctx, sections, k, candidates[..|candidates| - 1]), candidates[|candidates| - 1])
  }

  method SelectSnapshots(ctx: Context, sections: seq<Section>, excluded: seq<Excluded>, candidates: seq<Snapshot>)
    returns (k: Kept)
    ensures k == KeepAll(ctx, sections, Kept([], excluded), candidates)
  {
    var snapshots, turned := [], excluded;
    var next := 0;
    while next < |candidates|
      invariant next <= |candidates|
      invariant Kept(snapshots, turned) == KeepAll(ctx, sections, Kept([], excluded), candidates[..next])
    {
      var candidate := candidates[next];
      assert candidates[..next + 1][..next] == candidates[..next];
      next := next + 1;
      if candidate.exclusion.Some? {
        turned := turned + [ExcludedSnapshot(candidate.id, candidate.exclusion.value)];
        continue;
      }
      if !Within(ctx.budget, UsageOf(ctx.fixed, sections, snapshots + [candidate])) {
        turned := turned + [ExcludedSnapshot(candidate.id, BudgetExceeded)];
        continue;
      }
      snapshots := snapshots + [candidate];
    }
    assert candidates[..next] == candidates;
    k := Kept(snapshots, turned);
  }

  /** Every snapshot is kept or excluded once, in order, and what is kept stays within the budget. */
  lemma {:induction false} SnapshotsWithinBudget(ctx: Context, sections: seq<Section>, k: Kept,
      candidates: seq<Snapshot>)
    requires Within(ctx.budget, UsageOf(ctx.fixed, sections, k.snapshots))
    ensures var r := KeepAll(ctx, sections, k, candidates);
            && Within(ctx.budget, UsageOf(ctx.fixed, sections, r.snapshots))
            && k.snapshots <= r.snapshots && k.excluded <= r.excluded
            && |r.snapshots| + |r.excluded| == |k.snapshots| + |k.excluded| + |candidates|
            && forall c <- candidates :: c in r.snapshots || SnapshotExcluded(r.excluded, c.id)
  {
    if candidates != [] {
      var init, last := candidates[..|candidates| - 1], candidates[|candidates| - 1];
      SnapshotsWithinBudget(ctx, sections, k, init);
      var before, after := KeepAll(ctx, sections, k, init), KeepAll(ctx, sections, k, candidates);
      if after.excluded != before.excluded {
        assert after.excluded[|before.excluded|] in after.excluded;
      }
      forall c <- candidates ensures c in after.snapshots || SnapshotExcluded(after.excluded, c.id) {
        ExclusionsStay(before.excluded, after.excluded, c.id);
        assert c in init || c == last;
      }
    }
  }

  lemma KeepOneKept(ctx: Context, sections: seq<Section>, k: Kept, candidate: Snapshot)
    ensures var kept := KeepOne(ctx, sections, k, candidate).snapshots;
            kept == k.snapshots || (candidate.exclusion.None? && kept == k.snapshots + [candidate])
  {}

  /** Only admissible candidates are kept, and none twice. */
  lemma {:induction false} KeptAreCandidates(ctx: Context, sections: seq<Section>, excluded: seq<Excluded>,
      candidates: seq<Snapshot>)
    ensures var kept := KeepAll(ctx, sections, Kept([], excluded), candidates).snapshots;
            && multiset(kept) <= multiset(candidates)
            && forall c <- kept :: c.exclusion.None?
  {
    if candidates != [] {
      var init, last := candidates[..|candidates| - 1], candidates[|candidates| - 1];
      KeptAreCandidates(ctx, sections, excluded, init);
      assert candidates == init + [last];
      KeepOneKept(ctx, sections, KeepAll(ctx, sections, Kept([], excluded), init), last);
    }
  }

  /** What is kept stays in the candidates' order. */
  lemma {:induction false} KeptInOrder(ctx: Context, sections: seq<Section>, excluded: seq<Excluded>,
      candidates: seq<Snapshot>)
    requires SnapshotsOrdered(candidates)
    ensures var kept := KeepAll(ctx, sections, Kept([], excluded), candidates).snapshots;
            SnapshotsOrdered(kept) && forall c <- kept :: c in candidates
  {
    if candidates != [] {
      var init, last := candidates[..|candidates| - 1], candidates[|candidates| - 1];
      KeptInOrder(ctx, sections, excluded, init);
      assert forall c <- init :: c in candidates && c.id <= last.id;
      KeepOneKept(ctx, sections, KeepAll(ctx, sections, Kept([], excluded), init), last);
    }
  }

  // ---------------------------------------------------------------- the compiler

  datatype CompileError = UnknownMandatory | MandatoryExcluded(reason: Reason) | RepeatedMandatory | OverBudget

  datatype Compiled = Failed(error: CompileError)
    | Bundle(sections: seq<Section>, snapshots: seq<Snapshot>, excluded: seq<Excluded>)

  function MandatorySections(ctx: Context, closure: seq<Id>): (r: seq<Section>)
    requires forall id <- closure :: id in ctx.sources
    ensures |r| == |closure|
    ensures forall i | 0 <= i < |r| :: r[i].id == closure[i] && !r[i].optionalRoot
  {
    seq(|closure|, i requires 0 <= i < |closure| =>
      var source := ctx.sources[closure[i]];
      Section(closure[i], false, source.contentBytes, source.mandatoryBytes))
  }

  /** Each snapshot is kept or excluded; those kept are admissible, in order, and none is invented or repeated. */
  ghost predicate SnapshotsAccounted(candidates: seq<Snapshot>, b: Compiled)
    requires b.Bundle?
  {
    && SnapshotsOrdered(b.snapshots) && multiset(b.snapshots) <= multiset(candidates)
    && (forall c <- b.snapshots :: c.exclusion.None?)
    && (forall c <- candidates :: c in b.snapshots || SnapshotExcluded(b.excluded, c.id))
  }

  ghost predicate SoundBundle(
    ctx: Context, rank: map<Id, nat>, bound: nat, mandatory: seq<Id>, roots: seq<Id>, candidates: seq<Snapshot>,
    b: Compiled)
    requires b.Bundle? && Rooted(ctx, rank, bound, roots)
  {
    && Within(ctx.budget, UsageOf(ctx.fixed, b.sections, b.snapshots))
    && DistinctIds(b.sections) && Closed(ctx, Ids(b.sections)) && SectionsOrdered(b.sections)
    && SnapshotsAccounted(candidates, b)
    && (forall id <- mandatory :: id in Ids(b.sections))
    && (forall root <- roots :: RootAccounted(ctx, rank, bound, Ids(b.sections), b.excluded, root))
  }

  lemma MandatoryIds(ctx: Context, closure: seq<Id>)
    requires forall id <- closure :: id in ctx.sources
    ensures forall id :: id in Ids(MandatorySections(ctx, closure)) <==> id in closure
  {
    var sections := MandatorySections(ctx, closure);
    forall id <- closure ensures id in Ids(sections) {
      var i :| 0 <= i < |closure| && closure[i] == id;
      assert sections[i] in sections;
    }
  }

  lemma PermutedIds(a: seq<Section>, b: seq<Section>)
    requires multiset(a) == multiset(b)
    ensures Ids(a) == Ids(b) && forall s :: s in a <==> s in b
  {
    forall s: Section ensures s in a <==> s in b {
      assert s in a <==> s in multiset(a);
      assert s in b <==> s in multiset(b);
    }
  }

  lemma PermutedSections(a: seq<Section>, b: seq<Section>)
    requires multiset(a) == multiset(b)
    ensures Ids(a) == Ids(b)
    ensures DistinctIds(a) ==> DistinctIds(b)
  {
    PermutedIds(a, b);
    if DistinctIds(a) {
      forall i, j | 0 <= i < j < |b| ensures b[i].id != b[j].id {
        if b[i].id == b[j].id {
          assert b[i] in a && b[j] in a;
          var k :| 0 <= k < |a| && a[k] == b[i];
          var l :| 0 <= l < |a| && a[l] == b[j];
          assert k == l;
          TwiceIn(b, i, j);
          OnceIn(a, k);
        }
      }
    }
  }

  lemma TwiceIn(b: seq<Section>, i: nat, j: nat)
    requires i < j < |b| && b[i] == b[j]
    ensures multiset(b)[b[i]] >= 2
  {
    assert b == b[..i] + [b[i]] + b[i + 1..j] + [b[j]] + b[j + 1..];
  }

  lemma OnceIn(a: seq<Section>, k: nat)
    requires k < |a| && DistinctIds(a)
    ensures multiset(a)[a[k]] == 1
  {
    assert a == a[..k] + [a[k]] + a[k + 1..];
    assert a[k] !in a[..k] && a[k] !in a[k + 1..];
  }

  method Compile(
    ctx: Context, ghost rank: map<Id, nat>, ghost bound: nat, mandatoryRoots: seq<Id>, roots: seq<Id>,
    candidates: seq<Snapshot>)
    returns (r: Compiled)
    requires Rooted(ctx, rank, bound, mandatoryRoots) && Rooted(ctx, rank, bound, roots)
    ensures var closure := Closure(ctx.Catalog(), rank, mandatoryRoots, bound);
            && (closure.None? <==> r == Failed(UnknownMandatory))
            && (closure.Some? ==>
                  && (forall id <- closure.value :: id in ctx.sources)
                  && (r == Failed(RepeatedMandatory) <==> exists id <- roots :: id in closure.value)
                  && (forall reason :: r == Failed(MandatoryExcluded(reason)) <==>
                        (forall id <- roots :: id !in closure.value) && FirstExcludedWith(ctx, closure.value, reason))
                  && (r == Failed(OverBudget) <==>
                        && (forall id <- roots :: id !in closure.value)
                        && (forall id <- closure.value :: ctx.sources[id].exclusion.None?)
                        && !Within(ctx.budget, UsageOf(ctx.fixed, MandatorySections(ctx, closure.value), [])))
                  && (r.Bundle? <==>
                        && (forall id <- roots :: id !in closure.value)
                        && (forall id <- closure.value :: ctx.sources[id].exclusion.None?)
                        && Within(ctx.budget, UsageOf(ctx.fixed, MandatorySections(ctx, closure.value), [])))
                  && (r.Bundle? ==> SoundBundle(ctx, rank, bound, closure.value, roots, candidates, r)))
  {
    ClosureKnown(ctx, rank, bound, mandatoryRoots);
    var closure := ResolveClosure(ctx.Catalog(), rank, mandatoryRoots, bound);
    if closure.None? {
      return Failed(UnknownMandatory);
    }
    if exists id <- roots :: id in closure.value {
      return Failed(RepeatedMandatory);
    }
    var exclusion := FirstExclusion(ctx, closure.value);
    if exclusion.Some? {
      return Failed(MandatoryExcluded(exclusion.value));
    }
    var mandatory := MandatorySections(ctx, closure.value);
    MandatoryIds(ctx, closure.value);
    var s := SelectOptional(ctx, rank, bound, mandatory, roots);
    var sections := SortSections(s.sections);
    FinalCheckIsMandatoryCheck(ctx, rank, bound, mandatory, roots);
    if !Within(ctx.budget, UsageOf(ctx.fixed, sections, [])) {
      return Failed(OverBudget);
    }
    var kept := SelectSnapshots(ctx, sections, s.excluded, SortSnapshots(candidates));
    r := Bundle(sections, kept.snapshots, kept.excluded);
    BundleIsSound(ctx, rank, bound, closure.value, roots, candidates, r);
  }

  lemma SectionsAreSound(
    ctx: Context, rank: map<Id, nat>, bound: nat, closure: seq<Id>, roots: seq<Id>, sections: seq<Section>)
    requires Rooted(ctx, rank, bound, roots) && (forall id <- closure :: id in ctx.sources)
    requires forall i, j | 0 <= i < j < |closure| :: closure[i] != closure[j]
    requires Closed(ctx, Ids(MandatorySections(ctx, closure)))
    requires sections == SortSections(ChooseAll(ctx, rank, bound, Selection(MandatorySections(ctx, closure), [], 0),
                                                roots).sections)
    ensures DistinctIds(sections) && Closed(ctx, Ids(sections)) && SectionsOrdered(sections)
    ensures forall id <- closure :: id in Ids(sections)
  {
    var mandatory := MandatorySections(ctx, closure);
    var start := Selection(mandatory, [], 0);
    var s := ChooseAll(ctx, rank, bound, start, roots);
    MandatoryIds(ctx, closure);
    ChooseAllKeeps(ctx, rank, bound, mandatory, start, roots);
    SortingKeepsUsage(ctx.fixed, s.sections, []);
    PermutedSections(s.sections, sections);
    IdsGrow(mandatory, s.sections);
    SectionsSorted(s.sections);
  }

  lemma SnapshotsAreSound(ctx: Context, sections: seq<Section>, excluded: seq<Excluded>, candidates: seq<Snapshot>,
      r: Compiled)
    requires Within(ctx.budget, UsageOf(ctx.fixed, sections, []))
    requires var kept := KeepAll(ctx, sections, Kept([], excluded), SortSnapshots(candidates));
             r == Bundle(sections, kept.snapshots, kept.excluded)
    ensures SnapshotsAccounted(candidates, r) && Within(ctx.budget, UsageOf(ctx.fixed, sections, r.snapshots))
    ensures excluded <= r.excluded
  {
    SnapshotsSorted(candidates);
    SnapshotsWithinBudget(ctx, sections, Kept([], excluded), SortSnapshots(candidates));
    KeptAreCandidates(ctx, sections, excluded, SortSnapshots(candidates));
    KeptInOrder(ctx, sections, excluded, SortSnapshots(candidates));
  }

  lemma RootsAreAccounted(
    ctx: Context, rank: map<Id, nat>, bound: nat, start: Selection, roots: seq<Id>, selected: set<Id>,
    excluded: seq<Excluded>)
    requires Rooted(ctx, rank, bound, roots)
    requires var s := ChooseAll(ctx, rank, bound, start, roots); selected == Ids(s.sections) && s.excluded <= excluded
    ensures forall root <- roots ::
              Rooted(ctx, rank, bound, [root]) && RootAccounted(ctx, rank, bound, selected, excluded, root)
  {
    var s := ChooseAll(ctx, rank, bound, start, roots);
    forall root <- roots
      ensures Rooted(ctx, rank, bound, [root]) && RootAccounted(ctx, rank, bound, selected, excluded, root)
    {
      var k :| 0 <= k < |roots| && roots[k] == root;
      EveryRootAccounted(ctx, rank, bound, start, roots, k);
      ExclusionsStay(s.excluded, excluded, root);
    }
  }

  lemma BundleIsSound(
    ctx: Context, rank: map<Id, nat>, bound: nat, closure: seq<Id>, roots: seq<Id>, candidates: seq<Snapshot>,
    r: Compiled)
    requires Rooted(ctx, rank, bound, roots) && (forall id <- closure :: id in ctx.sources)
    requires forall i, j | 0 <= i < j < |closure| :: closure[i] != closure[j]
    requires Closed(ctx, Ids(MandatorySections(ctx, closure)))
    requires var s := ChooseAll(ctx, rank, bound, Selection(MandatorySections(ctx, closure), [], 0), roots);
             var kept := KeepAll(ctx, SortSections(s.sections), Kept([], s.excluded), SortSnapshots(candidates));
             && Within(ctx.budget, UsageOf(ctx.fixed, SortSections(s.sections), []))
             && r == Bundle(SortSections(s.sections), kept.snapshots, kept.excluded)
    ensures SoundBundle(ctx, rank, bound, closure, roots, candidates, r)
  {
    var start := Selection(MandatorySections(ctx, closure), [], 0);
    var s := ChooseAll(ctx, rank, bound, start, roots);
    SectionsAreSound(ctx, rank, bound, closure, roots, r.sections);
    SnapshotsAreSound(ctx, r.sections, s.excluded, candidates, r);
    SortingKeepsUsage(ctx.fixed, s.sections, []);
    PermutedIds(s.sections, r.sections);
    RootsAreAccounted(ctx, rank, bound, start, roots, Ids(r.sections), r.excluded);
  }
}
