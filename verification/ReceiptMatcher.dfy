/** Binding a frozen context bundle to its durable source receipt by greedy one-to-one matching. */
module ReceiptMatcher {
  import opened FiniteSets

  datatype Authority = HostPolicy | ToolContract | Skill | Reference | Evidence

  datatype Source = Source(authority: Authority, sourceId: nat, version: nat, hash: nat)

  datatype Section = Section(sourceId: nat, version: nat, hash: nat)

  datatype Bundle = Bundle(policy: nat, tools: seq<nat>, sections: seq<Section>, snapshots: seq<nat>)

  datatype Component = Policy(hash: nat) | Contract(hash: nat) | Authored(section: Section) | Snapshot(hash: nat)

  predicate Matches(c: Component, s: Source) {
    match c
    case Policy(hash) => s.authority == HostPolicy && s.hash == hash
    case Contract(hash) => s.authority == ToolContract && s.hash == hash
    case Authored(section) =>
      && s.authority in {Skill, Reference, Evidence}
      && s.sourceId == section.sourceId && s.version == section.version && s.hash == section.hash
    case Snapshot(hash) => s.authority == Evidence && s.hash == hash
  }

  /** The components in the order in which they are consumed. */
  function Components(b: Bundle): seq<Component> {
    [Policy(b.policy)]
    + seq(|b.tools|, i requires 0 <= i < |b.tools| => Contract(b.tools[i]))
    + seq(|b.sections|, i requires 0 <= i < |b.sections| => Authored(b.sections[i]))
    + seq(|b.snapshots|, i requires 0 <= i < |b.snapshots| => Snapshot(b.snapshots[i]))
  }

  function Indices(sources: seq<Source>): (r: set<nat>)
    ensures forall i: nat :: i in r <==> i < |sources|
  {
    if sources == [] then {} else Indices(sources[..|sources| - 1]) + {|sources| - 1}
  }

  // ---------------------------------------------------------------- the algorithm

  /** The source a component consumes: the first unmatched one that fits, from index `from` on. */
  ghost predicate Picks(c: Component, sources: seq<Source>, unmatched: set<nat>, index: nat) {
    && index in unmatched && index < |sources| && Matches(c, sources[index])
    && forall i <- unmatched | i < index :: !Matches(c, sources[i])
  }

  ghost predicate Unmatchable(c: Component, sources: seq<Source>, unmatched: set<nat>)
    requires forall i <- unmatched :: i < |sources|
  {
    forall i <- unmatched :: !Matches(c, sources[i])
  }

  /** Consuming the components in order empties the unmatched set. */
  ghost predicate Greedy(components: seq<Component>, sources: seq<Source>, unmatched: set<nat>)
    decreases |components|
  {
    if components == [] then unmatched == {}
    else exists i <- unmatched ::
      && Picks(components[0], sources, unmatched, i)
      && Greedy(components[1..], sources, unmatched - {i})
  }

  method Consume(c: Component, sources: seq<Source>, unmatched: set<nat>) returns (found: bool, index: nat)
    requires forall i <- unmatched :: i < |sources|
    ensures found ==> Picks(c, sources, unmatched, index)
    ensures !found ==> Unmatchable(c, sources, unmatched)
  {
    index := 0;
    while index < |sources|
      invariant index <= |sources|
      invariant forall i <- unmatched | i < index :: !Matches(c, sources[i])
    {
      if index in unmatched && Matches(c, sources[index]) {
        return true, index;
      }
      index := index + 1;
    }
    found := false;
  }

  lemma GreedyPicks(components: seq<Component>, sources: seq<Source>, unmatched: set<nat>, index: nat)
    requires components != [] && Picks(components[0], sources, unmatched, index)
    ensures Greedy(components, sources, unmatched) <==> Greedy(components[1..], sources, unmatched - {index})
  {
    forall i <- unmatched | Picks(components[0], sources, unmatched, i) ensures i == index {}
  }

  /** assertFrozenBundleReceiptBinding: false stands for either integrity error. */
  method Bind(bundle: Bundle, sources: seq<Source>) returns (bound: bool)
    ensures bound <==> Greedy(Components(bundle), sources, Indices(sources))
  {
    var components := Components(bundle);
    ghost var all := Indices(sources);
    var unmatched := Indices(sources);
    var next := 0;
    while next < |components|
      invariant next <= |components|
      invariant unmatched <= all
      invariant Greedy(components, sources, all) <==> Greedy(components[next..], sources, unmatched)
    {
      var found, index := Consume(components[next], sources, unmatched);
      if !found {
        return false;
      }
      GreedyPicks(components[next..], sources, unmatched, index);
      assert components[next..][1..] == components[next + 1..];
      unmatched := unmatched - {index};
      next := next + 1;
    }
    bound := unmatched == {};
  }

  // ---------------------------------------------------------------- one-to-one and onto

  ghost predicate Fits(components: seq<Component>, sources: seq<Source>, unmatched: set<nat>, m: seq<nat>) {
    && |m| == |components|
    && forall k | 0 <= k < |m| :: m[k] in unmatched && m[k] < |sources| && Matches(components[k], sources[m[k]])
  }

  ghost predicate Injective(m: seq<nat>) {
    forall j, k | 0 <= j < k < |m| :: m[j] != m[k]
  }

  ghost predicate Onto(m: seq<nat>, unmatched: set<nat>) {
    forall i <- unmatched :: i in m
  }

  /** Component k corresponds to source m[k]; every unmatched source is used exactly once. */
  ghost predicate Correspondence(components: seq<Component>, sources: seq<Source>, unmatched: set<nat>, m: seq<nat>) {
    Fits(components, sources, unmatched, m) && Injective(m) && Onto(m, unmatched)
  }

  /** Every component took the first source that fitted it and was still there. */
  ghost predicate Choosy(components: seq<Component>, sources: seq<Source>, unmatched: set<nat>, m: seq<nat>)
    requires |m| == |components| && forall i <- unmatched :: i < |sources|
  {
    forall k | 0 <= k < |m| :: forall i <- unmatched | i < m[k] && i !in m[..k] :: !Matches(components[k], sources[i])
  }

  lemma ChoosyStep(components: seq<Component>, sources: seq<Source>, unmatched: set<nat>, index: nat, rest: seq<nat>)
    requires components != [] && |rest| + 1 == |components| && forall i <- unmatched :: i < |sources|
    requires Picks(components[0], sources, unmatched, index)
    requires Choosy(components[1..], sources, unmatched - {index}, rest)
    ensures Choosy(components, sources, unmatched, [index] + rest)
  {
    var m := [index] + rest;
    forall k, i | 0 <= k < |m| && i in unmatched && i < m[k] && i !in m[..k]
      ensures !Matches(components[k], sources[i])
    {
      if k > 0 {
        assert m[..k] == [index] + rest[..k - 1];
        assert components[k] == components[1..][k - 1];
      }
    }
  }

  lemma CorrespondenceStep(components: seq<Component>, sources: seq<Source>, unmatched: set<nat>, index: nat,
      rest: seq<nat>)
    requires components != [] && Picks(components[0], sources, unmatched, index)
    requires Correspondence(components[1..], sources, unmatched - {index}, rest)
    ensures Correspondence(components, sources, unmatched, [index] + rest)
  {
    var m := [index] + rest;
    assert forall k | 0 < k < |m| :: m[k] == rest[k - 1] && components[k] == components[1..][k - 1];
    forall i <- unmatched ensures i in m {
      if i != index {
        assert i in rest;
      }
    }
  }

  lemma {:induction false} GreedyIsSound(components: seq<Component>, sources: seq<Source>, unmatched: set<nat>)
    returns (m: seq<nat>)
    requires Greedy(components, sources, unmatched) && forall i <- unmatched :: i < |sources|
    ensures Correspondence(components, sources, unmatched, m)
    ensures Choosy(components, sources, unmatched, m)
    decreases |components|
  {
    if components == [] {
      m := [];
    } else {
      var i :| i in unmatched && Picks(components[0], sources, unmatched, i)
               && Greedy(components[1..], sources, unmatched - {i});
      var rest := GreedyIsSound(components[1..], sources, unmatched - {i});
      m := [i] + rest;
      CorrespondenceStep(components, sources, unmatched, i, rest);
      ChoosyStep(components, sources, unmatched, i, rest);
    }
  }

  ghost predicate SectionsFirst(components: seq<Component>) {
    forall j, k | 0 <= j < k < |components| && components[j].Snapshot? :: components[k].Snapshot?
  }

  ghost predicate NoSharedHash(components: seq<Component>) {
    forall j, k | 0 <= j < |components| && 0 <= k < |components| && components[j].Authored?
      && components[k].Snapshot? ::
      components[j].section.hash != components[k].hash
  }

  /** Sources that fit one component are interchangeable for all the components still to come. */
  lemma Interchangeable(components: seq<Component>, k: nat, a: Source, b: Source)
    requires SectionsFirst(components) && NoSharedHash(components) && k < |components|
    requires Matches(components[0], a) && Matches(components[0], b) && Matches(components[k], a)
    ensures Matches(components[k], b)
  {}

  /** The correspondence with the sources of component 0 and component k exchanged. */
  function Swapped(m: seq<nat>, k: nat): (r: seq<nat>)
    requires k < |m|
    ensures |r| == |m| && forall j | 0 <= j < |m| :: r[j] == if j == 0 then m[k] else if j == k then m[0] else m[j]
  {
    seq(|m|, j requires 0 <= j < |m| => if j == 0 then m[k] else if j == k then m[0] else m[j])
  }

  lemma SwappedOnto(m: seq<nat>, k: nat, unmatched: set<nat>)
    requires k < |m| && Onto(m, unmatched)
    ensures Onto(Swapped(m, k), unmatched)
  {
    var r := Swapped(m, k);
    forall i <- unmatched ensures i in r {
      var j :| 0 <= j < |m| && m[j] == i;
      assert r[0] == m[k] && r[k] == m[0] && (j != 0 && j != k ==> r[j] == m[j]);
    }
  }

  lemma SwappedInjective(m: seq<nat>, k: nat)
    requires k < |m| && Injective(m)
    ensures Injective(Swapped(m, k))
  {}

  lemma SwappedFits(components: seq<Component>, sources: seq<Source>, unmatched: set<nat>, m: seq<nat>, k: nat)
    requires k < |m| && Fits(components, sources, unmatched, m)
    requires Matches(components[0], sources[m[k]]) && Matches(components[k], sources[m[0]])
    ensures Fits(components, sources, unmatched, Swapped(m, k))
  {}

  lemma UsedBy(m: seq<nat>, unmatched: set<nat>, index: nat) returns (k: nat)
    requires Onto(m, unmatched) && index in unmatched
    ensures k < |m| && m[k] == index
  {
    assert index in m;
    k :| 0 <= k < |m| && m[k] == index;
  }

  /** Swapping two sources makes the correspondence agree with the greedy choice. */
  lemma Exchange(components: seq<Component>, sources: seq<Source>, unmatched: set<nat>, m: seq<nat>, index: nat)
    returns (swapped: seq<nat>)
    requires components != [] && SectionsFirst(components) && NoSharedHash(components)
    requires Correspondence(components, sources, unmatched, m) && Picks(components[0], sources, unmatched, index)
    ensures Correspondence(components, sources, unmatched, swapped) && swapped[0] == index
  {
    var k := UsedBy(m, unmatched, index);
    Interchangeable(components, k, sources[index], sources[m[0]]);
    swapped := Swapped(m, k);
    SwappedFits(components, sources, unmatched, m, k);
    SwappedInjective(m, k);
    SwappedOnto(m, k, unmatched);
  }

  lemma Rest(components: seq<Component>, sources: seq<Source>, unmatched: set<nat>, m: seq<nat>)
    requires components != [] && Correspondence(components, sources, unmatched, m)
    ensures Correspondence(components[1..], sources, unmatched - {m[0]}, m[1..])
  {
    forall i <- unmatched - {m[0]} ensures i in m[1..] {
      assert i in m;
      var j :| 0 <= j < |m| && m[j] == i;
      assert m[1..][j - 1] == i;
    }
  }

  lemma RestOrdered(components: seq<Component>)
    requires components != [] && SectionsFirst(components) && NoSharedHash(components)
    ensures SectionsFirst(components[1..]) && NoSharedHash(components[1..])
  {
    var rest := components[1..];
    assert forall j | 0 <= j < |rest| :: rest[j] == components[j + 1];
  }

  lemma {:induction false} GreedyIsComplete(components: seq<Component>, sources: seq<Source>, unmatched: set<nat>,
      m: seq<nat>)
    requires SectionsFirst(components) && NoSharedHash(components)
    requires Correspondence(components, sources, unmatched, m)
    ensures Greedy(components, sources, unmatched)
    decreases |components|
  {
    if components != [] {
      var index := FirstMatch(components[0], sources, unmatched, m[0]);
      var swapped := Exchange(components, sources, unmatched, m, index);
      Rest(components, sources, unmatched, swapped);
      RestOrdered(components);
      GreedyIsComplete(components[1..], sources, unmatched - {index}, swapped[1..]);
    }
  }

  lemma {:induction false} FirstMatch(c: Component, sources: seq<Source>, unmatched: set<nat>, some: nat)
    returns (index: nat)
    requires some in unmatched && some < |sources| && Matches(c, sources[some])
    ensures Picks(c, sources, unmatched, index)
    decreases some
  {
    if i: nat :| i in unmatched && i < some && Matches(c, sources[i]) {
      index := FirstMatch(c, sources, unmatched, i);
    } else {
      index := some;
    }
  }

  ghost predicate Corresponds(bundle: Bundle, sources: seq<Source>) {
    exists m :: Correspondence(Components(bundle), sources, Indices(sources), m)
  }

  ghost predicate Accepts(bundle: Bundle, sources: seq<Source>) {
    Greedy(Components(bundle), sources, Indices(sources))
  }

  ghost predicate SharesHash(bundle: Bundle) {
    exists section <- bundle.sections :: section.hash in bundle.snapshots
  }

  lemma ComponentsOrdered(bundle: Bundle)
    ensures SectionsFirst(Components(bundle))
    ensures !SharesHash(bundle) ==> NoSharedHash(Components(bundle))
  {
    var components := Components(bundle);
    if !SharesHash(bundle) {
      forall j, k | 0 <= j < |components| && 0 <= k < |components| && components[j].Authored? && components[k].Snapshot?
        ensures components[j].section.hash != components[k].hash
      {
        assert components[j].section in bundle.sections && components[k].hash in bundle.snapshots;
      }
    }
  }

  /** Acceptance always means a one-to-one onto correspondence, whatever the order of either side. */
  lemma AcceptanceMeansCorrespondence(bundle: Bundle, sources: seq<Source>)
    requires Accepts(bundle, sources)
    ensures Corresponds(bundle, sources)
  {
    var m := GreedyIsSound(Components(bundle), sources, Indices(sources));
  }

  lemma CorrespondenceIsAccepted(bundle: Bundle, sources: seq<Source>)
    requires !SharesHash(bundle) && Corresponds(bundle, sources)
    ensures Accepts(bundle, sources)
  {
    ComponentsOrdered(bundle);
    var all := Indices(sources);
    var m :| Correspondence(Components(bundle), sources, all, m);
    GreedyIsComplete(Components(bundle), sources, all, m);
  }

  // ---------------------------------------------------------------- when the hashes clash

  /** Snapshot b has the hash of section a in front of it. */
  predicate Clash(components: seq<Component>, a: nat, b: nat) {
    && a < b < |components| && components[a].Authored?
    && components[b] == Snapshot(components[a].section.hash)
  }

  function Own(c: Component): Source {
    match c
    case Policy(hash) => Source(HostPolicy, 0, 0, hash)
    case Contract(hash) => Source(ToolContract, 0, 0, hash)
    case Authored(section) => Source(Skill, section.sourceId, section.version, section.hash)
    case Snapshot(hash) => Source(Evidence, 0, 0, hash)
  }

  /** A section's evidence source in front, then a source for each component but snapshot `b`. */
  function Adversary(components: seq<Component>, a: nat, b: nat): (r: seq<Source>)
    requires a < b < |components| && components[a].Authored?
    ensures |r| == |components|
    ensures var section := components[a].section;
            r[0] == Source(Evidence, section.sourceId, section.version, section.hash)
    ensures forall i | 0 < i < |r| :: r[i] == Own(components[if i <= b then i - 1 else i])
  {
    var section := components[a].section;
    seq(|components|, i requires 0 <= i < |components| =>
      if i == 0 then Source(Evidence, section.sourceId, section.version, section.hash)
      else Own(components[if i <= b then i - 1 else i]))
  }

  /** Where the adversary keeps each component's source. */
  function Homes(count: nat, b: nat): (m: seq<nat>)
    ensures |m| == count && forall k | 0 <= k < count :: m[k] == if k == b then 0 else if k < b then k + 1 else k
  {
    seq(count, k => if k == b then 0 else if k < b then k + 1 else k)
  }

  lemma HomesOnto(count: nat, b: nat, i: nat)
    requires b < count && i < count
    ensures i in Homes(count, b)
  {
    var m := Homes(count, b);
    assert m[b] == 0 && (0 < i <= b ==> m[i - 1] == i) && (b < i ==> m[i] == i);
  }

  lemma HomeMatches(components: seq<Component>, a: nat, b: nat, k: nat)
    requires Clash(components, a, b)
    requires k < |components|
    ensures Homes(|components|, b)[k] < |components|
    ensures Matches(components[k], Adversary(components, a, b)[Homes(|components|, b)[k]])
  {}

  lemma HomesInjective(count: nat, b: nat)
    ensures Injective(Homes(count, b))
  {}

  lemma AdversaryFits(components: seq<Component>, a: nat, b: nat, all: set<nat>)
    requires Clash(components, a, b)
    requires forall i: nat :: i in all <==> i < |components|
    ensures Fits(components, Adversary(components, a, b), all, Homes(|components|, b))
  {
    var m, sources := Homes(|components|, b), Adversary(components, a, b);
    forall k | 0 <= k < |m| ensures m[k] in all && m[k] < |sources| && Matches(components[k], sources[m[k]]) {
      HomeMatches(components, a, b, k);
    }
  }

  lemma AdversaryCorresponds(components: seq<Component>, a: nat, b: nat, all: set<nat>)
    requires Clash(components, a, b)
    requires forall i: nat :: i in all <==> i < |components|
    ensures Correspondence(components, Adversary(components, a, b), all, Homes(|components|, b))
  {
    forall i <- all ensures i in Homes(|components|, b) {
      HomesOnto(|components|, b, i);
    }
    HomesInjective(|components|, b);
    AdversaryFits(components, a, b, all);
  }

  function Image(s: set<nat>, f: map<nat, nat>): set<nat> {
    set k | k in s && k in f :: f[k]
  }

  lemma {:induction false} InjectiveSize(s: set<nat>, f: map<nat, nat>)
    requires s <= f.Keys && forall j <- s, k <- s | j != k :: f[j] != f[k]
    ensures |Image(s, f)| == |s|
  {
    if x :| x in s {
      InjectiveSize(s - {x}, f);
      forall y <- Image(s, f) ensures y in Image(s - {x}, f) + {f[x]} {
        var k :| k in s && f[k] == y;
        assert k == x || k in s - {x};
      }
      assert Image(s, f) == Image(s - {x}, f) + {f[x]};
    } else {
      assert Image(s, f) == {};
    }
  }

  /** A snapshot that does not use the front source uses one that was made for a snapshot other than `b`. */
  lemma SnapshotOrigin(components: seq<Component>, a: nat, b: nat, k: nat, index: nat) returns (origin: nat)
    requires a < b < |components| && components[a].Authored? && components[b].Snapshot?
    requires k < |components| && components[k].Snapshot? && 0 < index < |components|
    requires Matches(components[k], Adversary(components, a, b)[index])
    ensures origin == (if index <= b then index - 1 else index) && origin != b && components[origin].Snapshot?
  {
    origin := if index <= b then index - 1 else index;
    assert Adversary(components, a, b)[index] == Own(components[origin]);
  }

  lemma Pigeonhole(s: set<nat>, b: nat, f: map<nat, nat>)
    requires b in s && s <= f.Keys && forall j <- s, k <- s | j != k :: f[j] != f[k]
    ensures !(Image(s, f) <= s - {b})
  {
    InjectiveSize(s, f);
    if Image(s, f) <= s - {b} {
      SubsetSize(Image(s, f), s - {b});
      assert false;
    }
  }

  function Origin(m: seq<nat>, b: nat, k: nat): nat
    requires k < |m|
  {
    if m[k] == 0 || b < m[k] then m[k] else m[k] - 1
  }

  lemma OriginIsAnotherSnapshot(components: seq<Component>, a: nat, b: nat, m: seq<nat>, k: nat)
    requires a < b < |components| && components[a].Authored? && components[b].Snapshot?
    requires k < |components| && k < |m| && components[k].Snapshot? && 0 < m[k] < |components|
    requires Matches(components[k], Adversary(components, a, b)[m[k]])
    ensures Origin(m, b, k) != b && Origin(m, b, k) < |components| && components[Origin(m, b, k)].Snapshot?
  {
    var o := SnapshotOrigin(components, a, b, k, m[k]);
  }

  lemma OriginsDiffer(m: seq<nat>, b: nat, j: nat, k: nat)
    requires j < |m| && k < |m| && m[j] != m[k] && m[j] > 0 && m[k] > 0
    requires Origin(m, b, j) != b && Origin(m, b, k) != b
    ensures Origin(m, b, j) != Origin(m, b, k)
  {}

  lemma Placed(components: seq<Component>, sources: seq<Source>, all: set<nat>, m: seq<nat>, k: nat)
    requires Correspondence(components, sources, all, m) && k < |components|
    ensures |m| == |components| && m[k] < |sources| && Matches(components[k], sources[m[k]])
  {}

  /** Snapshot k uses a source made for another snapshot than `b`. */
  ghost predicate Displaced(components: seq<Component>, b: nat, m: seq<nat>, k: nat)
    requires k < |m|
  {
    && m[k] > 0 && Origin(m, b, k) != b
    && Origin(m, b, k) < |components| && components[Origin(m, b, k)].Snapshot?
  }

  lemma BehindTheFront(components: seq<Component>, a: nat, b: nat, all: set<nat>, m: seq<nat>, k: nat)
    requires a < b < |components| && components[a].Authored? && components[b].Snapshot?
    requires Correspondence(components, Adversary(components, a, b), all, m)
    requires k < |m| && |m| == |components| && components[k].Snapshot? && m[k] != 0
    ensures Displaced(components, b, m, k)
  {
    Placed(components, Adversary(components, a, b), all, m, k);
    OriginIsAnotherSnapshot(components, a, b, m, k);
  }

  lemma OriginsInjective(components: seq<Component>, b: nat, m: seq<nat>, snapshots: set<nat>)
    requires |m| == |components| && Injective(m)
    requires forall k <- snapshots :: k < |m| && Displaced(components, b, m, k)
    ensures forall j <- snapshots, k <- snapshots | j != k :: Origin(m, b, j) != Origin(m, b, k)
  {
    forall j <- snapshots, k <- snapshots | j != k ensures Origin(m, b, j) != Origin(m, b, k) {
      assert m[j] != m[k];
      OriginsDiffer(m, b, j, k);
    }
  }

  ghost predicate SnapshotsOf(components: seq<Component>, snapshots: set<nat>) {
    forall k: nat {:trigger k in snapshots} :: k in snapshots <==> k < |components| && components[k].Snapshot?
  }

  lemma OriginsAreSnapshots(components: seq<Component>, b: nat, m: seq<nat>, snapshots: set<nat>, origin: map<nat, nat>)
    requires |m| == |components| && SnapshotsOf(components, snapshots)
    requires forall k <- snapshots :: Displaced(components, b, m, k)
    requires origin.Keys == snapshots && forall k <- snapshots :: origin[k] == Origin(m, b, k)
    ensures Image(snapshots, origin) <= snapshots - {b}
  {
    forall y <- Image(snapshots, origin) ensures y in snapshots - {b} {
      var k :| k in snapshots && origin[k] == y;
      assert Displaced(components, b, m, k);
    }
  }

  /** The snapshots do not all fit into the places of the others. */
  lemma TooFewPlaces(components: seq<Component>, b: nat, m: seq<nat>)
    requires b < |components| && components[b].Snapshot? && |m| == |components| && Injective(m)
    ensures exists k: nat :: k < |m| && components[k].Snapshot? && !Displaced(components, b, m, k)
  {
    var snapshots: set<nat> := set k | 0 <= k < |components| && components[k].Snapshot?;
    if forall k <- snapshots :: Displaced(components, b, m, k) {
      var origin := map k | k in snapshots :: Origin(m, b, k);
      OriginsInjective(components, b, m, snapshots);
      OriginsAreSnapshots(components, b, m, snapshots, origin);
      Pigeonhole(snapshots, b, origin);
    }
  }

  /** The snapshots cannot all find a source behind the front one: one too few is left. */
  lemma SomeSnapshotTakesTheFront(components: seq<Component>, a: nat, b: nat, all: set<nat>, m: seq<nat>)
    requires a < b < |components| && components[a].Authored? && components[b].Snapshot?
    requires Correspondence(components, Adversary(components, a, b), all, m)
    ensures exists k: nat :: k < |m| && components[k].Snapshot? && m[k] == 0
  {
    TooFewPlaces(components, b, m);
    var k: nat :| k < |m| && components[k].Snapshot? && !Displaced(components, b, m, k);
    if m[k] != 0 {
      BehindTheFront(components, a, b, all, m, k);
    }
  }

  lemma FrontIsTaken(components: seq<Component>, sources: seq<Source>, all: set<nat>, m: seq<nat>, a: nat)
    returns (j: nat)
    requires |m| == |components| && (forall i <- all :: i < |sources|) && Choosy(components, sources, all, m)
    requires a < |components| && 0 in all && 0 < |sources| && Matches(components[a], sources[0])
    ensures j <= a && m[j] == 0
  {
    j := a;
    if m[a] != 0 {
      assert 0 in m[..a];
      j :| 0 <= j < a && m[..a][j] == 0;
    }
  }

  lemma FrontIsTakenOnce(components: seq<Component>, a: nat, m: seq<nat>, j: nat, k: nat)
    requires SectionsFirst(components) && |m| == |components| && Injective(m)
    requires a < |components| && components[a].Authored? && j <= a && m[j] == 0
    requires k < |m| && m[k] == 0
    ensures !components[k].Snapshot?
  {}

  /** The section takes the front source before any snapshot can. */
  lemma AdversaryIsRejected(components: seq<Component>, a: nat, b: nat, all: set<nat>)
    requires SectionsFirst(components)
    requires Clash(components, a, b)
    requires forall i: nat :: i in all <==> i < |components|
    ensures !Greedy(components, Adversary(components, a, b), all)
  {
    var sources := Adversary(components, a, b);
    if Greedy(components, sources, all) {
      var m := GreedyIsSound(components, sources, all);
      var j := FrontIsTaken(components, sources, all, m, a);
      SomeSnapshotTakesTheFront(components, a, b, all, m);
      var k: nat :| k < |m| && components[k].Snapshot? && m[k] == 0;
      FrontIsTakenOnce(components, a, m, j, k);
    }
  }

  /** A shared hash gives two components: a section and, behind it, a snapshot of the same hash. */
  lemma ClashingComponents(bundle: Bundle) returns (a: nat, b: nat)
    requires SharesHash(bundle)
    ensures Clash(Components(bundle), a, b)
  {
    var section :| section in bundle.sections && section.hash in bundle.snapshots;
    var i :| 0 <= i < |bundle.sections| && bundle.sections[i] == section;
    var j :| 0 <= j < |bundle.snapshots| && bundle.snapshots[j] == section.hash;
    a := 1 + |bundle.tools| + i;
    b := 1 + |bundle.tools| + |bundle.sections| + j;
    assert Components(bundle)[a] == Authored(section) && Components(bundle)[b] == Snapshot(section.hash);
  }

  lemma ClashCorresponds(bundle: Bundle, a: nat, b: nat)
    requires Clash(Components(bundle), a, b)
    ensures Corresponds(bundle, Adversary(Components(bundle), a, b))
  {
    var components := Components(bundle);
    AdversaryCorresponds(components, a, b, Indices(Adversary(components, a, b)));
  }

  lemma ClashIsRejected(bundle: Bundle, a: nat, b: nat)
    requires Clash(Components(bundle), a, b)
    ensures !Accepts(bundle, Adversary(Components(bundle), a, b))
  {
    ComponentsOrdered(bundle);
    var components := Components(bundle);
    AdversaryIsRejected(components, a, b, Indices(Adversary(components, a, b)));
  }

  lemma ClashIsFatal(bundle: Bundle)
    requires SharesHash(bundle)
    ensures exists sources :: Corresponds(bundle, sources) && !Accepts(bundle, sources)
  {
    var a, b := ClashingComponents(bundle);
    ClashCorresponds(bundle, a, b);
    ClashIsRejected(bundle, a, b);
  }

  /**
   * The matcher accepts exactly the receipts in one-to-one onto correspondence with the bundle if and
   * only if no section of the bundle has the hash of one of its runtime snapshots.
   */
  lemma MatcherIsExact(bundle: Bundle)
    ensures !SharesHash(bundle) <==> forall sources :: Accepts(bundle, sources) <==> Corresponds(bundle, sources)
  {
    if SharesHash(bundle) {
      ClashIsFatal(bundle);
    } else {
      forall sources ensures Accepts(bundle, sources) <==> Corresponds(bundle, sources) {
        if Accepts(bundle, sources) {
          AcceptanceMeansCorrespondence(bundle, sources);
        }
        if Corresponds(bundle, sources) {
          CorrespondenceIsAccepted(bundle, sources);
        }
      }
    }
  }
}
