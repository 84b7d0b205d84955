/** resolveClosure: the depth-first dependency closure of the context compiler. */
module ContextClosure {
  import opened Optional

  /** Ids are numbered in the order localeCompare sorts them. */
  type Id = nat

  /** The dependency list of each catalogued source. */
  type Catalog = map<Id, seq<Id>>

  /** A catalog is acyclic when its sources can be ranked above all their dependencies. */
  predicate Ranked(c: Catalog, rank: map<Id, nat>) {
    && c.Keys <= rank.Keys
    && forall id <- c, d <- c[id] | d in rank :: rank[d] < rank[id]
  }

  /** Unknown ids are below every source. */
  function Height(rank: map<Id, nat>, id: Id): nat {
    if id in rank then rank[id] + 1 else 0
  }

  // ---------------------------------------------------------------- sorting

  ghost predicate Ascending(list: seq<Id>) {
    forall i, j | 0 <= i < j < |list| :: list[i] <= list[j]
  }

  function Insert(list: seq<Id>, x: Id): (r: seq<Id>)
    ensures forall y :: y in r <==> y in list || y == x
  {
    if list == [] || x <= list[0] then [x] + list
    else
      assert forall y :: y in list <==> y == list[0] || y in list[1..];
      [list[0]] + Insert(list[1..], x)
  }

  lemma {:induction false} InsertAscends(list: seq<Id>, x: Id)
    requires Ascending(list)
    ensures Ascending(Insert(list, x))
  {
    if list != [] && list[0] < x {
      InsertAscends(list[1..], x);
      var rest := Insert(list[1..], x);
      forall y <- rest ensures list[0] <= y {
        if y != x {
          assert y in list[1..];
        }
      }
      LowestFirst(list[0], rest);
    }
  }

  lemma LowestFirst(x: Id, rest: seq<Id>)
    requires Ascending(rest) && forall y <- rest :: x <= y
    ensures Ascending([x] + rest)
  {
    forall i, j | 0 <= i < j < |[x] + rest| ensures ([x] + rest)[i] <= ([x] + rest)[j] {
      assert ([x] + rest)[j] == rest[j - 1] && rest[j - 1] in rest;
    }
  }

  function Sorted(list: seq<Id>): (r: seq<Id>)
    ensures Ascending(r)
    ensures forall y :: y in r <==> y in list
  {
    if list == [] then []
    else
      InsertAscends(Sorted(list[1..]), list[0]);
      Insert(Sorted(list[1..]), list[0])
  }

  /** [...new Set(list)]: the first occurrence of each id, in order. */
  function Deduped(list: seq<Id>): (r: seq<Id>)
    ensures forall y :: y in r <==> y in list
    ensures forall i, j | 0 <= i < j < |r| :: r[i] != r[j]
  {
    if list == [] then []
    else
      var rest := Deduped(list[..|list| - 1]);
      if list[|list| - 1] in rest then rest else rest + [list[|list| - 1]]
  }

  // ---------------------------------------------------------------- the traversal as a function

  datatype State = State(visited: set<Id>, ordered: seq<Id>)

  /** None is the unknown-source error. */
  ghost function Visit(c: Catalog, rank: map<Id, nat>, s: State, id: Id): Option<State>
    requires Ranked(c, rank)
    decreases Height(rank, id) + 1, 0
  {
    if id in s.visited then Some(s)
    else if id !in c then None
    else
      match VisitAll(c, rank, s, Sorted(c[id]), Height(rank, id))
      case None => None
      case Some(t) => Some(State(t.visited + {id}, t.ordered + [id]))
  }

  ghost function VisitAll(c: Catalog, rank: map<Id, nat>, s: State, list: seq<Id>, bound: nat): Option<State>
    requires Ranked(c, rank) && forall id <- list :: Height(rank, id) < bound
    decreases bound, |list|
  {
    if list == [] then Some(s)
    else
      match Visit(c, rank, s, list[0])
      case None => None
      case Some(t) => VisitAll(c, rank, t, list[1..], bound)
  }

  class Resolver {
    const catalog: Catalog
    var visited: set<Id>
    var ordered: seq<Id>

    ghost function View(): State
      reads this
    {
      State(visited, ordered)
    }

    constructor (catalog: Catalog)
      ensures this.catalog == catalog && View() == State({}, [])
    {
      this.catalog := catalog;
      visited, ordered := {}, [];
    }

    method VisitSource(ghost rank: map<Id, nat>, id: Id) returns (ok: bool)
      requires Ranked(catalog, rank)
      modifies this
      ensures ok <==> Visit(catalog, rank, old(View()), id).Some?
      ensures ok ==> View() == Visit(catalog, rank, old(View()), id).value
      decreases Height(rank, id) + 1, 0
    {
      if id in visited {
        return true;
      }
      if id !in catalog {
        return false;
      }
      ok := VisitEach(rank, Sorted(catalog[id]), Height(rank, id));
      if ok {
        visited := visited + {id};
        ordered := ordered + [id];
      }
    }

    method VisitEach(ghost rank: map<Id, nat>, list: seq<Id>, ghost bound: nat) returns (ok: bool)
      requires Ranked(catalog, rank) && forall id <- list :: Height(rank, id) < bound
      modifies this
      ensures ok <==> VisitAll(catalog, rank, old(View()), list, bound).Some?
      ensures ok ==> View() == VisitAll(catalog, rank, old(View()), list, bound).value
      decreases bound, |list|
    {
      var next := 0;
      while next < |list|
        invariant next <= |list|
        invariant VisitAll(catalog, rank, old(View()), list, bound)
                  == VisitAll(catalog, rank, View(), list[next..], bound)
      {
        assert list[next..][0] == list[next] && list[next..][1..] == list[next + 1..];
        ok := VisitSource(rank, list[next]);
        if !ok {
          return;
        }
        next := next + 1;
      }
      ok := true;
    }
  }

  /** The closure of a root list; any bound above all the roots will do. */
  ghost function Closure(c: Catalog, rank: map<Id, nat>, roots: seq<Id>, bound: nat): Option<seq<Id>>
    requires Ranked(c, rank) && forall id <- roots :: Height(rank, id) < bound
  {
    match VisitAll(c, rank, State({}, []), Sorted(Deduped(roots)), bound)
    case None => None
    case Some(t) => Some(t.ordered)
  }

  method ResolveClosure(c: Catalog, ghost rank: map<Id, nat>, roots: seq<Id>, ghost bound: nat)
    returns (result: Option<seq<Id>>)
    requires Ranked(c, rank) && forall id <- roots :: Height(rank, id) < bound
    ensures result == Closure(c, rank, roots, bound)
  {
    var resolver := new Resolver(c);
    var ok := resolver.VisitEach(rank, Sorted(Deduped(roots)), bound);
    result := if ok then Some(resolver.ordered) else None;
  }

  // ---------------------------------------------------------------- what the closure is

  /** A path of dependencies, from a source to one it needs. */
  ghost predicate Path(c: Catalog, path: seq<Id>) {
    && path != []
    && forall i | 0 <= i < |path| - 1 :: path[i] in c && path[i + 1] in c[path[i]]
  }

  ghost predicate Reaches(c: Catalog, from: Id, to: Id) {
    exists path :: Path(c, path) && path[0] == from && path[|path| - 1] == to
  }

  ghost predicate ReachableFrom(c: Catalog, roots: seq<Id>, to: Id) {
    exists root <- roots :: Reaches(c, root, to)
  }

  lemma ReachesSelf(c: Catalog, id: Id)
    ensures Reaches(c, id, id)
  {
    assert Path(c, [id]);
  }

  lemma ReachesVia(c: Catalog, id: Id, dependency: Id, to: Id)
    requires id in c && dependency in c[id] && Reaches(c, dependency, to)
    ensures Reaches(c, id, to)
  {
    var path :| Path(c, path) && path[0] == dependency && path[|path| - 1] == to;
    assert Path(c, [id] + path) && ([id] + path)[|path|] == to;
  }

  /** The state of a traversal: what is visited is listed once, after all it depends on. */
  ghost predicate Good(c: Catalog, s: State) {
    && (forall id :: id in s.visited <==> id in s.ordered)
    && (forall i, j | 0 <= i < j < |s.ordered| :: s.ordered[i] != s.ordered[j])
    && (forall i | 0 <= i < |s.ordered| :: s.ordered[i] in c && forall d <- c[s.ordered[i]] :: d in s.ordered[..i])
  }

  ghost predicate Extends(s: State, t: State) {
    s.ordered <= t.ordered && s.visited <= t.visited
  }

  lemma {:induction false} VisitIsGood(c: Catalog, rank: map<Id, nat>, s: State, id: Id)
    requires Ranked(c, rank) && Good(c, s)
    ensures var r := Visit(c, rank, s, id);
            && (r.Some? ==>
                  && Good(c, r.value) && Extends(s, r.value) && id in r.value.visited
                  && forall x <- r.value.visited ::
                     x in s.visited || (Reaches(c, id, x) && Height(rank, x) <= Height(rank, id)))
            && (r.None? ==> exists x :: Reaches(c, id, x) && x !in c)
    decreases Height(rank, id) + 1, 0
  {
    ReachesSelf(c, id);
    if id !in s.visited && id in c {
      var deps := Sorted(c[id]);
      VisitAllIsGood(c, rank, s, deps, Height(rank, id));
      var r := VisitAll(c, rank, s, deps, Height(rank, id));
      if r.None? {
        var d, x :| d in deps && Reaches(c, d, x) && x !in c;
        ReachesVia(c, id, d, x);
      } else {
        forall x <- r.value.visited
          ensures x in s.visited || (Reaches(c, id, x) && Height(rank, x) < Height(rank, id))
        {
          if x !in s.visited {
            var d :| d in deps && Reaches(c, d, x);
            ReachesVia(c, id, d, x);
          }
        }
        VisitedLast(c, r.value, id);
      }
    }
  }

  lemma VisitedLast(c: Catalog, s: State, id: Id)
    requires Good(c, s) && id in c && id !in s.visited && forall d <- c[id] :: d in s.visited
    ensures Good(c, State(s.visited + {id}, s.ordered + [id]))
  {
    var more := s.ordered + [id];
    forall i | 0 <= i < |more| ensures more[i] in c && forall d <- c[more[i]] :: d in more[..i] {
      if i < |s.ordered| {
        assert more[..i] == s.ordered[..i];
      } else {
        assert more[..i] == s.ordered;
      }
    }
  }

  lemma {:induction false} VisitAllIsGood(c: Catalog, rank: map<Id, nat>, s: State, list: seq<Id>, bound: nat)
    requires Ranked(c, rank) && Good(c, s) && forall id <- list :: Height(rank, id) < bound
    ensures var r := VisitAll(c, rank, s, list, bound);
            && (r.Some? ==>
                  && Good(c, r.value) && Extends(s, r.value) && (forall id <- list :: id in r.value.visited)
                  && forall x <- r.value.visited ::
                     x in s.visited || (Height(rank, x) < bound && exists id <- list :: Reaches(c, id, x)))
            && (r.None? ==> exists id, x :: id in list && Reaches(c, id, x) && x !in c)
    decreases bound, |list|
  {
    if list != [] {
      VisitIsGood(c, rank, s, list[0]);
      var first := Visit(c, rank, s, list[0]);
      if first.Some? {
        VisitAllIsGood(c, rank, first.value, list[1..], bound);
        var r := VisitAll(c, rank, first.value, list[1..], bound);
        if r.Some? {
          forall x <- r.value.visited
            ensures x in s.visited || (Height(rank, x) < bound && exists id <- list :: Reaches(c, id, x))
          {
            if x !in first.value.visited {
              var id :| id in list[1..] && Reaches(c, id, x);
              assert id in list;
            }
          }
          forall id <- list ensures id in r.value.visited {
            assert id == list[0] || id in list[1..];
          }
        } else {
          var id, x :| id in list[1..] && Reaches(c, id, x) && x !in c;
          assert id in list;
        }
      } else {
        var x :| Reaches(c, list[0], x) && x !in c;
        assert list[0] in list;
      }
    }
  }

  /** What is visited is closed under dependencies, so everything on a path from it is visited. */
  lemma {:induction false} PathStays(c: Catalog, s: State, path: seq<Id>)
    requires Good(c, s) && Path(c, path) && path[0] in s.visited
    ensures path[|path| - 1] in s.visited && path[|path| - 1] in c
    decreases |path|
  {
    var i :| 0 <= i < |s.ordered| && s.ordered[i] == path[0];
    if |path| > 1 {
      assert path[1] in s.ordered[..i];
      PathStays(c, s, path[1..]);
    }
  }

  /**
   * On an acyclic catalog the closure is exactly the set of sources reachable from the roots, each once
   * and after everything it depends on; it fails exactly when an unknown source is reachable.
   */
  lemma ClosureIsReachability(c: Catalog, rank: map<Id, nat>, roots: seq<Id>, bound: nat)
    requires Ranked(c, rank) && forall id <- roots :: Height(rank, id) < bound
    ensures var r := Closure(c, rank, roots, bound);
            && (r.None? <==> exists x :: ReachableFrom(c, roots, x) && x !in c)
            && (r.Some? ==>
                  && (forall x :: x in r.value <==> ReachableFrom(c, roots, x))
                  && (forall i, j | 0 <= i < j < |r.value| :: r.value[i] != r.value[j])
                  && (forall i | 0 <= i < |r.value| :: forall d <- c[r.value[i]] :: d in r.value[..i]))
  {
    var list, s := Sorted(Deduped(roots)), State({}, []);
    VisitAllIsGood(c, rank, s, list, bound);
    var r := VisitAll(c, rank, s, list, bound);
    if r.Some? {
      forall x | ReachableFrom(c, roots, x) ensures x in r.value.visited && x in c {
        var root :| root in roots && Reaches(c, root, x);
        var path :| Path(c, path) && path[0] == root && path[|path| - 1] == x;
        assert root in list;
        PathStays(c, r.value, path);
      }
      forall x <- r.value.visited ensures ReachableFrom(c, roots, x) {
        var id :| id in list && Reaches(c, id, x);
        assert id in roots;
      }
    } else {
      var id, x :| id in list && Reaches(c, id, x) && x !in c;
      assert id in roots;
      assert ReachableFrom(c, roots, x);
    }
  }

  // ---------------------------------------------------------------- order and repeats do not matter

  /** A repeat next to the first occurrence changes nothing, and in a sorted list repeats are adjacent. */
  ghost function Distinct(list: seq<Id>): (r: seq<Id>)
    ensures |r| <= |list|
  {
    if |list| <= 1 then list
    else if list[0] == list[1] then Distinct(list[1..])
    else [list[0]] + Distinct(list[1..])
  }

  lemma {:induction false} DistinctMembers(list: seq<Id>)
    ensures forall y :: y in Distinct(list) <==> y in list
  {
    if |list| > 1 {
      DistinctMembers(list[1..]);
      assert list == [list[0]] + list[1..] && list[1] in list[1..];
    }
  }

  lemma StrictlyBefore(first: Id, r: seq<Id>)
    requires forall y <- r :: first < y
    requires forall i, j | 0 <= i < j < |r| :: r[i] < r[j]
    ensures forall i, j | 0 <= i < j < |[first] + r| :: ([first] + r)[i] < ([first] + r)[j]
  {
    forall i, j | 0 <= i < j < |[first] + r| ensures ([first] + r)[i] < ([first] + r)[j] {
      assert ([first] + r)[j] == r[j - 1] && r[j - 1] in r;
    }
  }

  lemma {:induction false} DistinctIsStrict(list: seq<Id>)
    requires Ascending(list)
    ensures forall y :: y in Distinct(list) <==> y in list
    ensures forall i, j | 0 <= i < j < |Distinct(list)| :: Distinct(list)[i] < Distinct(list)[j]
  {
    DistinctMembers(list);
    if |list| > 1 {
      var rest := list[1..];
      DistinctIsStrict(rest);
      if list[0] < list[1] {
        forall y <- rest ensures list[0] < y {
          var i :| 0 <= i < |rest| && rest[i] == y;
          assert y == list[i + 1];
        }
        StrictlyBefore(list[0], Distinct(rest));
      }
    }
  }

  lemma {:induction false} SameStrictLists(a: seq<Id>, b: seq<Id>)
    requires forall i, j | 0 <= i < j < |a| :: a[i] < a[j]
    requires forall i, j | 0 <= i < j < |b| :: b[i] < b[j]
    requires forall y :: y in a <==> y in b
    ensures a == b
  {
    assert b == [] || b[0] in b;
    if a != [] {
      assert a[0] in b && b != [] && b[0] in a;
      assert a[0] == b[0];
      forall y ensures y in a[1..] <==> y in b[1..] {
        assert y in a[1..] <==> y in a && y != a[0];
        assert y in b[1..] <==> y in b && y != b[0];
      }
      SameStrictLists(a[1..], b[1..]);
    }
  }

  lemma {:induction false} DistinctSuffices(c: Catalog, rank: map<Id, nat>, s: State, list: seq<Id>, bound: nat)
    requires Ranked(c, rank) && Good(c, s) && Ascending(list) && forall id <- list :: Height(rank, id) < bound
    ensures (forall id <- Distinct(list) :: Height(rank, id) < bound)
            && VisitAll(c, rank, s, list, bound) == VisitAll(c, rank, s, Distinct(list), bound)
    decreases |list|
  {
    DistinctIsStrict(list);
    if |list| > 1 {
      var rest := list[1..];
      VisitIsGood(c, rank, s, list[0]);
      var first := Visit(c, rank, s, list[0]);
      if list[0] == list[1] {
        DistinctSuffices(c, rank, s, rest, bound);
        if first.Some? {
          assert Visit(c, rank, first.value, list[1]) == first;
        }
      } else {
        if first.Some? {
          DistinctSuffices(c, rank, first.value, rest, bound);
        }
        assert Distinct(list)[1..] == Distinct(rest);
      }
    }
  }

  /** Two catalogs that list the same dependencies of every source, in whatever order and however often. */
  ghost predicate SameDependencies(a: Catalog, b: Catalog) {
    a.Keys == b.Keys && forall id <- a, d :: d in a[id] <==> d in b[id]
  }

  lemma {:induction false} VisitIsCanonical(a: Catalog, b: Catalog, ra: map<Id, nat>, rb: map<Id, nat>, s: State,
      id: Id)
    requires Ranked(a, ra) && Ranked(b, rb) && SameDependencies(a, b) && Good(a, s) && Good(b, s)
    ensures Visit(a, ra, s, id) == Visit(b, rb, s, id)
    decreases Height(ra, id) + 1, 0
  {
    if id !in s.visited && id in a {
      VisitAllIsCanonical(a, b, ra, rb, s, Sorted(a[id]), Sorted(b[id]), Height(ra, id), Height(rb, id));
    }
  }

  lemma {:induction false} VisitAllIsCanonical(
    a: Catalog, b: Catalog, ra: map<Id, nat>, rb: map<Id, nat>, s: State, la: seq<Id>, lb: seq<Id>, ba: nat, bb: nat)
    requires Ranked(a, ra) && Ranked(b, rb) && SameDependencies(a, b) && Good(a, s) && Good(b, s)
    requires Ascending(la) && Ascending(lb) && forall y :: y in la <==> y in lb
    requires (forall id <- la :: Height(ra, id) < ba) && forall id <- lb :: Height(rb, id) < bb
    ensures VisitAll(a, ra, s, la, ba) == VisitAll(b, rb, s, lb, bb)
    decreases ba, |la| + 1
  {
    DistinctIsStrict(la);
    DistinctIsStrict(lb);
    DistinctSuffices(a, ra, s, la, ba);
    DistinctSuffices(b, rb, s, lb, bb);
    SameStrictLists(Distinct(la), Distinct(lb));
    SameListCanonical(a, b, ra, rb, s, Distinct(la), ba, bb);
  }

  lemma {:induction false} SameListCanonical(
    a: Catalog, b: Catalog, ra: map<Id, nat>, rb: map<Id, nat>, s: State, list: seq<Id>, ba: nat, bb: nat)
    requires Ranked(a, ra) && Ranked(b, rb) && SameDependencies(a, b) && Good(a, s) && Good(b, s)
    requires (forall id <- list :: Height(ra, id) < ba) && forall id <- list :: Height(rb, id) < bb
    ensures VisitAll(a, ra, s, list, ba) == VisitAll(b, rb, s, list, bb)
    decreases ba, |list|
  {
    if list != [] {
      VisitIsCanonical(a, b, ra, rb, s, list[0]);
      VisitIsGood(a, ra, s, list[0]);
      VisitIsGood(b, rb, s, list[0]);
      if Visit(a, ra, s, list[0]).Some? {
        SameListCanonical(a, b, ra, rb, Visit(a, ra, s, list[0]).value, list[1..], ba, bb);
      }
    }
  }

  /** The closure depends on the set of roots and the dependency sets alone. */
  lemma ClosureIsCanonical(
    a: Catalog, b: Catalog, ra: map<Id, nat>, rb: map<Id, nat>, rootsA: seq<Id>, rootsB: seq<Id>, ba: nat, bb: nat)
    requires Ranked(a, ra) && Ranked(b, rb) && SameDependencies(a, b)
    requires forall y :: y in rootsA <==> y in rootsB
    requires (forall id <- rootsA :: Height(ra, id) < ba) && forall id <- rootsB :: Height(rb, id) < bb
    ensures Closure(a, ra, rootsA, ba) == Closure(b, rb, rootsB, bb)
  {
    VisitAllIsCanonical(a, b, ra, rb, State({}, []), Sorted(Deduped(rootsA)), Sorted(Deduped(rootsB)), ba, bb);
  }
}
