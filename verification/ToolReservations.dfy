/** The projection's pass over a checkpoint history: every reserved call once, in order. */
module ToolReservations {
  import opened Optional
  import opened RunLedger
  import opened InvocationLedger
  import opened CaretakerHost

  datatype Reservation = Reservation(sequence: nat, call: Call)

  predicate SameIdentity(a: Call, b: Call) {
    a.tool == b.tool && a.input == b.input
  }

  /** Two checkpoints hold the same call id with different tools or inputs. */
  ghost predicate Rebinds(h: seq<Checkpoint>) {
    exists i, j | 0 <= i < j < |h| && h[i].pending.Some? && h[j].pending.Some?
                  && h[i].pending.value.id == h[j].pending.value.id ::
      !SameIdentity(h[i].pending.value, h[j].pending.value)
  }

  /** The last checkpoint that holds the call, and the call it holds. */
  ghost predicate LastHolds(h: seq<Checkpoint>, r: Reservation) {
    && r.sequence < |h| && h[r.sequence].pending == Some(r.call)
    && forall k | r.sequence < k < |h| && h[k].pending.Some? :: h[k].pending.value.id != r.call.id
  }

  ghost predicate Ordered(list: seq<Reservation>) {
    forall i, j | 0 <= i < j < |list| :: list[i].sequence < list[j].sequence
  }

  ghost predicate Lists(h: seq<Checkpoint>, list: seq<Reservation>) {
    && Ordered(list)
    && (forall r <- list :: LastHolds(h, r))
    && (forall i | 0 <= i < |h| && h[i].pending.Some? :: exists r <- list :: r.call.id == h[i].pending.value.id)
  }

  /** The map after the checkpoints of `h`. */
  ghost predicate Collected(h: seq<Checkpoint>, byCall: map<CallId, Reservation>) {
    && (forall id <- byCall :: byCall[id].call.id == id && LastHolds(h, byCall[id]))
    && (forall i | 0 <= i < |h| && h[i].pending.Some? ::
          h[i].pending.value.id in byCall && SameIdentity(h[i].pending.value, byCall[h[i].pending.value.id].call))
  }

  lemma InsertedInOrder(list: seq<Reservation>, r: Reservation, i: nat)
    requires Ordered(list) && i <= |list|
    requires forall k | 0 <= k < i :: list[k].sequence < r.sequence
    requires forall k | i <= k < |list| :: list[k].sequence > r.sequence
    ensures Ordered(list[..i] + [r] + list[i..])
    ensures forall x :: x in list[..i] + [r] + list[i..] <==> x in list || x == r
  {
    assert list == list[..i] + list[i..];
  }

  method Insert(list: seq<Reservation>, r: Reservation) returns (sorted: seq<Reservation>)
    requires Ordered(list) && forall x <- list :: x.sequence != r.sequence
    ensures Ordered(sorted) && forall x :: x in sorted <==> x in list || x == r
  {
    var i := |list|;
    while i > 0 && list[i - 1].sequence > r.sequence
      invariant 0 <= i <= |list|
      invariant forall k | i <= k < |list| :: list[k].sequence > r.sequence
    {
      i := i - 1;
    }
    forall k | 0 <= k < i ensures list[k].sequence < r.sequence {
      assert list[i - 1] in list && list[k].sequence <= list[i - 1].sequence;
    }
    InsertedInOrder(list, r, i);
    sorted := list[..i] + [r] + list[i..];
  }

  /** toolReservations; None is the integrity error. */
  method Collect(h: seq<Checkpoint>) returns (result: Option<seq<Reservation>>)
    ensures result.None? <==> Rebinds(h)
    ensures result.Some? ==> Lists(h, result.value)
  {
    var byCall: map<CallId, Reservation> := map[];
    var next := 0;
    while next < |h|
      invariant next <= |h|
      invariant Collected(h[..next], byCall)
    {
      if h[next].pending.Some? {
        var call := h[next].pending.value;
        if call.id in byCall && !SameIdentity(byCall[call.id].call, call) {
          var earlier := byCall[call.id];
          assert h[..next][earlier.sequence] == h[earlier.sequence];
          return None;
        }
        byCall := byCall[call.id := Reservation(next, call)];
      }
      next := next + 1;
    }
    assert h[..next] == h;
    assert !Rebinds(h);
    var list := SortValues(h, byCall);
    result := Some(list);
  }

  method SortValues(h: seq<Checkpoint>, byCall: map<CallId, Reservation>) returns (list: seq<Reservation>)
    requires Collected(h, byCall)
    ensures Lists(h, list)
  {
    list := [];
    var ids := byCall.Keys;
    while ids != {}
      invariant ids <= byCall.Keys
      invariant Ordered(list)
      invariant forall x :: x in list <==> x.call.id in byCall.Keys - ids && byCall[x.call.id] == x
      decreases |ids|
    {
      var id :| id in ids;
      forall x <- list ensures x.sequence != byCall[id].sequence {
        assert LastHolds(h, x) && LastHolds(h, byCall[id]);
      }
      list := Insert(list, byCall[id]);
      ids := ids - {id};
    }
    forall i | 0 <= i < |h| && h[i].pending.Some? ensures exists r <- list :: r.call.id == h[i].pending.value.id {
      assert byCall[h[i].pending.value.id] in list;
    }
  }

  /** A history the host can write never rebinds a call id, so the pass always succeeds on it. */
  lemma LegalNeverRebinds(h: History)
    requires Legal(h)
    ensures !Rebinds(h)
  {
    forall i, j | 0 <= i < j < |h| && h[i].pending.Some? && h[j].pending.Some?
                  && h[i].pending.value.id == h[j].pending.value.id
      ensures SameIdentity(h[i].pending.value, h[j].pending.value)
    {
      PendingStretch(h, i);
      PendingStretch(h, j);
    }
  }

  /** Checking the listed calls alone checks every checkpoint that ever held a call. */
  lemma ListedCallsSuffice(h: History, list: seq<Reservation>, receipts: map<CallId, Receipt>, tenant: nat)
    requires Legal(h) && Lists(h, list)
    ensures AllBound(h, receipts, tenant) <==>
              forall r <- list :: r.call.id in receipts && ProjectedBinding(receipts[r.call.id], r.call, tenant)
  {
    forall i, r | 0 <= i < |h| && h[i].pending.Some? && r in list && r.call.id == h[i].pending.value.id
      ensures r.call == h[i].pending.value
    {
      assert LastHolds(h, r);
      PendingStretch(h, i);
      PendingStretch(h, r.sequence);
    }
    if AllBound(h, receipts, tenant) {
      forall r <- list ensures r.call.id in receipts && ProjectedBinding(receipts[r.call.id], r.call, tenant) {
        assert LastHolds(h, r);
      }
    }
  }

  lemma {:induction false} LastReservedIsLatest(h: History)
    ensures LastReserved(h).None? ==> forall i | 0 <= i < |h| :: h[i].pending == None
    ensures LastReserved(h).Some? ==>
              exists i :: 0 <= i < |h| && h[i].pending == LastReserved(h) && forall k | i < k < |h| ::
                h[k].pending == None
  {
    if Last(h).pending.Some? {
      assert h[|h| - 1].pending == LastReserved(h);
    } else if |h| > 1 {
      var prefix := h[..|h| - 1];
      LastReservedIsLatest(prefix);
      if LastReserved(h).Some? {
        var i :| 0 <= i < |prefix| && prefix[i].pending == LastReserved(prefix) && forall k | i < k < |prefix| ::
          prefix[k].pending == None;
        assert h[i].pending == LastReserved(h) && forall k | i < k < |h| :: h[k].pending == None;
      }
    }
  }

  lemma NewestIsListedLast(h: History, list: seq<Reservation>, i: nat)
    requires Lists(h, list) && i < |h| && h[i].pending.Some? && forall k | i < k < |h| :: h[k].pending == None
    ensures list != [] && h[i].pending == Some(list[|list| - 1].call)
  {
    var r :| r in list && r.call.id == h[i].pending.value.id;
    assert LastHolds(h, r) && r.sequence == i;
    var last := list[|list| - 1];
    assert LastHolds(h, last) && last.sequence <= i;
    assert last == r;
  }

  /** The newest receipt the projection reads is that of the call reserved last. */
  lemma LastListedIsLastReserved(h: History, list: seq<Reservation>)
    requires Lists(h, list)
    ensures LastReserved(h) == if list == [] then None else Some(list[|list| - 1].call)
  {
    LastReservedIsLatest(h);
    if list == [] {
      assert forall i | 0 <= i < |h| :: h[i].pending.None?;
    } else {
      assert LastHolds(h, list[|list| - 1]);
      var i :| 0 <= i < |h| && h[i].pending == LastReserved(h) && forall k | i < k < |h| :: h[k].pending == None;
      NewestIsListedLast(h, list, i);
    }
  }
}
