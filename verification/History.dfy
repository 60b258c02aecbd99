/** Revision history (internal/revision/history.go). The store is the set of
    ControllerRevisions of one ModelDeployment; object names are identified with
    revision identities, and name order with identity order. */
module History {
  import opened CanaryMachine

  /** The recorded bytes and the identity they hash to; body 0 is no bytes at all. */
  datatype Payload = Payload(hash: Revision, body: nat)

  datatype Entry = Entry(hash: Revision, number: int, payload: Payload)

  /** The total order of List: by sequence number, ties by name. */
  predicate Older(a: Entry, b: Entry)
  {
    a.number < b.number || (a.number == b.number && a.hash.Rev? && b.hash.Rev? && a.hash.id < b.hash.id)
  }

  ghost predicate OldestFirst(revs: seq<Entry>)
  {
    forall i, j :: 0 <= i < j < |revs| ==> Older(revs[i], revs[j])
  }

  /** A store holds one object per identity, and no unnamed one. */
  ghost predicate WellKept(items: set<Entry>)
  {
    && (forall e :: e in items ==> e.hash.Rev?)
    && (forall a, b :: a in items && b in items && a.hash == b.hash ==> a == b)
  }

  ghost predicate Names(items: set<Entry>, r: Revision)
  {
    exists e :: e in items && e.hash == r
  }

  function PinnedIn(items: set<Entry>, keep: set<Revision>): set<Entry>
  {
    set e | e in items && e.hash in keep
  }

  /** What pruning to `limit` leaves: every pinned revision, as many others as the
      limit allows, and always the newest of those. */
  ghost predicate Pruned(before: set<Entry>, after: set<Entry>, limit: nat, keep: set<Revision>)
  {
    && after <= before
    && PinnedIn(before, keep) <= after
    && (var n, p := |before|, |PinnedIn(before, keep)|;
        |after| == if n <= limit then n else if p <= limit then limit else p)
    && (forall gone, kept :: gone in before - after && kept in after && kept.hash !in keep ==> Older(gone, kept))
  }

  /** The description is exact: it leaves no choice. */
  lemma PrunedIsDetermined(before: set<Entry>, a: set<Entry>, b: set<Entry>, limit: nat, keep: set<Revision>)
    requires Pruned(before, a, limit, keep) && Pruned(before, b, limit, keep)
    ensures a == b
  {
    if a != b {
      var x, y := Differ(a, b);
      GoneBeforeKept(before, a, limit, keep, y, x);
      GoneBeforeKept(before, b, limit, keep, x, y);
      assert false;
    }
  }

  lemma GoneBeforeKept(before: set<Entry>, after: set<Entry>, limit: nat, keep: set<Revision>, gone: Entry, kept: Entry)
    requires Pruned(before, after, limit, keep)
    requires gone in before - after && kept in after && kept !in PinnedIn(before, keep)
    ensures Older(gone, kept)
  {
  }

  lemma NothingToPrune(items: set<Entry>, limit: nat, keep: set<Revision>)
    requires |items| <= limit
    ensures Pruned(items, items, limit, keep)
  {
  }

  lemma Differ(a: set<Entry>, b: set<Entry>) returns (x: Entry, y: Entry)
    requires |a| == |b| && a != b
    ensures x in a - b && y in b - a
  {
    assert a == (a * b) + (a - b) && b == (a * b) + (b - a);
    assert |a| == |a * b| + |a - b|;
    assert |b| == |a * b| + |b - a|;
    if a - b == {} {
      assert false;
    }
    x :| x in a - b;
    y :| y in b - a;
  }

  /** What recording `rev` leaves: nothing new if it was recorded before, otherwise
      one entry newer than every other. */
  ghost predicate Recorded(before: set<Entry>, after: set<Entry>, rev: Revision)
  {
    if Names(before, rev) then after == before
    else exists e :: after == before + {e} && e.hash == rev && forall o :: o in before ==> Older(o, e)
  }

  /** The payload is there and is what the revision names. */
  predicate IsSnapshotOf(payload: Payload, rev: Revision)
  {
    rev != Unset && payload.body != 0 && payload.hash == rev
  }

  datatype RecordResult =
    | Existing(entry: Entry) | Created(entry: Entry)
    | EmptyRevision | EmptyPayload | IdentityMismatch | PayloadMismatch

  class Recorder {
    var items: set<Entry>

    constructor ()
      ensures items == {}
    {
      items := {};
    }

    /** Sorted insertion, the step List's sort is built from. */
    static method Insert(revs: seq<Entry>, e: Entry) returns (out: seq<Entry>)
      requires OldestFirst(revs) && e.hash.Rev?
      requires forall i :: 0 <= i < |revs| ==> revs[i].hash.Rev? && revs[i].hash != e.hash
      ensures OldestFirst(out) && |out| == |revs| + 1
      ensures forall x :: x in out <==> x in revs || x == e
    {
      var k := 0;
      while k < |revs| && Older(revs[k], e)
        invariant 0 <= k <= |revs|
        invariant forall i :: 0 <= i < k ==> Older(revs[i], e)
      {
        k := k + 1;
      }
      out := revs[..k] + [e] + revs[k..];
      InsertedInOrder(revs, e, k);
      assert revs == revs[..k] + revs[k..];
    }

    method List() returns (revs: seq<Entry>)
      requires WellKept(items)
      ensures OldestFirst(revs) && |revs| == |items|
      ensures forall e :: e in revs <==> e in items
    {
      revs := [];
      var left := items;
      while left != {}
        invariant left <= items && OldestFirst(revs) && |revs| + |left| == |items|
        invariant forall e :: e in revs <==> e in items - left
        decreases |left|
      {
        var e :| e in left;
        forall i | 0 <= i < |revs|
          ensures revs[i] in items - left
        {
          assert revs[i] in revs;
        }
        revs := Insert(revs, e);
        left := left - {e};
      }
    }

    method NextRevisionNumber() returns (next: int)
      requires WellKept(items)
      ensures next >= 1 && forall e :: e in items ==> e.number < next
      ensures next == 1 || exists e :: e in items && e.number == next - 1
    {
      var revs := List();
      var top := 0;
      for i := 0 to |revs|
        invariant top >= 0 && forall j :: 0 <= j < i ==> revs[j].number <= top
        invariant top == 0 || exists e :: e in items && e.number == top
      {
        if revs[i].number > top {
          top := revs[i].number;
        }
      }
      return top + 1;
    }

    /** Record. The race with another writer resolves to the same entry, so it is the
        Existing case here. */
    method Record(rev: Revision, payload: Payload) returns (r: RecordResult)
      requires WellKept(items)
      modifies this
      ensures WellKept(items)
      ensures r.Existing? || r.Created? ==> Recorded(old(items), items, rev) && Names(items, rev)
      ensures r.Existing? || r.Created? ==> r.entry in items && r.entry.hash == rev && r.entry.payload == payload
      ensures !r.Created? ==> items == old(items)
      ensures r.EmptyRevision? <==> rev == Unset
      ensures r.EmptyPayload? <==> rev != Unset && payload.body == 0
      ensures r.IdentityMismatch? <==> rev != Unset && payload.body != 0 && payload.hash != rev
      ensures r.PayloadMismatch? <==>
                IsSnapshotOf(payload, rev) && exists e :: e in old(items) && e.hash == rev && e.payload != payload
      ensures r.Existing? <==>
                IsSnapshotOf(payload, rev) && exists e :: e in old(items) && e.hash == rev && e.payload == payload
      ensures r.Created? <==> IsSnapshotOf(payload, rev) && !Names(old(items), rev)
      ensures r.Created? ==>
                && items == old(items) + {r.entry} && r.entry.number >= 1
                && (forall e :: e in old(items) ==> e.number < r.entry.number)
                && (r.entry.number == 1 || exists e :: e in old(items) && e.number == r.entry.number - 1)
    {
      if rev == Unset {
        return EmptyRevision;
      }
      if payload.body == 0 {
        return EmptyPayload;
      }
      if payload.hash != rev {
        return IdentityMismatch;
      }
      var hits := set e | e in items && e.hash == rev;
      if hits != {} {
        var e :| e in hits;
        if e.payload != payload {
          return PayloadMismatch;
        }
        return Existing(e);
      }
      var next := NextRevisionNumber();
      var e := Entry(rev, next, payload);
      items := items + {e};
      assert e in items && e.hash == rev;
      return Created(e);
    }

    /** Prune. */
    method Prune(limit: int, keep: seq<Revision>)
      requires WellKept(items)
      modifies this
      ensures WellKept(items)
      ensures limit < 0 ==> items == old(items)
      ensures limit >= 0 ==> Pruned(old(items), items, limit, set k | k in keep && k != Unset)
    {
      hide Pruned, OldestFirst, Victims;
      if limit < 0 {
        return;
      }
      var revs := List();
      var pinned := Pins(keep);
      if |revs| - limit <= 0 {
        NothingToPrune(items, limit, pinned);
        return;
      }
      var i := DeleteOldest(revs, |revs| - limit, pinned);
      PruneCount(old(items), items, revs, i, limit, pinned);
    }

    /** Prune's loop: delete in age order, skipping what is pinned, until no excess is
        left. Returns how far it came. */
    method DeleteOldest(revs: seq<Entry>, over: nat, pinned: set<Revision>) returns (i: int)
      requires OldestFirst(revs) && |revs| == |items| && over <= |items|
      requires forall e :: e in revs <==> e in items
      modifies this
      ensures 0 <= i <= |revs| && items == old(items) - Victims(revs[..i], pinned)
      ensures |items| >= |revs| - over && (i == |revs| || |items| == |revs| - over)
    {
      hide OldestFirst, Victims;
      var excess := over;
      i := 0;
      NoVictims(pinned);
      while i < |revs| && excess > 0
        invariant 0 <= i <= |revs| && 0 <= excess
        invariant items == old(items) - Victims(revs[..i], pinned)
        invariant |items| == |revs| - over + excess
      {
        VictimsSnoc(revs, i, pinned);
        if revs[i].hash !in pinned {
          assert revs[i] in items;
          items := items - {revs[i]};
          excess := excess - 1;
        }
        i := i + 1;
      }
    }

    static method Pins(keep: seq<Revision>) returns (pinned: set<Revision>)
      ensures pinned == set k | k in keep && k != Unset
    {
      pinned := {};
      for i := 0 to |keep|
        invariant pinned == set k | k in keep[..i] && k != Unset
      {
        if keep[i] != Unset {
          pinned := pinned + {keep[i]};
        }
      }
      assert keep[..|keep|] == keep;
    }
  }

  lemma InsertedInOrder(revs: seq<Entry>, e: Entry, k: int)
    requires OldestFirst(revs) && e.hash.Rev? && 0 <= k <= |revs|
    requires forall i :: 0 <= i < |revs| ==> revs[i].hash.Rev? && revs[i].hash != e.hash
    requires forall i :: 0 <= i < k ==> Older(revs[i], e)
    requires k < |revs| ==> !Older(revs[k], e)
    ensures OldestFirst(revs[..k] + [e] + revs[k..])
  {
    var out := revs[..k] + [e] + revs[k..];
    forall i | k <= i < |revs|
      ensures Older(e, revs[i])
    {
      assert i > k ==> Older(revs[k], revs[i]);
    }
    forall i, j | 0 <= i < j < |out|
      ensures Older(out[i], out[j])
    {
      assert out[i] == if i < k then revs[i] else if i == k then e else revs[i - 1];
      assert out[j] == if j < k then revs[j] else if j == k then e else revs[j - 1];
    }
  }

  /** Age is the sequence number, and among equals the name. */
  predicate Precedes(a: Entry, b: Entry)
  {
    a.number <= b.number && (a.number == b.number ==> a.hash.Rev? && b.hash.Rev? && a.hash.id < b.hash.id)
  }

  lemma ListedByNumber(revs: seq<Entry>)
    requires OldestFirst(revs)
    ensures forall i, j :: 0 <= i < j < |revs| ==> Precedes(revs[i], revs[j])
  {
  }

  /** What pruning deletes has a lower number than what it spares without being told to. */
  lemma PrunedByNumber(before: set<Entry>, after: set<Entry>, limit: nat, keep: set<Revision>, gone: Entry, kept: Entry)
    requires Pruned(before, after, limit, keep)
    requires gone in before && gone !in after && kept in after && kept.hash !in keep
    ensures Precedes(gone, kept)
  {
    assert gone in before - after;
  }

  ghost function Victims(revs: seq<Entry>, pinned: set<Revision>): set<Entry>
  {
    set e | e in revs && e.hash !in pinned
  }

  lemma NoVictims(pinned: set<Revision>)
    ensures Victims([], pinned) == {}
  {
  }

  lemma VictimsSnoc(revs: seq<Entry>, i: int, pinned: set<Revision>)
    requires OldestFirst(revs) && 0 <= i < |revs|
    ensures revs[i] !in Victims(revs[..i], pinned)
    ensures Victims(revs[..i + 1], pinned) ==
            Victims(revs[..i], pinned) + if revs[i].hash in pinned then {} else {revs[i]}
  {
  }

  lemma PruneCount(before: set<Entry>, after: set<Entry>, revs: seq<Entry>, i: int, limit: int, pinned: set<Revision>)
    requires OldestFirst(revs) && 0 <= i <= |revs| == |before| && limit >= 0 && |before| > limit
    requires forall e :: e in revs <==> e in before
    requires after == before - Victims(revs[..i], pinned)
    requires |after| >= limit && (i == |revs| || |after| == limit)
    ensures Pruned(before, after, limit, pinned)
  {
    var p := PinnedIn(before, pinned);
    assert p <= after;
    Subset(p, after);
    if i == |revs| {
      assert revs[..i] == revs;
      assert after == p;
    }
    forall gone, kept | gone in before - after && kept in after && kept.hash !in pinned
      ensures Older(gone, kept)
    {
      var g :| 0 <= g < i && revs[g] == gone;
      var k :| 0 <= k < |revs| && revs[k] == kept;
      assert k >= i;
    }
  }

  lemma {:induction false} Subset(a: set<Entry>, b: set<Entry>)
    requires a <= b
    ensures |a| <= |b|
  {
    assert b == a + (b - a);
  }
}
