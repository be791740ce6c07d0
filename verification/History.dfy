/**
 etcd as a revisioned history: an ordered log of transactions, the store at every
 revision with the creation and modification revision of each key, and the events
 a watch under a prefix delivers. Revision r is the state after the first r
 transactions; nothing is compacted. The two watchers of the repository translate
 these events in different ways (pkg/storage/etcd_storage.go and
 pkg/listwatch/listwatch.go).
 */
module History {
  import opened Wrappers
  import opened Api
  import opened KeyOrder

  datatype Entry = Entry(value: string, create: nat, mod: nat)

  datatype Txn = Put(key: string, value: string) | Delete(key: string) | DeletePrefix(prefix: string)

  type Store = map<string, Entry>

  function NewEntry(st: Store, k: string, v: string, r: nat): Entry {
    Entry(v, if k in st then st[k].create else r, r)
  }

  function Commit(st: Store, t: Txn, r: nat): Store {
    match t
    case Put(k, v) => st[k := NewEntry(st, k, v, r)]
    case Delete(k) => st - {k}
    case DeletePrefix(p) => map k | k in st && !HasPrefix(k, p) :: st[k]
  }

  datatype Trace = Trace(log: seq<Txn>, stores: seq<Store>)

  /** Transaction `i` takes the store from revision i to i + 1. */
  predicate Commits(t: Trace, i: nat)
    requires i < |t.log| && |t.stores| == |t.log| + 1
  {
    t.stores[i + 1] == Commit(t.stores[i], t.log[i], i + 1)
  }

  predicate IsTimeline(t: Trace) {
    && |t.stores| == |t.log| + 1
    && t.stores[0] == map[]
    && forall i: nat | i < |t.log| :: Commits(t, i)
  }

  /** A log of transactions with the store at every revision. */
  type Timeline = t: Trace | IsTimeline(t) witness Trace([], [map[]])

  /** Every log has one. */
  function TimelineOf(log: seq<Txn>): (h: Timeline)
    ensures h.log == log
  {
    if log == [] then Trace([], [map[]])
    else
      var n := |log| - 1;
      var before := TimelineOf(log[..n]);
      var t := Trace(log, before.stores + [Commit(before.stores[n], log[n], n + 1)]);
      assert IsTimeline(t) by {
        forall i: nat | i < |log| ensures Commits(t, i) {
          assert i < n ==> Commits(before, i);
        }
      }
      t
  }

  /** What the transaction after revision `r` does to each key. */
  lemma TransactionOnKey(h: Timeline, r: nat, k: string)
    requires r < |h.log|
    ensures var before, after := Lookup(h.stores[r], k), Lookup(h.stores[r + 1], k);
            match h.log[r]
            case Put(key, value) =>
              after == if k != key then before
                       else Some(Entry(value, if before.Some? then before.value.create else r + 1, r + 1))
            case Delete(key) => after == if k == key then None else before
            case DeletePrefix(prefix) => after == if prefix <= k then None else before
  {
    assert Commits(h, r);
  }

  // ---- Events ----

  /** An etcd event: a put carries the new entry, both kinds the previous one. */
  datatype Event = PutEvent(key: string, entry: Entry, prev: Option<Entry>) | DeleteEvent(key: string, prev: Option<Entry>)

  function DeleteEvents(st: Store, keys: seq<string>): seq<Event> {
    if keys == [] then []
    else
      var n := |keys| - 1;
      DeleteEvents(st, keys[..n]) + [DeleteEvent(keys[n], Lookup(st, keys[n]))]
  }

  lemma {:induction false} DeleteEventsAt(st: Store, keys: seq<string>)
    ensures |DeleteEvents(st, keys)| == |keys|
    ensures forall i | 0 <= i < |keys| :: DeleteEvents(st, keys)[i] == DeleteEvent(keys[i], Lookup(st, keys[i]))
  {
    if keys != [] {
      DeleteEventsAt(st, keys[..|keys| - 1]);
    }
  }

  /** Cutting a deletion short. */
  lemma {:induction false} DeleteEventsPrefix(st: Store, keys: seq<string>, n: nat)
    requires n <= |keys|
    ensures |DeleteEvents(st, keys)| == |keys| && DeleteEvents(st, keys)[..n] == DeleteEvents(st, keys[..n])
  {
    DeleteEventsAt(st, keys);
    if n < |keys| {
      DeleteEventsPrefix(st, keys[..|keys| - 1], n);
      assert keys[..|keys| - 1][..n] == keys[..n];
    } else {
      assert keys[..n] == keys;
    }
  }

  /** The watched keys a prefix deletion removes, in key order. */
  ghost function DeletedKeys(st: Store, p: string, prefix: string): seq<string> {
    Enumerate(set k | k in st && HasPrefix(k, p) && HasPrefix(k, prefix))
  }

  lemma DeletedKeysAreOrdered(st: Store, p: string, prefix: string)
    ensures Ordered(DeletedKeys(st, p, prefix))
    ensures forall k :: k in DeletedKeys(st, p, prefix) <==> k in st && HasPrefix(k, p) && HasPrefix(k, prefix)
  {
    EnumerateIsOrdered(set k | k in st && HasPrefix(k, p) && HasPrefix(k, prefix));
  }

  /** The events of one transaction under a watched prefix. */
  ghost function Batch(st: Store, t: Txn, r: nat, prefix: string): seq<Event> {
    match t
    case Put(k, v) => if HasPrefix(k, prefix) then [PutEvent(k, NewEntry(st, k, v, r), Lookup(st, k))] else []
    case Delete(k) => if k in st && HasPrefix(k, prefix) then [DeleteEvent(k, Some(st[k]))] else []
    case DeletePrefix(p) => DeleteEvents(st, DeletedKeys(st, p, prefix))
  }

  /** The events under a prefix with revisions in (from, to]. */
  ghost function Stream(h: Timeline, prefix: string, from: nat, to: nat): seq<Event>
    requires from <= to <= |h.log|
  {
    if from == to then []
    else Stream(h, prefix, from, to - 1) + Batch(h.stores[to - 1], h.log[to - 1], to, prefix)
  }

  // ---- Folding events into a map ----

  type View = map<string, string>

  function Apply(view: View, e: Event): View {
    match e
    case PutEvent(k, entry, _) => view[k := entry.value]
    case DeleteEvent(k, _) => view - {k}
  }

  function Replay(view: View, events: seq<Event>): View {
    if events == [] then view else Apply(Replay(view, events[..|events| - 1]), events[|events| - 1])
  }

  lemma {:induction false} ReplayConcat(view: View, a: seq<Event>, b: seq<Event>)
    ensures Replay(view, a + b) == Replay(Replay(view, a), b)
  {
    if b == [] {
      assert a + b == a;
    } else {
      ReplayConcat(view, a, b[..|b| - 1]);
      assert (a + b)[..|a + b| - 1] == a + b[..|b| - 1];
    }
  }

  /** The values under a prefix. */
  function Visible(st: Store, prefix: string): View {
    map k | k in st && HasPrefix(k, prefix) :: st[k].value
  }

  // ---- Changes of one key ----

  /** A transaction that changes a key. */
  predicate Touches(st: Store, t: Txn, k: string) {
    match t
    case Put(j, _) => j == k
    case Delete(j) => j == k && k in st
    case DeletePrefix(p) => k in st && HasPrefix(k, p)
  }

  /** The last revision up to `r` that changed a key; 0 if none did. */
  function LastChange(h: Timeline, k: string, r: nat): (q: nat)
    requires r <= |h.log|
    ensures q <= r
  {
    if r == 0 then 0
    else if Touches(h.stores[r - 1], h.log[r - 1], k) then r
    else LastChange(h, k, r - 1)
  }

  function ValueIn(st: Store, k: string): Option<string> {
    if k in st then Some(st[k].value) else None
  }

  lemma UntouchedByCommit(h: Timeline, r: nat, k: string)
    requires 0 < r <= |h.log| && !Touches(h.stores[r - 1], h.log[r - 1], k)
    ensures Lookup(h.stores[r], k) == Lookup(h.stores[r - 1], k)
  {
    assert Commits(h, r - 1);
  }

  lemma {:induction false} UnchangedSince(h: Timeline, k: string, q: nat, r: nat)
    requires q <= r <= |h.log| && LastChange(h, k, r) <= q
    ensures Lookup(h.stores[q], k) == Lookup(h.stores[r], k)
    ensures LastChange(h, k, q) == LastChange(h, k, r)
  {
    if q < r {
      UnchangedSince(h, k, q, r - 1);
      UntouchedByCommit(h, r, k);
    }
  }

  /** What a batch says about one key: its new value if it is touched, nothing otherwise. */
  lemma BatchOnKey(st: Store, t: Txn, r: nat, prefix: string, view: View, k: string)
    requires HasPrefix(k, prefix)
    ensures Lookup(Replay(view, Batch(st, t, r, prefix)), k) ==
            if Touches(st, t, k) then ValueIn(Commit(st, t, r), k) else Lookup(view, k)
  {
    match t
    case Put(_, _) =>
      if HasPrefix(t.key, prefix) {
        ReplayOne(view, Batch(st, t, r, prefix)[0]);
      }
    case Delete(_) =>
      if t.key in st && HasPrefix(t.key, prefix) {
        ReplayOne(view, Batch(st, t, r, prefix)[0]);
      }
    case DeletePrefix(p) =>
      var keys := DeletedKeys(st, p, prefix);
      DeletedKeysAreOrdered(st, p, prefix);
      ReplayDeletes(st, view, keys, k);
  }

  lemma ReplayOne(view: View, e: Event)
    ensures Replay(view, [e]) == Apply(view, e)
  {
    assert [e][..0] == [];
  }

  lemma {:induction false} ReplayDeletes(st: Store, view: View, keys: seq<string>, k: string)
    ensures Lookup(Replay(view, DeleteEvents(st, keys)), k) == if k in keys then None else Lookup(view, k)
  {
    if keys != [] {
      var n := |keys| - 1;
      ReplayDeletes(st, view, keys[..n], k);
      DeleteEventsPrefix(st, keys, n);
    }
  }

  lemma LastBatchOnKey(h: Timeline, r: nat, prefix: string, view: View, before: seq<Event>, k: string)
    requires 0 < r <= |h.log| && HasPrefix(k, prefix)
    ensures Lookup(Replay(view, before + Batch(h.stores[r - 1], h.log[r - 1], r, prefix)), k) ==
            if Touches(h.stores[r - 1], h.log[r - 1], k) then ValueIn(h.stores[r], k) else Lookup(Replay(view, before), k)
  {
    var batch := Batch(h.stores[r - 1], h.log[r - 1], r, prefix);
    ReplayConcat(view, before, batch);
    BatchOnKey(h.stores[r - 1], h.log[r - 1], r, prefix, Replay(view, before), k);
    assert Commits(h, r - 1);
  }

  /** Replaying a stretch of the history onto any view updates exactly the keys that changed in it. */
  lemma {:induction false} StreamOnKey(h: Timeline, prefix: string, from: nat, to: nat, view: View, k: string)
    requires from <= to <= |h.log| && HasPrefix(k, prefix)
    ensures Lookup(Replay(view, Stream(h, prefix, from, to)), k) ==
            if LastChange(h, k, to) > from then ValueIn(h.stores[to], k) else Lookup(view, k)
  {
    if from < to {
      StreamOnKey(h, prefix, from, to - 1, view, k);
      LastBatchOnKey(h, to, prefix, view, Stream(h, prefix, from, to - 1), k);
      if !Touches(h.stores[to - 1], h.log[to - 1], k) {
        UntouchedByCommit(h, to, k);
      }
    }
  }

  /** Keys outside the prefix are never mentioned. */
  lemma {:induction false} StreamStaysUnderPrefix(h: Timeline, prefix: string, from: nat, to: nat)
    requires from <= to <= |h.log|
    ensures forall i | 0 <= i < |Stream(h, prefix, from, to)| :: HasPrefix(Stream(h, prefix, from, to)[i].key, prefix)
  {
    if from < to {
      StreamStaysUnderPrefix(h, prefix, from, to - 1);
      BatchStaysUnderPrefix(h.stores[to - 1], h.log[to - 1], to, prefix);
    }
  }

  lemma BatchStaysUnderPrefix(st: Store, t: Txn, r: nat, prefix: string)
    ensures forall i | 0 <= i < |Batch(st, t, r, prefix)| :: HasPrefix(Batch(st, t, r, prefix)[i].key, prefix)
  {
    if t.DeletePrefix? {
      var keys := DeletedKeys(st, t.prefix, prefix);
      DeletedKeysAreOrdered(st, t.prefix, prefix);
      DeleteEventsAt(st, keys);
      forall i | 0 <= i < |keys| ensures HasPrefix(keys[i], prefix) {
        assert keys[i] in keys;
      }
    }
  }

  lemma {:induction false} ReplayOutside(view: View, events: seq<Event>, k: string)
    requires forall i | 0 <= i < |events| :: events[i].key != k
    ensures Lookup(Replay(view, events), k) == Lookup(view, k)
  {
    if events != [] {
      ReplayOutside(view, events[..|events| - 1], k);
    }
  }

  lemma SameLookupsSameView(a: View, b: View)
    requires forall k :: Lookup(a, k) == Lookup(b, k)
    ensures a == b
  {
    forall k ensures k in a <==> k in b {
      assert Lookup(a, k) == Lookup(b, k);
    }
    forall k | k in a ensures a[k] == b[k] {
      assert Lookup(a, k) == Lookup(b, k);
    }
  }

  /** From an exact view, the watch leads to an exact view. */
  lemma ReplayIsExact(h: Timeline, prefix: string, from: nat, to: nat)
    requires from <= to <= |h.log|
    ensures Replay(Visible(h.stores[from], prefix), Stream(h, prefix, from, to)) == Visible(h.stores[to], prefix)
  {
    var view := Visible(h.stores[from], prefix);
    var events := Stream(h, prefix, from, to);
    forall k ensures Lookup(Replay(view, events), k) == Lookup(Visible(h.stores[to], prefix), k) {
      if HasPrefix(k, prefix) {
        StreamOnKey(h, prefix, from, to, view, k);
        if LastChange(h, k, to) <= from {
          UnchangedSince(h, k, from, to);
        }
      } else {
        StreamStaysUnderPrefix(h, prefix, from, to);
        ReplayOutside(view, events, k);
      }
    }
    SameLookupsSameView(Replay(view, events), Visible(h.stores[to], prefix));
  }
}
