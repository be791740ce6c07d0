/**
 The two translations of etcd events: ListWatch decides between Added and Modified
 by comparing revisions (pkg/listwatch/listwatch.go), EtcdStorage by the presence
 of a previous value (pkg/storage/etcd_storage.go).
 */
module Watchers {
  import opened Wrappers
  import opened Api
  import opened KeyOrder
  import opened History

  // ---- ListWatch ----

  datatype EventType = Added | Modified | Deleted | Error

  /** An event on a ListWatch channel; a deletion carries no value. */
  datatype LwEvent = LwEvent(kind: EventType, key: string, value: string, prefix: string)

  function KindOf(entry: Entry): EventType {
    if entry.create == entry.mod then Added else Modified
  }

  function ToLw(e: Event, prefix: string): LwEvent {
    match e
    case PutEvent(k, entry, _) => LwEvent(KindOf(entry), k, entry.value, prefix)
    case DeleteEvent(k, _) => LwEvent(Deleted, k, "", prefix)
  }

  function ToLwAll(events: seq<Event>, prefix: string): (r: seq<LwEvent>)
    ensures |r| == |events| && forall i | 0 <= i < |r| :: r[i] == ToLw(events[i], prefix)
  {
    seq(|events|, i requires 0 <= i < |events| => ToLw(events[i], prefix))
  }

  // ---- EtcdStorage ----

  datatype WatchType = Add | Update | Remove

  datatype WatchEvent = WatchEvent(kind: WatchType, key: string, value: string, oldValue: Option<string>)

  function ConvertEventType(e: Event): WatchType {
    match e
    case PutEvent(_, _, prev) => if prev.None? then Add else Update
    case DeleteEvent(_, _) => Remove
  }

  function ConvertToWatchEvent(e: Event): WatchEvent {
    WatchEvent(ConvertEventType(e), e.key, if e.PutEvent? then e.entry.value else "",
               if e.prev.Some? then Some(e.prev.value.value) else None)
  }

  // ---- Agreement ----

  predicate Matches(a: EventType, b: WatchType) {
    (a == Added && b == Add) || (a == Modified && b == Update) || (a == Deleted && b == Remove)
  }

  /** Creation revisions are positive and never later than modification revisions, which are never in the future. */
  predicate Dated(st: Store, r: nat) {
    forall k | k in st :: 0 < st[k].create <= st[k].mod <= r
  }

  lemma {:induction false} StoreIsDated(h: Timeline, r: nat)
    requires r <= |h.log|
    ensures Dated(h.stores[r], r)
  {
    if r > 0 {
      StoreIsDated(h, r - 1);
      assert Commits(h, r - 1);
    }
  }

  /** Creation and modification revision of a put coincide exactly when the key was absent. */
  lemma BatchIsClassified(st: Store, t: Txn, r: nat, prefix: string, i: nat)
    requires r > 0 && Dated(st, r - 1) && i < |Batch(st, t, r, prefix)|
    ensures var e := Batch(st, t, r, prefix)[i];
            && (e.PutEvent? ==> (e.entry.create == e.entry.mod <==> e.prev.None?))
            && Matches(ToLw(e, prefix).kind, ConvertEventType(e))
  {
    if t.DeletePrefix? {
      DeleteEventsAt(st, DeletedKeys(st, t.prefix, prefix));
    }
  }

  /** The two watchers agree on every event of every revision of every history. */
  lemma WatchersAgree(h: Timeline, prefix: string, r: nat, batch: seq<Event>, i: nat)
    requires 0 < r <= |h.log| && batch == Batch(h.stores[r - 1], h.log[r - 1], r, prefix) && i < |batch|
    ensures var e := batch[i];
            && (e.PutEvent? ==> (e.entry.create == e.entry.mod <==> e.prev.None?))
            && Matches(ToLw(e, prefix).kind, ConvertToWatchEvent(e).kind)
            && ToLw(e, prefix).key == ConvertToWatchEvent(e).key
            && ToLw(e, prefix).value == ConvertToWatchEvent(e).value
  {
    StoreIsDated(h, r - 1);
    BatchIsClassified(h.stores[r - 1], h.log[r - 1], r, prefix, i);
  }

  /** An event carries the value its key had before the transaction, and no earlier event of the batch is about that key. */
  lemma BatchCarriesOldValues(st: Store, t: Txn, r: nat, prefix: string, batch: seq<Event>, i: nat)
    requires batch == Batch(st, t, r, prefix) && i < |batch|
    ensures HasPrefix(batch[i].key, prefix) && ConvertToWatchEvent(batch[i]).oldValue == ValueIn(st, batch[i].key)
    ensures forall j | 0 <= j < i :: batch[..i][j].key != batch[i].key
  {
    BatchStaysUnderPrefix(st, t, r, prefix);
    if t.DeletePrefix? {
      var keys := DeletedKeys(st, t.prefix, prefix);
      DeletedKeysAreOrdered(st, t.prefix, prefix);
      DeleteEventsAt(st, keys);
      forall j | 0 <= j < i ensures batch[..i][j].key != batch[i].key {
        OrderedIsDistinct(keys, j, i);
      }
    }
  }

  lemma ReplayedValue(h: Timeline, prefix: string, from: nat, to: nat, view: View, k: string)
    requires from <= to <= |h.log| && view == Visible(h.stores[from], prefix) && HasPrefix(k, prefix)
    ensures Lookup(Replay(view, Stream(h, prefix, from, to)), k) == ValueIn(h.stores[to], k)
  {
    StreamOnKey(h, prefix, from, to, view, k);
    if LastChange(h, k, to) <= from {
      UnchangedSince(h, k, from, to);
    }
  }

  lemma PartlyReplayed(view: View, before: seq<Event>, part: seq<Event>, k: string)
    requires forall j | 0 <= j < |part| :: part[j].key != k
    ensures Lookup(Replay(view, before + part), k) == Lookup(Replay(view, before), k)
  {
    ReplayConcat(view, before, part);
    ReplayOutside(Replay(view, before), part, k);
  }

  /**
   The old value of every event of every revision is what a consumer holds that started
   from an exact view and has replayed everything before that event.
   */
  lemma OldValueIsReplayed(h: Timeline, prefix: string, from: nat, r: nat, view: View, before: seq<Event>, batch: seq<Event>, i: nat)
    requires from < r <= |h.log| && view == Visible(h.stores[from], prefix)
    requires before == Stream(h, prefix, from, r - 1)
    requires batch == Batch(h.stores[r - 1], h.log[r - 1], r, prefix) && i < |batch|
    ensures ConvertToWatchEvent(batch[i]).oldValue == Lookup(Replay(view, before + batch[..i]), batch[i].key)
  {
    var st, k := h.stores[r - 1], batch[i].key;
    BatchCarriesOldValues(st, h.log[r - 1], r, prefix, batch, i);
    assert Lookup(Replay(view, before), k) == ValueIn(st, k) by {
      ReplayedValue(h, prefix, from, r - 1, view, k);
    }
    PartlyReplayed(view, before, batch[..i], k);
  }
}
