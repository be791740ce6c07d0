/**
 ListWatch as a replication protocol (pkg/listwatch/listwatch.go). A session lists
 the prefix at one revision, asks for the revision again to start the watch, and
 delivers the watch events until it fails; then the next session lists anew. A
 consumer folds every event it receives into one map that it never clears.
 */
module Sessions {
  import opened Wrappers
  import opened Api
  import opened KeyOrder
  import opened History
  import opened Watchers

  // ---- The list ----

  /** One key-value pair of a range read. */
  datatype Pair = Pair(key: string, entry: Entry)

  /** The live keys under a prefix, in key order. */
  ghost function KeysUnder(st: Store, prefix: string): seq<string> {
    Enumerate(set k | k in st && HasPrefix(k, prefix))
  }

  lemma KeysUnderAreOrdered(st: Store, prefix: string)
    ensures Ordered(KeysUnder(st, prefix))
    ensures forall k :: k in KeysUnder(st, prefix) <==> k in st && HasPrefix(k, prefix)
  {
    EnumerateIsOrdered(set k | k in st && HasPrefix(k, prefix));
  }

  /** etcd's answer to a range read under a prefix: the live keys in order, with their entries. */
  ghost predicate Answers(kvs: seq<Pair>, st: Store, prefix: string) {
    && |kvs| == |KeysUnder(st, prefix)|
    && forall i | 0 <= i < |kvs| ::
         kvs[i].key == KeysUnder(st, prefix)[i] && kvs[i].key in st && kvs[i].entry == st[kvs[i].key]
  }

  function Listed(kv: Pair, prefix: string): LwEvent {
    LwEvent(KindOf(kv.entry), kv.key, kv.entry.value, prefix)
  }

  method List(kvs: seq<Pair>, prefix: string) returns (events: seq<LwEvent>)
    ensures |events| == |kvs| && forall i | 0 <= i < |kvs| :: events[i] == Listed(kvs[i], prefix)
    ensures forall i | 0 <= i < |kvs| :: (events[i].kind == Added <==> kvs[i].entry.create == kvs[i].entry.mod)
    ensures forall i | 0 <= i < |kvs| :: events[i].kind != Deleted && events[i].kind != Error
  {
    events := [];
    for i := 0 to |kvs|
      invariant |events| == i && forall j | 0 <= j < i :: events[j] == Listed(kvs[j], prefix)
    {
      var kind := Added;
      if kvs[i].entry.create != kvs[i].entry.mod {
        kind := Modified;
      }
      events := events + [LwEvent(kind, kvs[i].key, kvs[i].entry.value, prefix)];
    }
  }

  // ---- The consumer ----

  /** What a consumer does with an event; Error events carry no key and change nothing. */
  function Consume(view: View, e: LwEvent): View {
    match e.kind
    case Added => view[e.key := e.value]
    case Modified => view[e.key := e.value]
    case Deleted => view - {e.key}
    case Error => view
  }

  function Fold(view: View, events: seq<LwEvent>): View {
    if events == [] then view else Consume(Fold(view, events[..|events| - 1]), events[|events| - 1])
  }

  lemma {:induction false} FoldIsReplay(view: View, events: seq<Event>, prefix: string)
    ensures Fold(view, ToLwAll(events, prefix)) == Replay(view, events)
  {
    if events != [] {
      var n := |events| - 1;
      FoldIsReplay(view, events[..n], prefix);
      assert ToLwAll(events, prefix)[..n] == ToLwAll(events[..n], prefix);
    }
  }

  /** Folding listed events puts their keys into the view and keeps every other key. */
  lemma {:induction false} FoldListed(view: View, keys: seq<string>, events: seq<LwEvent>, st: Store, k: string)
    requires |events| == |keys|
    requires forall i | 0 <= i < |keys| ::
               keys[i] in st && events[i].key == keys[i] && events[i].value == st[keys[i]].value &&
               (events[i].kind == Added || events[i].kind == Modified)
    ensures Lookup(Fold(view, events), k) == if k in keys then Some(st[k].value) else Lookup(view, k)
  {
    if events != [] {
      var n := |events| - 1;
      FoldListed(view, keys[..n], events[..n], st, k);
      assert keys == keys[..n] + [keys[n]];
    }
  }

  /** The keys of a list but for the last `missing` ones. */
  ghost function ListedKeys(st: Store, prefix: string, missing: nat): seq<string>
    requires missing <= |KeysUnder(st, prefix)|
  {
    KeysUnder(st, prefix)[..|KeysUnder(st, prefix)| - missing]
  }

  /** What a list puts into a view, but for its last `missing` events. */
  ghost function ListedView(st: Store, prefix: string, missing: nat): View
    requires missing <= |KeysUnder(st, prefix)|
  {
    map k | k in ListedKeys(st, prefix, missing) && k in st :: st[k].value
  }

  lemma ListedViewAt(st: Store, prefix: string, missing: nat, k: string)
    requires missing <= |KeysUnder(st, prefix)|
    ensures Lookup(ListedView(st, prefix, missing), k) ==
            if k in ListedKeys(st, prefix, missing) then ValueIn(st, k) else None
    ensures k in ListedKeys(st, prefix, missing) ==> k in st && HasPrefix(k, prefix)
    ensures missing == 0 && HasPrefix(k, prefix) ==> (k in ListedKeys(st, prefix, missing) <==> k in st)
  {
    KeysUnderAreOrdered(st, prefix);
    if k in ListedKeys(st, prefix, missing) {
      assert k in KeysUnder(st, prefix);
    }
    if missing == 0 {
      assert ListedKeys(st, prefix, missing) == KeysUnder(st, prefix);
    }
  }

  lemma WholeListIsVisible(st: Store, prefix: string)
    ensures ListedView(st, prefix, 0) == Visible(st, prefix)
  {
    KeysUnderAreOrdered(st, prefix);
    assert ListedKeys(st, prefix, 0) == KeysUnder(st, prefix);
  }

  /** A list, as far as it was received, overrides the view with the store under the prefix and removes nothing. */
  lemma FoldOfList(view: View, kvs: seq<Pair>, events: seq<LwEvent>, st: Store, prefix: string, missing: nat)
    requires Answers(kvs, st, prefix) && missing <= |kvs|
    requires |events| == |kvs| && forall i | 0 <= i < |kvs| :: events[i] == Listed(kvs[i], prefix)
    ensures Fold(view, events[..|kvs| - missing]) == view + ListedView(st, prefix, missing)
  {
    var keys, part := ListedKeys(st, prefix, missing), events[..|kvs| - missing];
    forall k ensures Lookup(Fold(view, part), k) == Lookup(view + ListedView(st, prefix, missing), k) {
      FoldListed(view, keys, part, st, k);
      ListedViewAt(st, prefix, missing, k);
    }
    SameLookupsSameView(Fold(view, part), view + ListedView(st, prefix, missing));
  }

  // ---- Sessions ----

  /**
   One session: listed at `list`, watched from after `start`, delivered every event
   up to revision `end` and the first `extra` events of the one after it. If some events of
   the list itself are missing, nothing was delivered after it.
   */
  datatype Session = Session(list: nat, start: nat, end: nat, extra: nat, missing: nat := 0)

  ghost function NextBatch(h: Timeline, prefix: string, r: nat): seq<Event> {
    if r < |h.log| then Batch(h.stores[r], h.log[r], r + 1, prefix) else []
  }

  ghost predicate ValidSession(h: Timeline, prefix: string, s: Session) {
    && s.list <= s.start <= s.end <= |h.log|
    && s.extra <= |NextBatch(h, prefix, s.end)|
    && s.missing <= |KeysUnder(h.stores[s.list], prefix)|
    && (s.missing > 0 ==> s.list == s.start == s.end && s.extra == 0)
  }

  /** The revision a session has touched: no later list can be older. */
  function Reached(s: Session): nat {
    if s.extra > 0 then s.end + 1 else s.end
  }

  ghost function Delivered(h: Timeline, prefix: string, s: Session): seq<Event>
    requires ValidSession(h, prefix, s)
  {
    Stream(h, prefix, s.start, s.end) + NextBatch(h, prefix, s.end)[..s.extra]
  }

  function Flat<T>(batches: seq<seq<T>>, from: nat, to: nat): seq<T>
    requires from <= to <= |batches|
  {
    if from == to then [] else Flat(batches, from, to - 1) + batches[to - 1]
  }

  lemma {:induction false} CutFlat<T>(batches: seq<seq<T>>, from: nat, to: nat, n: nat) returns (end: nat, extra: nat)
    requires from <= to <= |batches| && n <= |Flat(batches, from, to)|
    ensures from <= end <= to && extra <= (if end < to then |batches[end]| else 0)
    ensures Flat(batches, from, to)[..n] == Flat(batches, from, end) + if end < to then batches[end][..extra] else []
  {
    var all := Flat(batches, from, to);
    if n == |all| {
      end, extra := to, 0;
      assert all[..n] == all;
    } else {
      var before := Flat(batches, from, to - 1);
      if n <= |before| {
        end, extra := CutFlat(batches, from, to - 1, n);
        assert all[..n] == before[..n];
        assert end == to - 1 ==> batches[end][..extra] == [];
      } else {
        end, extra := to - 1, n - |before|;
      }
    }
  }

  ghost predicate AreBatches(batches: seq<seq<Event>>, h: Timeline, prefix: string) {
    |batches| == |h.log| && forall i {:trigger batches[i]} | 0 <= i < |h.log| :: batches[i] == NextBatch(h, prefix, i)
  }

  lemma LastBatch(h: Timeline, prefix: string, from: nat, to: nat)
    requires from < to <= |h.log|
    ensures Stream(h, prefix, from, to) == Stream(h, prefix, from, to - 1) + NextBatch(h, prefix, to - 1)
  {
  }

  lemma {:induction false} StreamIsFlat(h: Timeline, prefix: string, batches: seq<seq<Event>>, from: nat, to: nat)
    requires from <= to <= |h.log| == |batches|
    ensures AreBatches(batches, h, prefix) ==> Stream(h, prefix, from, to) == Flat(batches, from, to)
  {
    if from < to {
      StreamIsFlat(h, prefix, batches, from, to - 1);
      LastBatch(h, prefix, from, to);
      var batch := NextBatch(h, prefix, to - 1);
      assert AreBatches(batches, h, prefix) ==> batches[to - 1] == batch;
    }
  }

  /** Every way of cutting a watch stream short is a session end. */
  lemma EveryCutIsASession(h: Timeline, prefix: string, list: nat, start: nat, to: nat, n: nat) returns (s: Session)
    requires list <= start <= to <= |h.log| && n <= |Stream(h, prefix, start, to)|
    ensures s.list == list && s.start == start && s.missing == 0 && Reached(s) <= to
    ensures ValidSession(h, prefix, s) && Delivered(h, prefix, s) == Stream(h, prefix, start, to)[..n]
  {
    var batches := seq(|h.log|, i requires 0 <= i < |h.log| => NextBatch(h, prefix, i));
    StreamIsFlat(h, prefix, batches, start, to);
    var end, extra := CutFlat(batches, start, to, n);
    StreamIsFlat(h, prefix, batches, start, end);
    s := Session(list, start, end, extra);
    assert end < to ==> batches[end] == NextBatch(h, prefix, end);
  }

  /** The view after a session, from the view before it. */
  ghost function AfterSession(h: Timeline, prefix: string, view: View, s: Session): View
    requires ValidSession(h, prefix, s)
  {
    Replay(view + ListedView(h.stores[s.list], prefix, s.missing), Delivered(h, prefix, s))
  }

  /** The same on the wire: the view is what the consumer folds out of the listed and the forwarded events. */
  lemma SessionOnTheWire(h: Timeline, prefix: string, view: View, s: Session, kvs: seq<Pair>, listed: seq<LwEvent>,
                         part: seq<LwEvent>, events: seq<Event>)
    requires ValidSession(h, prefix, s) && Answers(kvs, h.stores[s.list], prefix)
    requires |listed| == |kvs| && forall i | 0 <= i < |kvs| :: listed[i] == Listed(kvs[i], prefix)
    requires part == listed[..|kvs| - s.missing] && events == Delivered(h, prefix, s)
    ensures Fold(Fold(view, part), ToLwAll(events, prefix)) == AfterSession(h, prefix, view, s)
  {
    FoldOfList(view, kvs, listed, h.stores[s.list], prefix, s.missing);
    FoldIsReplay(Fold(view, part), events, prefix);
  }

  // ---- One session ----

  ghost predicate Drained(h: Timeline, s: Session) {
    s.list <= s.start <= s.end <= |h.log| && s.extra == 0 && s.missing == 0
  }

  lemma DrainedSession(h: Timeline, prefix: string, view: View, s: Session)
    requires Drained(h, s)
    ensures AfterSession(h, prefix, view, s) == Replay(view + Visible(h.stores[s.list], prefix), Stream(h, prefix, s.start, s.end))
  {
    WholeListIsVisible(h.stores[s.list], prefix);
    assert Delivered(h, prefix, s) == Stream(h, prefix, s.start, s.end);
  }

  /** Exactly what a drained session makes of one key. */
  lemma SessionOnKey(h: Timeline, prefix: string, view: View, s: Session, k: string)
    requires Drained(h, s) && HasPrefix(k, prefix)
    ensures Lookup(AfterSession(h, prefix, view, s), k) ==
            if LastChange(h, k, s.end) > s.start then ValueIn(h.stores[s.end], k)
            else if k in h.stores[s.list] then ValueIn(h.stores[s.list], k)
            else Lookup(view, k)
  {
    DrainedSession(h, prefix, view, s);
    StreamOnKey(h, prefix, s.start, s.end, view + Visible(h.stores[s.list], prefix), k);
  }

  lemma DeliveredStaysUnderPrefix(h: Timeline, prefix: string, s: Session)
    requires ValidSession(h, prefix, s)
    ensures forall i | 0 <= i < |Delivered(h, prefix, s)| :: HasPrefix(Delivered(h, prefix, s)[i].key, prefix)
  {
    StreamStaysUnderPrefix(h, prefix, s.start, s.end);
    if s.end < |h.log| {
      BatchStaysUnderPrefix(h.stores[s.end], h.log[s.end], s.end + 1, prefix);
    }
  }

  /** Keys outside the prefix are left alone by every session. */
  lemma SessionOutside(h: Timeline, prefix: string, view: View, s: Session, k: string)
    requires ValidSession(h, prefix, s) && !HasPrefix(k, prefix)
    ensures Lookup(AfterSession(h, prefix, view, s), k) == Lookup(view, k)
  {
    var listed, events := view + ListedView(h.stores[s.list], prefix, s.missing), Delivered(h, prefix, s);
    DeliveredStaysUnderPrefix(h, prefix, s);
    OverlayAt(view, h.stores[s.list], prefix, s.missing, k);
    ReplayOutside(listed, events, k);
  }

  /** The window of revisions that neither the list nor the watch reports. */
  predicate InWindow(q: nat, s: Session) {
    s.list < q <= s.start
  }

  /** From an empty map, the view is right on every key whose last change is outside the window. */
  lemma OneSession(h: Timeline, prefix: string, s: Session, k: string)
    requires Drained(h, s)
    requires HasPrefix(k, prefix) ==> !InWindow(LastChange(h, k, s.end), s)
    ensures Lookup(AfterSession(h, prefix, map[], s), k) == Lookup(Visible(h.stores[s.end], prefix), k)
  {
    if HasPrefix(k, prefix) {
      SessionOnKey(h, prefix, map[], s, k);
      if LastChange(h, k, s.end) <= s.list {
        UnchangedSince(h, k, s.list, s.end);
      }
    } else {
      SessionOutside(h, prefix, map[], s, k);
    }
  }

  /** On a key whose last change is in the window, the view shows the listed value. */
  lemma WindowShowsTheList(h: Timeline, prefix: string, s: Session, k: string)
    requires Drained(h, s) && HasPrefix(k, prefix) && InWindow(LastChange(h, k, s.end), s)
    ensures Lookup(AfterSession(h, prefix, map[], s), k) == ValueIn(h.stores[s.list], k)
  {
    SessionOnKey(h, prefix, map[], s, k);
  }

  // ---- Exactly when the view is the store ----

  ghost predicate Under(view: View, prefix: string) {
    forall k | k in view :: HasPrefix(k, prefix)
  }

  /**
   A session, on top of any view, ends with the store exactly when every key that the watch
   does not report had its right value in the view once the list was folded into it.
   */
  lemma SessionExactWhen(h: Timeline, prefix: string, view: View, s: Session)
    requires Drained(h, s) && Under(view, prefix)
    ensures AfterSession(h, prefix, view, s) == Visible(h.stores[s.end], prefix) <==>
            forall k | HasPrefix(k, prefix) && LastChange(h, k, s.end) <= s.start ::
              Lookup(view + Visible(h.stores[s.list], prefix), k) == ValueIn(h.stores[s.start], k)
  {
    var after, store := AfterSession(h, prefix, view, s), Visible(h.stores[s.end], prefix);
    forall k | HasPrefix(k, prefix) && LastChange(h, k, s.end) <= s.start
      ensures Lookup(after, k) == Lookup(view + Visible(h.stores[s.list], prefix), k)
      ensures ValueIn(h.stores[s.start], k) == ValueIn(h.stores[s.end], k)
    {
      SessionOnKey(h, prefix, view, s, k);
      UnchangedSince(h, k, s.start, s.end);
    }
    if forall k | HasPrefix(k, prefix) && LastChange(h, k, s.end) <= s.start ::
        Lookup(view + Visible(h.stores[s.list], prefix), k) == ValueIn(h.stores[s.start], k)
    {
      forall k ensures Lookup(after, k) == Lookup(store, k) {
        if !HasPrefix(k, prefix) {
          SessionOutside(h, prefix, view, s, k);
        } else if LastChange(h, k, s.end) > s.start {
          SessionOnKey(h, prefix, view, s, k);
        }
      }
      SameLookupsSameView(after, store);
    }
  }

  /** It ends with the store at every drained revision exactly when the view with the list is what the second read saw. */
  lemma SessionAlwaysExactWhen(h: Timeline, prefix: string, view: View, list: nat, start: nat)
    requires list <= start <= |h.log| && Under(view, prefix)
    ensures (forall r | start <= r <= |h.log| ::
               AfterSession(h, prefix, view, Session(list, start, r, 0)) == Visible(h.stores[r], prefix)) <==>
            view + Visible(h.stores[list], prefix) == Visible(h.stores[start], prefix)
  {
    if view + Visible(h.stores[list], prefix) == Visible(h.stores[start], prefix) {
      forall r | start <= r <= |h.log|
        ensures AfterSession(h, prefix, view, Session(list, start, r, 0)) == Visible(h.stores[r], prefix)
      {
        DrainedSession(h, prefix, view, Session(list, start, r, 0));
        ReplayIsExact(h, prefix, start, r);
      }
    }
    DrainedSession(h, prefix, view, Session(list, start, start, 0));
  }

  /** The view of one session is the store under the prefix. */
  ghost predicate Exact(h: Timeline, prefix: string, s: Session)
    requires Drained(h, s)
  {
    AfterSession(h, prefix, map[], s) == Visible(h.stores[s.end], prefix)
  }

  /** A first session is exact if and only if no key last changed in the window differs from its listed value. */
  lemma ExactWhen(h: Timeline, prefix: string, s: Session)
    requires Drained(h, s)
    ensures Exact(h, prefix, s) <==>
            forall k | HasPrefix(k, prefix) && InWindow(LastChange(h, k, s.end), s) ::
              ValueIn(h.stores[s.list], k) == ValueIn(h.stores[s.end], k)
  {
    SessionExactWhen(h, prefix, map[], s);
    forall k | HasPrefix(k, prefix) && LastChange(h, k, s.end) <= s.start
      ensures Lookup(map[] + Visible(h.stores[s.list], prefix), k) == ValueIn(h.stores[s.list], k)
      ensures ValueIn(h.stores[s.start], k) == ValueIn(h.stores[s.end], k)
      ensures LastChange(h, k, s.end) <= s.list ==> ValueIn(h.stores[s.list], k) == ValueIn(h.stores[s.end], k)
    {
      UnchangedSince(h, k, s.start, s.end);
      if LastChange(h, k, s.end) <= s.list {
        UnchangedSince(h, k, s.list, s.end);
      }
    }
  }

  /** At every drained revision: exact if and only if the two reads saw the same values under the prefix. */
  lemma AlwaysExactWhen(h: Timeline, prefix: string, list: nat, start: nat)
    requires list <= start <= |h.log|
    ensures (forall r | start <= r <= |h.log| :: Exact(h, prefix, Session(list, start, r, 0))) <==>
            Visible(h.stores[list], prefix) == Visible(h.stores[start], prefix)
  {
    SessionAlwaysExactWhen(h, prefix, map[], list, start);
    assert map[] + Visible(h.stores[list], prefix) == Visible(h.stores[list], prefix);
    assert forall r | start <= r <= |h.log| ::
        Exact(h, prefix, Session(list, start, r, 0)) <==>
        AfterSession(h, prefix, map[], Session(list, start, r, 0)) == Visible(h.stores[r], prefix);
  }

  lemma EqualReadsAreExact(h: Timeline, prefix: string, s: Session)
    requires Drained(h, s) && Visible(h.stores[s.list], prefix) == Visible(h.stores[s.start], prefix)
    ensures Exact(h, prefix, s)
  {
    assert map[] + Visible(h.stores[s.list], prefix) == Visible(h.stores[s.start], prefix);
    DrainedSession(h, prefix, map[], s);
    ReplayIsExact(h, prefix, s.start, s.end);
  }

  /** Before the first watch event the view is what was listed. */
  lemma FirstDrainedView(h: Timeline, prefix: string, list: nat, start: nat)
    requires list <= start <= |h.log|
    ensures AfterSession(h, prefix, map[], Session(list, start, start, 0)) == Visible(h.stores[list], prefix)
  {
    DrainedSession(h, prefix, map[], Session(list, start, start, 0));
    assert map[] + Visible(h.stores[list], prefix) == Visible(h.stores[list], prefix);
  }

  /** No change under the prefix between the two reads: exact at every drained revision. */
  lemma QuietWindowIsExact(h: Timeline, prefix: string, s: Session)
    requires Drained(h, s)
    requires forall k | HasPrefix(k, prefix) :: LastChange(h, k, s.start) <= s.list
    ensures Exact(h, prefix, s)
  {
    var a, b := Visible(h.stores[s.list], prefix), Visible(h.stores[s.start], prefix);
    forall k ensures Lookup(a, k) == Lookup(b, k) {
      if HasPrefix(k, prefix) {
        UnchangedSince(h, k, s.list, s.start);
      }
    }
    SameLookupsSameView(a, b);
    EqualReadsAreExact(h, prefix, s);
  }

  /** A watch from the listed revision, as the sequence diagram draws it, would always be exact. */
  lemma WatchFromTheListedRevisionIsExact(h: Timeline, prefix: string, s: Session)
    requires Drained(h, s) && s.start == s.list
    ensures Exact(h, prefix, s)
  {
    EqualReadsAreExact(h, prefix, s);
  }

  /** The smallest loss: a key put between the two reads stays missing. */
  lemma PutInTheWindowIsMissed(k: string, v: string)
    ensures var h := TimelineOf([Put(k, v)]);
            && k in h.stores[1]
            && k !in AfterSession(h, k, map[], Session(0, 1, 1, 0))
  {
    var h := TimelineOf([Put(k, v)]);
    assert Commits(h, 0);
    FirstDrainedView(h, k, 0, 1);
  }

  // ---- Many sessions ----

  /** Each session lists no earlier than what the one before it reached. */
  ghost predicate ValidRun(h: Timeline, prefix: string, ss: seq<Session>) {
    && (forall i | 0 <= i < |ss| :: ValidSession(h, prefix, ss[i]))
    && (forall i | 0 < i < |ss| :: Reached(ss[i - 1]) <= ss[i].list)
  }

  ghost function ViewAfter(h: Timeline, prefix: string, ss: seq<Session>): View
    requires ValidRun(h, prefix, ss)
  {
    if ss == [] then map[]
    else AfterSession(h, prefix, ViewAfter(h, prefix, ss[..|ss| - 1]), ss[|ss| - 1])
  }

  /** Revisions between what one session delivered and where the next one's watch starts. */
  predicate InGap(q: nat, ss: seq<Session>, i: nat)
    requires 0 < i < |ss|
  {
    ss[i - 1].end < q <= ss[i].start
  }

  /** Revisions whose deletions nobody reported: the first window, and the gaps between sessions. */
  ghost predicate Unreported(q: nat, ss: seq<Session>)
    requires ss != []
  {
    InWindow(q, ss[0]) || exists i: nat :: 0 < i < |ss| && InGap(q, ss, i)
  }

  // ---- Every view is a snapshot, key by key ----

  predicate Mentions(events: seq<Event>, k: string) {
    exists i | 0 <= i < |events| :: events[i].key == k
  }

  lemma MentionedDeletion(st: Store, keys: seq<string>, view: View, k: string)
    requires Mentions(DeleteEvents(st, keys), k)
    ensures k in keys && Lookup(Replay(view, DeleteEvents(st, keys)), k) == None
  {
    DeleteEventsAt(st, keys);
    ReplayDeletes(st, view, keys, k);
  }

  /** The delivered part of a batch: the new value of the keys it mentions, nothing about the others. */
  lemma PartOfABatch(st: Store, t: Txn, r: nat, prefix: string, n: nat, view: View, k: string)
    requires n <= |Batch(st, t, r, prefix)| && HasPrefix(k, prefix)
    ensures Lookup(Replay(view, Batch(st, t, r, prefix)[..n]), k) ==
            if Mentions(Batch(st, t, r, prefix)[..n], k) then ValueIn(Commit(st, t, r), k) else Lookup(view, k)
  {
    var batch := Batch(st, t, r, prefix);
    if !Mentions(batch[..n], k) {
      ReplayOutside(view, batch[..n], k);
    } else if t.DeletePrefix? {
      var keys := DeletedKeys(st, t.prefix, prefix);
      DeleteEventsAt(st, keys);
      DeleteEventsPrefix(st, keys, n);
      MentionedDeletion(st, keys[..n], view, k);
      DeletedKeysAreOrdered(st, t.prefix, prefix);
    } else {
      assert batch[..n] == [batch[0]];
      ReplayOne(view, batch[0]);
    }
  }

  lemma PartAfter(st: Store, t: Txn, r: nat, prefix: string, n: nat, view: View, before: seq<Event>, k: string)
    requires n <= |Batch(st, t, r, prefix)| && HasPrefix(k, prefix)
    ensures Lookup(Replay(view, before + Batch(st, t, r, prefix)[..n]), k) ==
            if Mentions(Batch(st, t, r, prefix)[..n], k) then ValueIn(Commit(st, t, r), k)
            else Lookup(Replay(view, before), k)
  {
    ReplayConcat(view, before, Batch(st, t, r, prefix)[..n]);
    PartOfABatch(st, t, r, prefix, n, Replay(view, before), k);
  }

  lemma CutOnKey(h: Timeline, prefix: string, r: nat, n: nat, view: View, before: seq<Event>, part: seq<Event>, k: string)
    requires r <= |h.log| && n <= |NextBatch(h, prefix, r)| && part == NextBatch(h, prefix, r)[..n] && HasPrefix(k, prefix)
    ensures Mentions(part, k) ==> r < |h.log| && Lookup(Replay(view, before + part), k) == ValueIn(h.stores[r + 1], k)
    ensures !Mentions(part, k) ==> Lookup(Replay(view, before + part), k) == Lookup(Replay(view, before), k)
  {
    if r < |h.log| {
      assert Commits(h, r);
      PartAfter(h.stores[r], h.log[r], r + 1, prefix, n, view, before, k);
    } else {
      assert before + part == before;
    }
  }

  /** The revision one session copies a key from; none if it leaves the key alone. */
  ghost function SessionSource(h: Timeline, prefix: string, s: Session, k: string): (r: Option<nat>)
    requires ValidSession(h, prefix, s)
    ensures r.Some? ==> s.list <= r.value <= Reached(s) && r.value <= |h.log|
  {
    if Mentions(NextBatch(h, prefix, s.end)[..s.extra], k) then Some(s.end + 1)
    else if LastChange(h, k, s.end) > s.start then Some(s.end)
    else if k in ListedKeys(h.stores[s.list], prefix, s.missing) then Some(s.list)
    else None
  }

  /** What the watch of a session does to one key, wherever it was cut. */
  lemma AnyWatchOnKey(h: Timeline, prefix: string, listed: View, s: Session, k: string)
    requires ValidSession(h, prefix, s) && HasPrefix(k, prefix)
    ensures Lookup(Replay(listed, Delivered(h, prefix, s)), k) ==
            if Mentions(NextBatch(h, prefix, s.end)[..s.extra], k) then ValueIn(h.stores[s.end + 1], k)
            else if LastChange(h, k, s.end) > s.start then ValueIn(h.stores[s.end], k)
            else Lookup(listed, k)
  {
    var before, part := Stream(h, prefix, s.start, s.end), NextBatch(h, prefix, s.end)[..s.extra];
    CutOnKey(h, prefix, s.end, s.extra, listed, before, part, k);
    if !Mentions(part, k) {
      StreamOnKey(h, prefix, s.start, s.end, listed, k);
    }
  }

  lemma OverlayAt(view: View, st: Store, prefix: string, missing: nat, k: string)
    requires missing <= |KeysUnder(st, prefix)|
    ensures Lookup(view + ListedView(st, prefix, missing), k) ==
            if k in ListedKeys(st, prefix, missing) then ValueIn(st, k) else Lookup(view, k)
    ensures !HasPrefix(k, prefix) ==> k !in ListedKeys(st, prefix, missing)
  {
    ListedViewAt(st, prefix, missing, k);
  }

  /** A session on one key, wherever it was cut. */
  lemma AnySessionOnKey(h: Timeline, prefix: string, view: View, s: Session, k: string, after: View)
    requires ValidSession(h, prefix, s) && HasPrefix(k, prefix) && after == AfterSession(h, prefix, view, s)
    ensures Lookup(after, k) ==
            match SessionSource(h, prefix, s, k)
            case Some(r) => ValueIn(h.stores[r], k)
            case None => Lookup(view, k)
  {
    var listed := view + ListedView(h.stores[s.list], prefix, s.missing);
    assert Lookup(listed, k) == if k in ListedKeys(h.stores[s.list], prefix, s.missing) then ValueIn(h.stores[s.list], k) else Lookup(view, k) by {
      OverlayAt(view, h.stores[s.list], prefix, s.missing, k);
    }
    AnyWatchOnKey(h, prefix, listed, s, k);
  }

  /** The revision whose store a key's entry in the view was copied from. */
  ghost function Source(h: Timeline, prefix: string, ss: seq<Session>, k: string): (r: nat)
    requires ValidRun(h, prefix, ss)
    ensures r <= |h.log|
  {
    if ss == [] then 0
    else match SessionSource(h, prefix, ss[|ss| - 1], k)
      case Some(r) => r
      case None => Source(h, prefix, ss[..|ss| - 1], k)
  }

  /** Whatever failed and wherever, every entry of the view is a value the store held, at one known revision. */
  lemma {:induction false} ViewIsASnapshotPerKey(h: Timeline, prefix: string, ss: seq<Session>, k: string)
    requires ValidRun(h, prefix, ss) && HasPrefix(k, prefix)
    ensures Lookup(ViewAfter(h, prefix, ss), k) == ValueIn(h.stores[Source(h, prefix, ss, k)], k)
  {
    if ss != [] {
      ViewIsASnapshotPerKey(h, prefix, ss[..|ss| - 1], k);
      AnySessionOnKey(h, prefix, ViewAfter(h, prefix, ss[..|ss| - 1]), ss[|ss| - 1], k, ViewAfter(h, prefix, ss));
    }
  }

  /** A consumer never sees a key go back in time. */
  lemma {:induction false} SourceAdvances(h: Timeline, prefix: string, ss: seq<Session>, k: string)
    requires ValidRun(h, prefix, ss) && ss != []
    ensures Source(h, prefix, ss[..|ss| - 1], k) <= Source(h, prefix, ss, k) <= Reached(ss[|ss| - 1])
  {
    if |ss| > 1 {
      SourceAdvances(h, prefix, ss[..|ss| - 1], k);
    }
  }

  // ---- Where the view and the store can differ ----

  /** A wrong value of a live key is confined to the current session's window. */
  lemma LiveValues(h: Timeline, prefix: string, ss: seq<Session>, k: string)
    requires ValidRun(h, prefix, ss) && ss != [] && Drained(h, ss[|ss| - 1])
    requires var r := ss[|ss| - 1].end; k in Visible(h.stores[r], prefix) && !InWindow(LastChange(h, k, r), ss[|ss| - 1])
    ensures Lookup(ViewAfter(h, prefix, ss), k) == Lookup(Visible(h.stores[ss[|ss| - 1].end], prefix), k)
  {
    var s := ss[|ss| - 1];
    SessionOnKey(h, prefix, ViewAfter(h, prefix, ss[..|ss| - 1]), s, k);
    if LastChange(h, k, s.end) <= s.list {
      UnchangedSince(h, k, s.list, s.end);
    }
  }

  /** A batch mentions only keys that its transaction touches. */
  lemma MentionedIsTouched(st: Store, t: Txn, r: nat, prefix: string, n: nat, k: string)
    requires n <= |Batch(st, t, r, prefix)| && Mentions(Batch(st, t, r, prefix)[..n], k)
    ensures Touches(st, t, k)
  {
    if t.DeletePrefix? {
      var keys := DeletedKeys(st, t.prefix, prefix);
      DeletedKeysAreOrdered(st, t.prefix, prefix);
      DeleteEventsAt(st, keys);
      var i :| 0 <= i < n && Batch(st, t, r, prefix)[..n][i].key == k;
      assert keys[i] in keys;
    }
  }

  /** A session copies a key that last changed by revision `end` from no later revision than that. */
  lemma UnchangedIsNotMentioned(h: Timeline, prefix: string, s: Session, k: string, r: nat)
    requires ValidSession(h, prefix, s) && Reached(s) <= r <= |h.log| && LastChange(h, k, r) <= s.end
    ensures !Mentions(NextBatch(h, prefix, s.end)[..s.extra], k)
  {
    if s.extra > 0 {
      UnchangedSince(h, k, s.end + 1, r);
      if Mentions(NextBatch(h, prefix, s.end)[..s.extra], k) {
        MentionedIsTouched(h.stores[s.end], h.log[s.end], s.end + 1, prefix, s.extra, k);
      }
    }
  }

  /**
   A key that a session leaves in the view although it is gone was deleted before the
   watch started, and was listed or already in the view.
   */
  lemma StaleKey(h: Timeline, prefix: string, view: View, s: Session, k: string, r: nat)
    requires ValidSession(h, prefix, s) && HasPrefix(k, prefix) && Reached(s) <= r <= |h.log|
    requires k !in h.stores[r] && LastChange(h, k, r) <= s.end
    ensures k in AfterSession(h, prefix, view, s) <==>
            LastChange(h, k, r) <= s.start && (k in ListedKeys(h.stores[s.list], prefix, s.missing) || k in view)
    ensures LastChange(h, k, r) <= s.list ==> k !in ListedKeys(h.stores[s.list], prefix, s.missing)
  {
    AnySessionOnKey(h, prefix, view, s, k, AfterSession(h, prefix, view, s));
    UnchangedIsNotMentioned(h, prefix, s, k, r);
    UnchangedSince(h, k, s.end, r);
    ListedViewAt(h.stores[s.list], prefix, s.missing, k);
    if LastChange(h, k, r) <= s.list {
      UnchangedSince(h, k, s.list, r);
    }
  }

  lemma RunPrefix(h: Timeline, prefix: string, ss: seq<Session>)
    requires ValidRun(h, prefix, ss) && ss != []
    ensures ValidRun(h, prefix, ss[..|ss| - 1])
    ensures forall q | |ss| > 1 && Unreported(q, ss[..|ss| - 1]) :: Unreported(q, ss)
  {
    var pre := ss[..|ss| - 1];
    forall q | |ss| > 1 && Unreported(q, pre) ensures Unreported(q, ss) {
      if !InWindow(q, pre[0]) {
        var i: nat :| 0 < i < |pre| && InGap(q, pre, i);
        assert InGap(q, ss, i);
      }
    }
  }

  /** Seen from any later revision: a key that is gone but in the view was deleted unreported, or after the last session. */
  lemma {:induction false} GhostKeySince(h: Timeline, prefix: string, ss: seq<Session>, k: string, r: nat)
    requires ValidRun(h, prefix, ss) && ss != [] && Reached(ss[|ss| - 1]) <= r <= |h.log|
    requires HasPrefix(k, prefix) && k in ViewAfter(h, prefix, ss) && k !in h.stores[r]
    ensures LastChange(h, k, r) > ss[|ss| - 1].end || Unreported(LastChange(h, k, r), ss)
  {
    var n, q := |ss| - 1, LastChange(h, k, r);
    var pre, s := ss[..n], ss[n];
    if q <= s.end {
      RunPrefix(h, prefix, ss);
      StaleKey(h, prefix, ViewAfter(h, prefix, pre), s, k, r);
      if n > 0 {
        if ss[n - 1].end < q {
          assert InGap(q, ss, n);
        } else {
          GhostKeySince(h, prefix, pre, k, r);
        }
      }
    }
  }

  /** A key in the view but not in the store was deleted in the first window or in a gap between two sessions. */
  lemma GhostKeys(h: Timeline, prefix: string, ss: seq<Session>, k: string)
    requires ValidRun(h, prefix, ss) && ss != [] && Drained(h, ss[|ss| - 1])
    requires k in ViewAfter(h, prefix, ss) && k !in Visible(h.stores[ss[|ss| - 1].end], prefix)
    ensures HasPrefix(k, prefix) && Unreported(LastChange(h, k, ss[|ss| - 1].end), ss)
  {
    ViewStaysUnderPrefix(h, prefix, ss, k);
    GhostKeySince(h, prefix, ss, k, ss[|ss| - 1].end);
  }

  lemma {:induction false} ViewStaysUnderPrefix(h: Timeline, prefix: string, ss: seq<Session>, k: string)
    requires ValidRun(h, prefix, ss) && k in ViewAfter(h, prefix, ss)
    ensures HasPrefix(k, prefix)
  {
    if ss != [] && !HasPrefix(k, prefix) {
      SessionOutside(h, prefix, ViewAfter(h, prefix, ss[..|ss| - 1]), ss[|ss| - 1], k);
      RunPrefix(h, prefix, ss);
      ViewStaysUnderPrefix(h, prefix, ss[..|ss| - 1], k);
    }
  }

  /** Without a change in any window or gap the view is exact, however many sessions failed before. */
  lemma ManySessions(h: Timeline, prefix: string, ss: seq<Session>)
    requires ValidRun(h, prefix, ss) && ss != [] && Drained(h, ss[|ss| - 1])
    requires var r := ss[|ss| - 1].end;
             forall k | HasPrefix(k, prefix) ::
               var q := LastChange(h, k, r);
               if k in h.stores[r] then !InWindow(q, ss[|ss| - 1]) else !Unreported(q, ss)
    ensures ViewAfter(h, prefix, ss) == Visible(h.stores[ss[|ss| - 1].end], prefix)
  {
    var view, store := ViewAfter(h, prefix, ss), Visible(h.stores[ss[|ss| - 1].end], prefix);
    forall k ensures Lookup(view, k) == Lookup(store, k) {
      if k in store {
        LiveValues(h, prefix, ss, k);
      } else if k in view {
        GhostKeys(h, prefix, ss, k);
      }
    }
    SameLookupsSameView(view, store);
  }

  /**
   After any run of sessions, however they were cut, one more drained session ends with the
   store exactly when every key that its watch does not report had its right value in the
   view once the list was folded into it.
   */
  lemma ManySessionsExactWhen(h: Timeline, prefix: string, ss: seq<Session>, s: Session)
    requires ValidRun(h, prefix, ss + [s]) && Drained(h, s) && ValidRun(h, prefix, ss)
    ensures ViewAfter(h, prefix, ss + [s]) == Visible(h.stores[s.end], prefix) <==>
            forall k | HasPrefix(k, prefix) && LastChange(h, k, s.end) <= s.start ::
              Lookup(ViewAfter(h, prefix, ss) + Visible(h.stores[s.list], prefix), k) == ValueIn(h.stores[s.start], k)
  {
    assert (ss + [s])[..|ss|] == ss;
    forall k | k in ViewAfter(h, prefix, ss) ensures HasPrefix(k, prefix) {
      ViewStaysUnderPrefix(h, prefix, ss, k);
    }
    SessionExactWhen(h, prefix, ViewAfter(h, prefix, ss), s);
  }

  /** A deletion between two sessions leaves the key in the view for good: the list reports no deletions. */
  lemma DeletionBetweenSessionsIsMissed(k: string, v: string)
    ensures var h, ss := TimelineOf([Put(k, v), Delete(k)]), [Session(1, 1, 1, 0), Session(2, 2, 2, 0)];
            && ValidRun(h, k, ss)
            && k !in h.stores[2]
            && k in ViewAfter(h, k, ss)
  {
    var h, ss := TimelineOf([Put(k, v), Delete(k)]), [Session(1, 1, 1, 0), Session(2, 2, 2, 0)];
    assert ss[..1] == [ss[0]] && ss[..1][..0] == [];
    assert Commits(h, 0) && Commits(h, 1);
    FirstDrainedView(h, k, 1, 1);
    assert k in ViewAfter(h, k, ss[..1]);
    assert LastChange(h, k, 2) == 2;
    SessionOnKey(h, k, ViewAfter(h, k, ss[..1]), ss[1], k);
  }
}
