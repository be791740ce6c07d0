/**
 From the pipeline to the replica: whatever a consumer has received of a session, with
 whatever Errors in between, is the view of a session that was cut short somewhere.
 */
module Replication {
  import opened History
  import opened Watchers
  import opened Sessions
  import opened Pipeline

  /** The events of a session under a non-empty prefix are all accepted by sendEvent. */
  lemma StreamIsForwardable(h: Timeline, prefix: string, from: nat, to: nat)
    requires from <= to <= |h.log| && prefix != ""
    ensures forall i | 0 <= i < |Stream(h, prefix, from, to)| ::
              var e := ToLwAll(Stream(h, prefix, from, to), prefix)[i]; e.kind != Error && Pipeline.Valid(e)
  {
    StreamStaysUnderPrefix(h, prefix, from, to);
  }

  lemma ListIsForwardable(kvs: seq<Pair>, listed: seq<LwEvent>, st: Store, prefix: string)
    requires Answers(kvs, st, prefix) && prefix != "" && |listed| == |kvs|
    requires forall i | 0 <= i < |kvs| :: listed[i] == Listed(kvs[i], prefix)
    ensures forall i | 0 <= i < |listed| :: listed[i].kind != Error && Pipeline.Valid(listed[i])
  {
    KeysUnderAreOrdered(st, prefix);
    forall i | 0 <= i < |listed| ensures listed[i].key != "" {
      assert kvs[i].key in KeysUnder(st, prefix);
    }
  }

  lemma {:induction false} FoldConcat(view: View, a: seq<LwEvent>, b: seq<LwEvent>)
    ensures Fold(view, a + b) == Fold(Fold(view, a), b)
  {
    if b == [] {
      assert a + b == a;
    } else {
      FoldConcat(view, a, b[..|b| - 1]);
      assert (a + b)[..|a + b| - 1] == a + b[..|b| - 1];
    }
  }

  lemma {:induction false} FoldIgnoresErrors(view: View, events: seq<LwEvent>)
    ensures Fold(view, Data(events)) == Fold(view, events)
  {
    if events != [] {
      var n := |events| - 1;
      FoldIgnoresErrors(view, events[..n]);
      if events[n].kind != Error {
        FoldConcat(view, Data(events[..n]), [events[n]]);
        FoldOne(Fold(view, events[..n]), events[n]);
      } else {
        assert Data(events) == Data(events[..n]);
      }
    }
  }

  lemma FoldOne(view: View, e: LwEvent)
    ensures Fold(view, [e]) == Sessions.Consume(view, e)
  {
    assert [e][..0] == [];
  }

  /**
   One session of the loop: its pipeline at the start, what happened, where it listed and
   started its watch, what etcd answered, and the revision etcd had when it ended.
   */
  datatype Life = Life(start: State, actions: seq<Action>, list: nat, from: nat, now: nat, kvs: seq<Pair>)

  ghost function End(l: Life, cap: nat): State {
    Run(l.start, l.actions, cap)
  }

  /** What was put into the consumer's channel by now. */
  function Sent(s: State): seq<LwEvent> {
    s.received + s.ch
  }

  /** Everything a life could ever have in the channel, Errors aside. */
  function Whole(l: Life): seq<LwEvent> {
    Data(Sent(l.start)) + (l.start.listing + l.start.unread)
  }

  ghost predicate ValidLife(l: Life, cap: nat, h: Timeline, prefix: string) {
    var s := l.start;
    && l.list <= l.from <= l.now <= |h.log| && Answers(l.kvs, h.stores[l.list], prefix)
    && |s.listing| == |l.kvs| && (forall i | 0 <= i < |l.kvs| :: s.listing[i] == Listed(l.kvs[i], prefix))
    && s.unread == ToLwAll(Stream(h, prefix, l.from, l.now), prefix)
    && s.reading && s.held.None? && s.watchCh == [] && s.forward.None? && s.phase == Forwarding && |s.ch| <= cap
  }

  lemma LifeStartsInit(l: Life, cap: nat, h: Timeline, prefix: string)
    requires ValidLife(l, cap, h, prefix) && prefix != ""
    ensures Init(l.start, cap)
  {
    StreamIsForwardable(h, prefix, l.from, l.now);
    ListIsForwardable(l.kvs, l.start.listing, h.stores[l.list], prefix);
  }

  /** Folding a prefix of three parts that covers the first two. */
  lemma FoldOfThree(p: seq<LwEvent>, a: seq<LwEvent>, b: seq<LwEvent>, c: seq<LwEvent>) returns (n: nat)
    requires p <= a + (b + c) && |p| >= |a| + |b|
    ensures n <= |c| && Fold(map[], p) == Fold(Fold(Fold(map[], a), b), c[..n])
  {
    n := |p| - |a| - |b|;
    assert p == (a + b) + c[..n];
    FoldConcat(map[], a + b, c[..n]);
    FoldConcat(map[], a, b);
  }

  /** Folding a prefix that ends inside the second part. */
  lemma FoldOfTwo(p: seq<LwEvent>, a: seq<LwEvent>, b: seq<LwEvent>, c: seq<LwEvent>) returns (n: nat)
    requires p <= a + (b + c) && |a| <= |p| < |a| + |b|
    ensures n < |b| && Fold(map[], p) == Fold(Fold(map[], a), b[..n])
  {
    n := |p| - |a|;
    assert p == a + b[..n];
    FoldConcat(map[], a, b[..n]);
  }

  /** A session that listed where a life did, started its watch there if it got that far, and ended by its end. */
  ghost predicate IsCutOf(x: Session, l: Life, h: Timeline, prefix: string) {
    && ValidSession(h, prefix, x)
    && x.list == l.list
    && (x.missing == 0 ==> x.start == l.from)
    && Reached(x) <= l.now
  }

  /** Folding what a session delivered, up to any cut after its list. */
  lemma CutAfterTheList(l: Life, cap: nat, h: Timeline, prefix: string, n: nat, view: View) returns (x: Session)
    requires ValidLife(l, cap, h, prefix) && n <= |l.start.unread|
    ensures IsCutOf(x, l, h, prefix) && x.missing == 0
    ensures Fold(Fold(view, l.start.listing), l.start.unread[..n]) == AfterSession(h, prefix, view, x)
  {
    var events := Stream(h, prefix, l.from, l.now);
    x := EveryCutIsASession(h, prefix, l.list, l.from, l.now, n);
    assert l.start.listing[..|l.kvs|] == l.start.listing;
    SessionOnTheWire(h, prefix, view, x, l.kvs, l.start.listing, l.start.listing, events[..n]);
    assert ToLwAll(events, prefix)[..n] == ToLwAll(events[..n], prefix);
  }

  /** The same for a cut inside the list. */
  lemma CutInsideTheList(l: Life, cap: nat, h: Timeline, prefix: string, n: nat, view: View) returns (x: Session)
    requires ValidLife(l, cap, h, prefix) && n < |l.start.listing|
    ensures IsCutOf(x, l, h, prefix) && Fold(view, l.start.listing[..n]) == AfterSession(h, prefix, view, x)
  {
    x := Session(l.list, l.list, l.list, 0, |l.kvs| - n);
    assert Delivered(h, prefix, x) == [];
    SessionOnTheWire(h, prefix, view, x, l.kvs, l.start.listing, l.start.listing[..n], []);
  }

  /** Whatever part of the line holds all that was sent before: folding it gives the view of a session that was cut. */
  lemma PrefixIsASession(l: Life, cap: nat, h: Timeline, prefix: string, part: seq<LwEvent>) returns (x: Session)
    requires ValidLife(l, cap, h, prefix)
    requires Data(part) <= Whole(l)
    requires |Data(part)| >= |Data(Sent(l.start))|
    ensures IsCutOf(x, l, h, prefix)
    ensures |Data(part)| >= |Data(Sent(l.start))| + |l.start.listing| ==> x.missing == 0
    ensures Fold(map[], part) == AfterSession(h, prefix, Fold(map[], Sent(l.start)), x)
  {
    var prior := Data(Sent(l.start));
    FoldIgnoresErrors(map[], Sent(l.start));
    FoldIgnoresErrors(map[], part);
    if |Data(part)| >= |prior| + |l.start.listing| {
      var n := FoldOfThree(Data(part), prior, l.start.listing, l.start.unread);
      x := CutAfterTheList(l, cap, h, prefix, n, Fold(map[], prior));
    } else {
      var n := FoldOfTwo(Data(part), prior, l.start.listing, l.start.unread);
      x := CutInsideTheList(l, cap, h, prefix, n, Fold(map[], prior));
    }
  }

  /** The whole list was put into the consumer's channel. */
  ghost predicate ListSent(l: Life, cap: nat) {
    End(l, cap).listing == []
  }

  /** What a life has sent is the view of a session, with its whole list once that is out. */
  lemma SentViewIsASession(l: Life, cap: nat, h: Timeline, prefix: string) returns (x: Session)
    requires prefix != "" && ValidLife(l, cap, h, prefix)
    ensures IsCutOf(x, l, h, prefix) && (ListSent(l, cap) ==> x.missing == 0)
    ensures Fold(map[], Sent(End(l, cap))) == AfterSession(h, prefix, Fold(map[], Sent(l.start)), x)
  {
    LifeStartsInit(l, cap, h, prefix);
    ReceivedIsAPrefix(l.start, l.actions, cap);
    RunSends(l.start, l.actions, cap);
    DataOfPrefix(Sent(l.start), Sent(End(l, cap)));
    if ListSent(l, cap) {
      ListWasSent(l.start, l.actions, cap);
    }
    x := PrefixIsASession(l, cap, h, prefix, Sent(End(l, cap)));
  }

  /** A life that ended because its watch failed had sent its list; only a cancellation can interrupt a list. */
  lemma FailedLifeSentItsList(l: Life, cap: nat, h: Timeline, prefix: string)
    requires prefix != "" && ValidLife(l, cap, h, prefix)
    ensures End(l, cap).phase == Broken ==> ListSent(l, cap)
  {
    LifeStartsInit(l, cap, h, prefix);
    FailureComesAfterTheList(l.start, l.actions, cap);
  }

  // ---- Many sessions ----

  /**
   Sessions one after the other on one channel: each lists after the one before ended and
   finds the channel as it left it.
   */
  ghost predicate Lives(ls: seq<Life>, cap: nat, h: Timeline, prefix: string) {
    forall i: nat | i < |ls| :: LifeAt(ls, i, cap, h, prefix)
  }

  ghost predicate LifeAt(ls: seq<Life>, i: nat, cap: nat, h: Timeline, prefix: string)
    requires i < |ls|
  {
    && ValidLife(ls[i], cap, h, prefix)
    && if i == 0 then Sent(ls[0].start) == [] else Follows(ls[i - 1], ls[i], cap)
  }

  ghost predicate Follows(before: Life, l: Life, cap: nat) {
    before.now <= l.list && Sent(l.start) == Sent(End(before, cap))
  }

  /** The sessions that the first of these lives amount to; a session before the last lacks a part of its list only if that was not sent. */
  ghost predicate Amounts(ss: seq<Session>, ls: seq<Life>, cap: nat, h: Timeline, prefix: string) {
    && |ss| <= |ls|
    && (forall i | 0 <= i < |ss| :: IsCutOf(ss[i], ls[i], h, prefix))
    && (forall i | 0 <= i < |ss| - 1 :: ListSent(ls[i], cap) ==> ss[i].missing == 0)
  }

  lemma OneMoreSession(h: Timeline, prefix: string, ss: seq<Session>, x: Session)
    requires ValidRun(h, prefix, ss) && ValidSession(h, prefix, x) && (ss != [] ==> Reached(ss[|ss| - 1]) <= x.list)
    ensures ValidRun(h, prefix, ss + [x])
    ensures ViewAfter(h, prefix, ss + [x]) == AfterSession(h, prefix, ViewAfter(h, prefix, ss), x)
  {
    var all := ss + [x];
    forall i | 0 < i < |all| ensures Reached(all[i - 1]) <= all[i].list {
      if i < |ss| {
        assert Reached(ss[i - 1]) <= ss[i].list;
      }
    }
    assert all[..|all| - 1] == ss;
  }

  lemma OneMoreAmounts(ss: seq<Session>, ls: seq<Life>, x: Session, cap: nat, h: Timeline, prefix: string)
    requires Amounts(ss, ls, cap, h, prefix) && |ss| < |ls| && IsCutOf(x, ls[|ss|], h, prefix)
    requires ss != [] && ListSent(ls[|ss| - 1], cap) ==> ss[|ss| - 1].missing == 0
    ensures Amounts(ss + [x], ls, cap, h, prefix)
  {
    var all := ss + [x];
    forall i | 0 <= i < |all| ensures IsCutOf(all[i], ls[i], h, prefix) {
      if i < |ss| {
        assert all[i] == ss[i];
      }
    }
    forall i | 0 <= i < |all| - 1 ensures ListSent(ls[i], cap) ==> all[i].missing == 0 {
      assert all[i] == ss[i];
    }
  }

  /** The sessions `ss` are what all that was sent before life number `n` amounts to. */
  ghost predicate Before(ss: seq<Session>, ls: seq<Life>, n: nat, cap: nat, h: Timeline, prefix: string)
    requires n < |ls|
  {
    && ValidRun(h, prefix, ss) && Amounts(ss, ls, cap, h, prefix) && |ss| == n
    && (ss != [] ==> Reached(ss[|ss| - 1]) <= ls[n].list && (ListSent(ls[|ss| - 1], cap) ==> ss[|ss| - 1].missing == 0))
    && Fold(map[], Sent(ls[n].start)) == ViewAfter(h, prefix, ss)
  }

  lemma OneMoreLife(ss: seq<Session>, ls: seq<Life>, n: nat, cap: nat, h: Timeline, prefix: string) returns (x: Session)
    requires prefix != "" && Lives(ls, cap, h, prefix) && n + 1 < |ls| && Before(ss, ls, n, cap, h, prefix)
    ensures Before(ss + [x], ls, n + 1, cap, h, prefix)
  {
    assert LifeAt(ls, n, cap, h, prefix) && LifeAt(ls, n + 1, cap, h, prefix);
    x := SentViewIsASession(ls[n], cap, h, prefix);
    OneMoreSession(h, prefix, ss, x);
    OneMoreAmounts(ss, ls, x, cap, h, prefix);
  }

  /** The view of the lives before number `n`. */
  lemma {:induction false} EarlierLives(ls: seq<Life>, n: nat, cap: nat, h: Timeline, prefix: string) returns (ss: seq<Session>)
    requires prefix != "" && Lives(ls, cap, h, prefix) && n < |ls|
    ensures Before(ss, ls, n, cap, h, prefix)
  {
    if n == 0 {
      assert LifeAt(ls, 0, cap, h, prefix);
      ss := [];
    } else {
      var earlier := EarlierLives(ls, n - 1, cap, h, prefix);
      var x := OneMoreLife(earlier, ls, n - 1, cap, h, prefix);
      ss := earlier + [x];
    }
  }

  /** A part of what life number `n` may send, behind everything that was sent before. */
  lemma PartOfOneLife(ls: seq<Life>, n: nat, cap: nat, h: Timeline, prefix: string, part: seq<LwEvent>) returns (ss: seq<Session>)
    requires prefix != "" && Lives(ls, cap, h, prefix) && n < |ls|
    requires Begins(Data(part), ls[n]) && |Data(part)| >= |Data(Sent(ls[n].start))|
    ensures ValidRun(h, prefix, ss) && Amounts(ss, ls, cap, h, prefix) && Fold(map[], part) == ViewAfter(h, prefix, ss)
  {
    assert LifeAt(ls, n, cap, h, prefix);
    var earlier := EarlierLives(ls, n, cap, h, prefix);
    var x := PrefixIsASession(ls[n], cap, h, prefix, part);
    OneMoreSession(h, prefix, earlier, x);
    OneMoreAmounts(earlier, ls, x, cap, h, prefix);
    ss := earlier + [x];
  }

  /** `d` is the data of an initial part of all that a life could send. */
  ghost predicate Begins(d: seq<LwEvent>, l: Life) {
    |d| <= |Whole(l)| && d == Whole(l)[..|d|]
  }

  lemma PrefixesAreNested<T>(p: seq<T>, a: seq<T>, b: seq<T>, c: seq<T>)
    requires p <= a + b && |p| < |a| && a <= c
    ensures p <= c
  {
  }

  lemma SentByLife(l: Life, cap: nat, h: Timeline, prefix: string)
    requires prefix != "" && ValidLife(l, cap, h, prefix)
    ensures Data(Sent(End(l, cap))) <= Whole(l)
    ensures Begins(Data(End(l, cap).received), l)
  {
    LifeStartsInit(l, cap, h, prefix);
    ReceivedIsAPrefix(l.start, l.actions, cap);
  }

  /** A part that does not reach the events of a life is a part of the life before. */
  lemma StillEarlier(before: Life, l: Life, cap: nat, h: Timeline, prefix: string, part: seq<LwEvent>)
    requires prefix != "" && ValidLife(before, cap, h, prefix) && Follows(before, l, cap)
    requires Begins(Data(part), l) && |Data(part)| < |Data(Sent(l.start))|
    ensures Begins(Data(part), before)
  {
    SentByLife(before, cap, h, prefix);
    PrefixesAreNested(Data(part), Data(Sent(l.start)), l.start.listing + l.start.unread, Whole(before));
  }

  /** A part that holds fewer data than were sent before a life is a part of what the life before could send. */
  lemma PartOfTheLifeBefore(ls: seq<Life>, n: nat, cap: nat, h: Timeline, prefix: string, part: seq<LwEvent>)
    requires prefix != "" && Lives(ls, cap, h, prefix) && n < |ls|
    requires Begins(Data(part), ls[n]) && |Data(part)| < |Data(Sent(ls[n].start))|
    ensures n > 0 && Begins(Data(part), ls[n - 1])
  {
    assert LifeAt(ls, n, cap, h, prefix);
    if n > 0 {
      assert LifeAt(ls, n - 1, cap, h, prefix);
      StillEarlier(ls[n - 1], ls[n], cap, h, prefix, part);
    }
  }

  /** Any part of everything sent so far, however far the consumer lags behind. */
  lemma {:induction false} PartOfLives(ls: seq<Life>, n: nat, cap: nat, h: Timeline, prefix: string, part: seq<LwEvent>)
    returns (ss: seq<Session>)
    requires prefix != "" && Lives(ls, cap, h, prefix) && n < |ls| && Begins(Data(part), ls[n])
    ensures ValidRun(h, prefix, ss) && Amounts(ss, ls, cap, h, prefix) && Fold(map[], part) == ViewAfter(h, prefix, ss)
  {
    if |Data(part)| >= |Data(Sent(ls[n].start))| {
      ss := PartOfOneLife(ls, n, cap, h, prefix, part);
    } else {
      PartOfTheLifeBefore(ls, n, cap, h, prefix, part);
      ss := PartOfLives(ls, n - 1, cap, h, prefix, part);
    }
  }

  /** What the consumer has received is the data of an initial part of all that the last life could send. */
  lemma ReceivedBegins(ls: seq<Life>, n: nat, cap: nat, h: Timeline, prefix: string)
    requires prefix != "" && Lives(ls, cap, h, prefix) && n < |ls|
    ensures Begins(Data(End(ls[n], cap).received), ls[n])
    ensures End(ls[n], cap).phase == Broken ==> ListSent(ls[n], cap)
  {
    assert LifeAt(ls, n, cap, h, prefix);
    SentByLife(ls[n], cap, h, prefix);
    FailedLifeSentItsList(ls[n], cap, h, prefix);
  }

  /**
   At every moment of every interleaving, over any number of failures and re-lists, what the
   consumer has received folds to the view of a valid run of sessions that listed and started
   their watches where the loop did. Before the last one only a session that was cancelled
   while it sent its list lacks a part of it.
   */
  lemma ConsumerAtEveryMoment(ls: seq<Life>, cap: nat, h: Timeline, prefix: string) returns (ss: seq<Session>)
    requires prefix != "" && Lives(ls, cap, h, prefix) && ls != []
    ensures ValidRun(h, prefix, ss) && Amounts(ss, ls, cap, h, prefix)
    ensures forall i | 0 <= i < |ss| - 1 :: End(ls[i], cap).phase == Broken ==> ss[i].missing == 0
    ensures Fold(map[], End(ls[|ls| - 1], cap).received) == ViewAfter(h, prefix, ss)
  {
    ReceivedBegins(ls, |ls| - 1, cap, h, prefix);
    ss := PartOfLives(ls, |ls| - 1, cap, h, prefix, End(ls[|ls| - 1], cap).received);
    FailedLivesSentTheirLists(ss, ls, cap, h, prefix);
  }

  lemma FailedLivesSentTheirLists(ss: seq<Session>, ls: seq<Life>, cap: nat, h: Timeline, prefix: string)
    requires prefix != "" && Lives(ls, cap, h, prefix) && Amounts(ss, ls, cap, h, prefix)
    ensures forall i | 0 <= i < |ss| - 1 :: End(ls[i], cap).phase == Broken ==> ss[i].missing == 0
  {
    forall i | 0 <= i < |ss| - 1 ensures End(ls[i], cap).phase == Broken ==> ss[i].missing == 0 {
      ReceivedBegins(ls, i, cap, h, prefix);
    }
  }
}
