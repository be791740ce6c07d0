/**
 The event pipeline of one ListWatch session (pkg/listwatch/listwatch.go) as a state
 machine: the loop sends the listed events; a goroutine then translates etcd events
 into a channel of capacity 100; the loop forwards that channel into the consumer's
 channel; other goroutines may put Error events into the consumer's channel at any
 time. Channel operations are the atomic steps. A disabled action changes nothing.
 */
module Pipeline {
  import opened Wrappers
  import opened Watchers

  const WATCH_BUFFER: nat := 100

  /** Event.validate. */
  predicate Valid(e: LwEvent) {
    (e.key != "" || e.kind == Error) && e.prefix != ""
  }

  /** The loop forwards, or has stopped: on cancellation, or because the watch failed. */
  datatype Phase = Forwarding | Cancelled | Broken

  datatype State = State(
    listing: seq<LwEvent>,       // listed events the loop has not sent
    unread: seq<LwEvent>,        // translated etcd events the goroutine has not read
    reading: bool,               // the goroutine is still reading
    held: Option<LwEvent>,       // the event the goroutine is sending
    watchCh: seq<LwEvent>,       // between goroutine and loop
    forward: Option<LwEvent>,    // the event the loop is sending
    phase: Phase,
    ch: seq<LwEvent>,            // the consumer's channel
    received: seq<LwEvent>)

  datatype Action =
    | SendListed | HandListed | Read | WatchFails(message: string) | WatchEnds | Push | Take | Send | Hand | Reject
    | ClosedChannel | Cancel | Consume | OtherSends(e: LwEvent) | OtherHands(e: LwEvent)

  /** The loop's own steps. */
  function LoopStep(s: State, a: Action, cap: nat): State {
    if s.phase != Forwarding then s
    else match a
      case SendListed =>
        if s.listing == [] || !Valid(s.listing[0]) || |s.ch| >= cap then s
        else s.(ch := s.ch + [s.listing[0]], listing := s.listing[1..])
      case HandListed =>
        if s.listing == [] || !Valid(s.listing[0]) || s.ch != [] then s
        else s.(received := s.received + [s.listing[0]], listing := s.listing[1..])
      case Take =>
        if s.listing != [] || s.forward.Some? || s.watchCh == [] then s
        else s.(forward := Some(s.watchCh[0]), watchCh := s.watchCh[1..])
      case Send =>
        if s.forward.None? || !Valid(s.forward.value) || |s.ch| >= cap then s
        else s.(ch := s.ch + [s.forward.value], forward := None)
      case Hand =>
        if s.forward.None? || !Valid(s.forward.value) || s.ch != [] then s
        else s.(received := s.received + [s.forward.value], forward := None)
      case Reject =>
        if (s.forward.Some? && !Valid(s.forward.value)) || (s.listing != [] && !Valid(s.listing[0])) then s.(phase := Broken) else s
      case ClosedChannel =>
        if s.listing == [] && s.forward.None? && s.watchCh == [] && s.held.None? && !s.reading then s.(phase := Broken) else s
      case Cancel => s.(phase := Cancelled)
      case _ => s
  }

  /** The watch goroutine, started once the list has been sent. */
  function WatchStep(s: State, a: Action): State {
    if s.listing != [] then s
    else match a
      case Read =>
        if !s.reading || s.held.Some? || s.unread == [] then s
        else s.(held := Some(s.unread[0]), unread := s.unread[1..])
      case WatchFails(message) =>
        if !s.reading || s.held.Some? then s
        else s.(held := Some(LwEvent(Error, "", message, "")), reading := false)
      case WatchEnds =>
        if !s.reading || s.held.Some? then s else s.(reading := false)
      case Push =>
        if s.held.None? || |s.watchCh| >= WATCH_BUFFER then s
        else s.(watchCh := s.watchCh + [s.held.value], held := None)
      case _ => s
  }

  /** The consumer, and everybody else who writes to its channel. */
  function OtherStep(s: State, a: Action, cap: nat): State {
    match a
    case Consume => if s.ch == [] then s else s.(received := s.received + [s.ch[0]], ch := s.ch[1..])
    case OtherSends(e) => if e.kind == Error && |s.ch| < cap then s.(ch := s.ch + [e]) else s
    case OtherHands(e) => if e.kind == Error && s.ch == [] then s.(received := s.received + [e]) else s
    case _ => s
  }

  function Step(s: State, a: Action, cap: nat): State {
    OtherStep(WatchStep(LoopStep(s, a, cap), a), a, cap)
  }

  function Run(s: State, actions: seq<Action>, cap: nat): State {
    if actions == [] then s else Step(Run(s, actions[..|actions| - 1], cap), actions[|actions| - 1], cap)
  }

  /** A session starts with its events to send, behind whatever earlier sessions left in the channel. */
  predicate Init(s: State, cap: nat) {
    && s.reading && s.held.None? && s.watchCh == [] && s.forward.None? && s.phase == Forwarding && |s.ch| <= cap
    && (forall i | 0 <= i < |s.listing| :: s.listing[i].kind != Error && Valid(s.listing[i]))
    && (forall i | 0 <= i < |s.unread| :: s.unread[i].kind != Error && Valid(s.unread[i]))
  }

  // ---- Conservation ----

  /** The events that are not Errors, in order. */
  function Data(events: seq<LwEvent>): (r: seq<LwEvent>)
    ensures |r| <= |events|
  {
    if events == [] then []
    else
      var n := |events| - 1;
      Data(events[..n]) + if events[n].kind == Error then [] else [events[n]]
  }

  lemma {:induction false} DataConcat(a: seq<LwEvent>, b: seq<LwEvent>)
    ensures Data(a + b) == Data(a) + Data(b)
  {
    if b == [] {
      assert a + b == a;
    } else {
      var before, last := b[..|b| - 1], b[|b| - 1];
      var kept: seq<LwEvent> := if last.kind == Error then [] else [last];
      DataConcat(a, before);
      assert (a + b)[..|a + b| - 1] == a + before && (a + b)[|a + b| - 1] == last;
      assert Data(a + b) == Data(a + before) + kept && Data(b) == Data(before) + kept;
      assert (Data(a) + Data(before)) + kept == Data(a) + (Data(before) + kept);
    }
  }

  lemma {:induction false} DataKeepsAll(events: seq<LwEvent>)
    requires forall i | 0 <= i < |events| :: events[i].kind != Error
    ensures Data(events) == events
  {
    if events != [] {
      DataKeepsAll(events[..|events| - 1]);
    }
  }

  /** An Error in front of a sequence is not seen, nor is it behind any other. */
  lemma ErrorsAreInvisible(a: seq<LwEvent>, e: LwEvent, b: seq<LwEvent>)
    requires e.kind == Error
    ensures Data((a + [e]) + b) == Data(a + b)
  {
    DataConcat(a + [e], b);
    DataConcat(a, [e]);
    DataConcat(a, b);
  }

  lemma SameDataBehind(a: seq<LwEvent>, b: seq<LwEvent>, b': seq<LwEvent>)
    requires Data(b) == Data(b')
    ensures Data(a + b) == Data(a + b')
  {
    DataConcat(a, b);
    DataConcat(a, b');
  }

  function Held(o: Option<LwEvent>): seq<LwEvent> {
    if o.Some? then [o.value] else []
  }

  // What is at or behind each station, first to arrive first.

  function FromHeld(s: State): seq<LwEvent> {
    Held(s.held) + s.unread
  }

  function FromWatch(s: State): seq<LwEvent> {
    s.watchCh + FromHeld(s)
  }

  function FromForward(s: State): seq<LwEvent> {
    Held(s.forward) + FromWatch(s)
  }

  function Upstream(s: State): seq<LwEvent> {
    s.listing + FromForward(s)
  }

  /** The whole line from the consumer back to etcd. */
  function Line(s: State): seq<LwEvent> {
    s.received + (s.ch + Upstream(s))
  }

  predicate LastIfError(events: seq<LwEvent>, i: nat)
    requires i < |events|
  {
    events[i].kind == Error ==> i == |events| - 1
  }

  /** Only one Error is ever upstream, and only as the last event of a watch that has ended. */
  predicate ErrorIsLast(s: State) {
    && (s.held.Some? && s.held.value.kind == Error ==> !s.reading)
    && (forall i: nat | i < |s.watchCh| :: LastIfError(s.watchCh, i))
    && (s.watchCh != [] && s.watchCh[|s.watchCh| - 1].kind == Error ==> !s.reading && s.held.None?)
    && (s.forward.Some? && s.forward.value.kind == Error ==> s.watchCh == [] && s.held.None? && !s.reading)
  }

  /** The loop works on the list first. */
  predicate ListFirst(s: State) {
    s.listing != [] ==> s.forward.None? && s.watchCh == [] && s.held.None? && s.reading
  }

  /** Only Errors are refused by sendEvent. */
  predicate Forwardable(s: State) {
    && (forall i | 0 <= i < |s.listing| :: s.listing[i].kind != Error && Valid(s.listing[i]))
    && (forall i | 0 <= i < |s.unread| :: s.unread[i].kind != Error && Valid(s.unread[i]))
    && (forall i | 0 <= i < |s.watchCh| :: s.watchCh[i].kind == Error || Valid(s.watchCh[i]))
    && (s.held.Some? ==> s.held.value.kind == Error || Valid(s.held.value))
    && (s.forward.Some? ==> s.forward.value.kind == Error || Valid(s.forward.value))
  }

  /** A watch that failed was forwarded to its end. */
  predicate BrokenIsEmpty(s: State) {
    s.phase == Broken ==> s.listing == [] && s.watchCh == [] && s.held.None? && !s.reading &&
                          (s.forward.Some? ==> s.forward.value.kind == Error)
  }

  predicate Inv(s: State, cap: nat) {
    |s.ch| <= cap && |s.watchCh| <= WATCH_BUFFER && ErrorIsLast(s) && ListFirst(s) && Forwardable(s) && BrokenIsEmpty(s)
  }

  lemma TakingKeepsErrorLast(s: State, s': State)
    requires s.watchCh != [] && ErrorIsLast(s) && s.forward == None
    requires s' == s.(forward := Some(s.watchCh[0]), watchCh := s.watchCh[1..])
    ensures ErrorIsLast(s')
  {
    assert LastIfError(s.watchCh, 0);
    forall i: nat | i < |s'.watchCh| ensures LastIfError(s'.watchCh, i) {
      assert LastIfError(s.watchCh, i + 1);
    }
  }

  lemma LoopStepKeepsInv(s: State, a: Action, cap: nat)
    requires Inv(s, cap)
    ensures Inv(LoopStep(s, a, cap), cap)
  {
    var s' := LoopStep(s, a, cap);
    if a.Take? && s' != s {
      TakingKeepsErrorLast(s, s');
    }
  }

  lemma WatchStepKeepsInv(s: State, a: Action, cap: nat)
    requires Inv(s, cap)
    ensures Inv(WatchStep(s, a), cap)
  {
    var s' := WatchStep(s, a);
    if a.Push? && s' != s {
      forall i: nat | i < |s'.watchCh| ensures LastIfError(s'.watchCh, i) {
        if i < |s.watchCh| {
          assert LastIfError(s.watchCh, i);
        }
      }
    }
  }

  lemma StepKeepsInv(s: State, a: Action, cap: nat)
    requires Inv(s, cap)
    ensures Inv(Step(s, a, cap), cap)
  {
    LoopStepKeepsInv(s, a, cap);
    WatchStepKeepsInv(LoopStep(s, a, cap), a, cap);
  }

  /** Handing the first of `b` to the end of `a`. */
  lemma Move(a: seq<LwEvent>, b: seq<LwEvent>, rest: seq<LwEvent>)
    requires b != []
    ensures (a + [b[0]]) + (b[1..] + rest) == a + (b + rest)
  {
    assert b == [b[0]] + b[1..];
  }

  lemma SendingTheList(s: State, s': State)
    requires s.listing != [] && s' == s.(ch := s.ch + [s.listing[0]], listing := s.listing[1..])
    ensures Line(s') == Line(s)
  {
    Move(s.ch, s.listing, FromForward(s));
  }

  lemma HandingTheList(s: State, s': State)
    requires s.listing != [] && s.ch == [] && s' == s.(received := s.received + [s.listing[0]], listing := s.listing[1..])
    ensures Line(s') == Line(s)
  {
    Move(s.received, s.listing, FromForward(s));
    assert s'.ch + Upstream(s') == Upstream(s');
    assert s.ch + Upstream(s) == Upstream(s);
  }

  lemma Taking(s: State, s': State)
    requires s.watchCh != [] && s.forward == None && s' == s.(forward := Some(s.watchCh[0]), watchCh := s.watchCh[1..])
    ensures FromForward(s') == FromForward(s) && Line(s') == Line(s)
  {
    Move([], s.watchCh, FromHeld(s));
    assert [] + [s.watchCh[0]] == Held(s'.forward);
  }

  lemma Sending(s: State, s': State)
    requires s.listing == [] && s.forward.Some? && s' == s.(ch := s.ch + [s.forward.value], forward := None)
    ensures Line(s') == Line(s)
  {
    Move(s.ch, Held(s.forward), FromWatch(s));
    assert Upstream(s') == FromWatch(s) == Held(s.forward)[1..] + FromWatch(s);
    assert Upstream(s) == FromForward(s);
  }

  lemma Handing(s: State, s': State)
    requires s.listing == s.ch == [] && s.forward.Some? && s' == s.(received := s.received + [s.forward.value], forward := None)
    ensures Line(s') == Line(s)
  {
    Move(s.received, Held(s.forward), FromWatch(s));
    assert s'.ch + Upstream(s') == FromWatch(s) == Held(s.forward)[1..] + FromWatch(s);
    assert s.ch + Upstream(s) == FromForward(s);
  }

  /** The loop only moves events down the line. */
  lemma LoopStepMoves(s: State, a: Action, cap: nat)
    requires ListFirst(s)
    ensures Line(LoopStep(s, a, cap)) == Line(s)
  {
    var s' := LoopStep(s, a, cap);
    if s' != s {
      match a
      case SendListed => SendingTheList(s, s');
      case HandListed => HandingTheList(s, s');
      case Take => Taking(s, s');
      case Send => Sending(s, s');
      case Hand => Handing(s, s');
      case _ =>
    }
  }

  /** What the goroutine does is not seen by the loop's side: it moves its events on and may add an Error. */
  lemma WatchStepKeepsData(s: State, a: Action)
    ensures Data(FromForward(WatchStep(s, a))) == Data(FromForward(s))
  {
    var s' := WatchStep(s, a);
    if s' != s {
      match a
      case Read =>
        Move([], s.unread, []);
        assert FromHeld(s') == FromHeld(s);
      case WatchFails(_) =>
        ErrorsAreInvisible([], s'.held.value, s.unread);
        assert [] + [s'.held.value] == Held(s'.held);
        SameDataBehind(s.watchCh, FromHeld(s), FromHeld(s'));
        SameDataBehind(Held(s.forward), FromWatch(s), FromWatch(s'));
      case Push =>
        Move(s.watchCh, Held(s.held), s.unread);
        assert FromHeld(s') == s.unread;
      case _ =>
    }
  }

  lemma WatchStepMoves(s: State, a: Action)
    ensures Data(Line(WatchStep(s, a))) == Data(Line(s))
  {
    var s' := WatchStep(s, a);
    WatchStepKeepsData(s, a);
    SameDataBehind(s.listing, FromForward(s), FromForward(s'));
    SameDataBehind(s.ch, Upstream(s), Upstream(s'));
    SameDataBehind(s.received, s.ch + Upstream(s), s'.ch + Upstream(s'));
  }

  lemma OtherStepMoves(s: State, a: Action, cap: nat)
    ensures Data(Line(OtherStep(s, a, cap))) == Data(Line(s))
  {
    var s' := OtherStep(s, a, cap);
    if s' != s {
      match a
      case Consume => Move(s.received, s.ch, Upstream(s));
      case OtherSends(e) =>
        ErrorsAreInvisible(s.ch, e, Upstream(s));
        SameDataBehind(s.received, s.ch + Upstream(s), s'.ch + Upstream(s));
      case OtherHands(e) => ErrorsAreInvisible(s.received, e, s.ch + Upstream(s));
      case _ =>
    }
  }

  /** Every step conserves the events on the line. */
  lemma StepConserves(s: State, a: Action, cap: nat)
    requires Inv(s, cap)
    ensures Data(Line(Step(s, a, cap))) == Data(Line(s))
  {
    LoopStepMoves(s, a, cap);
    WatchStepMoves(LoopStep(s, a, cap), a);
    OtherStepMoves(WatchStep(LoopStep(s, a, cap), a), a, cap);
  }

  lemma {:induction false} RunConserves(s: State, actions: seq<Action>, cap: nat)
    requires Inv(s, cap)
    ensures Inv(Run(s, actions, cap), cap)
    ensures Data(Line(Run(s, actions, cap))) == Data(Line(s))
  {
    if actions != [] {
      var before := Run(s, actions[..|actions| - 1], cap);
      RunConserves(s, actions[..|actions| - 1], cap);
      StepKeepsInv(before, actions[|actions| - 1], cap);
      StepConserves(before, actions[|actions| - 1], cap);
    }
  }

  lemma Regroup<T>(a: seq<T>, b: seq<T>, c: seq<T>)
    ensures a + (b + c) == (a + b) + c
  {
  }

  /** Reading a line from the front. */
  lemma DataOfLine(received: seq<LwEvent>, ch: seq<LwEvent>, upstream: seq<LwEvent>)
    ensures Data(received + (ch + upstream)) == Data(received + ch) + Data(upstream)
    ensures Data(received) <= Data(received + ch)
  {
    DataConcat(received, ch);
    Regroup(received, ch, upstream);
    DataConcat(received + ch, upstream);
  }

  lemma InitialLine(s: State, cap: nat)
    requires Init(s, cap)
    ensures Inv(s, cap) && Data(Upstream(s)) == s.listing + s.unread
  {
    assert Upstream(s) == s.listing + s.unread;
    DataKeepsAll(s.listing + s.unread);
  }

  /** In every run, what was received, buffered, held and not yet read is always the whole stream, once and in order. */
  lemma Conservation(s: State, actions: seq<Action>, cap: nat)
    requires Init(s, cap)
    ensures Inv(Run(s, actions, cap), cap)
    ensures Data(Line(Run(s, actions, cap))) == Data(s.received + s.ch) + (s.listing + s.unread)
  {
    InitialLine(s, cap);
    DataOfLine(s.received, s.ch, Upstream(s));
    RunConserves(s, actions, cap);
  }

  /** What the consumer has received, Errors aside, is a prefix of everything sent to it. */
  lemma ReceivedIsAPrefix(s: State, actions: seq<Action>, cap: nat)
    requires Init(s, cap)
    ensures Data(Run(s, actions, cap).received) <= Data(Run(s, actions, cap).received + Run(s, actions, cap).ch)
    ensures Data(Run(s, actions, cap).received + Run(s, actions, cap).ch) <= Data(s.received + s.ch) + (s.listing + s.unread)
  {
    var s' := Run(s, actions, cap);
    Conservation(s, actions, cap);
    DataOfLine(s'.received, s'.ch, Upstream(s'));
  }

  lemma OnlyUnreadIsLeft(s: State, cap: nat)
    requires Inv(s, cap) && s.phase == Broken
    ensures Data(Upstream(s)) == s.unread
  {
    assert Upstream(s) == Held(s.forward) + s.unread;
    DataConcat(Held(s.forward), s.unread);
    DataKeepsAll(s.unread);
  }

  /** A watch that failed has lost nothing it read: all of it is in the consumer's channel or received. */
  lemma NothingIsLostOnFailure(s: State, actions: seq<Action>, cap: nat)
    requires Init(s, cap) && Run(s, actions, cap).phase == Broken
    ensures var s' := Run(s, actions, cap);
            Data(s'.received + s'.ch) + s'.unread == Data(s.received + s.ch) + (s.listing + s.unread)
  {
    var s' := Run(s, actions, cap);
    Conservation(s, actions, cap);
    DataOfLine(s'.received, s'.ch, Upstream(s'));
    OnlyUnreadIsLeft(s', cap);
  }

  // ---- The list is sent before the watch ----

  /** Behind the list there is never more than the watch stream. */
  lemma LoopStepDrains(s: State, a: Action, cap: nat)
    ensures |Data(FromForward(LoopStep(s, a, cap)))| <= |Data(FromForward(s))|
  {
    var s1 := LoopStep(s, a, cap);
    if a.Take? && s1 != s {
      Taking(s, s1);
    } else if (a.Send? || a.Hand?) && s1 != s {
      assert FromForward(s1) == FromWatch(s);
      DataConcat(Held(s.forward), FromWatch(s));
    } else {
      assert FromForward(s1) == FromForward(s);
    }
  }

  lemma OtherStepDrains(s: State, a: Action, cap: nat)
    ensures FromForward(OtherStep(s, a, cap)) == FromForward(s)
  {
  }

  lemma StepDrains(s: State, a: Action, cap: nat)
    ensures |Data(FromForward(Step(s, a, cap)))| <= |Data(FromForward(s))|
  {
    var s1 := LoopStep(s, a, cap);
    var s2 := WatchStep(s1, a);
    LoopStepDrains(s, a, cap);
    WatchStepKeepsData(s1, a);
    OtherStepDrains(s2, a, cap);
  }

  lemma {:induction false} RunDrains(s: State, actions: seq<Action>, cap: nat)
    ensures |Data(FromForward(Run(s, actions, cap)))| <= |Data(FromForward(s))|
  {
    if actions != [] {
      RunDrains(s, actions[..|actions| - 1], cap);
      StepDrains(Run(s, actions[..|actions| - 1], cap), actions[|actions| - 1], cap);
    }
  }

  lemma LineWithoutList(s: State)
    requires s.listing == []
    ensures |Data(Line(s))| == |Data(s.received + s.ch)| + |Data(FromForward(s))|
  {
    assert Upstream(s) == FromForward(s);
    DataOfLine(s.received, s.ch, Upstream(s));
  }

  lemma InitialStream(s: State, cap: nat)
    requires Init(s, cap)
    ensures Data(FromForward(s)) == s.unread
  {
    assert FromForward(s) == s.unread;
    DataKeepsAll(s.unread);
  }

  /** Once the loop has no listed event left, the whole list is in the consumer's channel or received. */
  lemma ListWasSent(s: State, actions: seq<Action>, cap: nat)
    requires Init(s, cap) && Run(s, actions, cap).listing == []
    ensures var s' := Run(s, actions, cap); |Data(s'.received + s'.ch)| >= |Data(s.received + s.ch)| + |s.listing|
  {
    Conservation(s, actions, cap);
    LineWithoutList(Run(s, actions, cap));
    RunDrains(s, actions, cap);
    InitialStream(s, cap);
  }

  /** What was sent to the consumer's channel stays sent. */
  lemma StepSends(s: State, a: Action, cap: nat)
    ensures s.received + s.ch <= Step(s, a, cap).received + Step(s, a, cap).ch
  {
  }

  lemma {:induction false} RunSends(s: State, actions: seq<Action>, cap: nat)
    ensures var s' := Run(s, actions, cap); s.received + s.ch <= s'.received + s'.ch
  {
    if actions != [] {
      RunSends(s, actions[..|actions| - 1], cap);
      StepSends(Run(s, actions[..|actions| - 1], cap), actions[|actions| - 1], cap);
    }
  }

  lemma DataOfPrefix(a: seq<LwEvent>, b: seq<LwEvent>)
    requires a <= b
    ensures |Data(a)| <= |Data(b)|
  {
    DataConcat(a, b[|a|..]);
    assert b == a + b[|a|..];
  }

  /** A session that failed had sent its whole list: only a cancellation can interrupt it. */
  lemma FailureComesAfterTheList(s: State, actions: seq<Action>, cap: nat)
    requires Init(s, cap)
    ensures Run(s, actions, cap).phase == Broken ==> Run(s, actions, cap).listing == []
  {
    Conservation(s, actions, cap);
  }

  // ---- Progress ----

  /** How many channel operations separate the consumer from everything upstream. */
  function Work(s: State): nat {
    5 * |s.unread| + 4 * |Held(s.held)| + 3 * |s.watchCh| + 2 * |Held(s.forward)| + 2 * |s.listing| + |s.ch|
  }

  predicate Productive(a: Action) {
    a.SendListed? || a.HandListed? || a.Read? || a.Push? || a.Take? || a.Send? || a.Hand? || a.Consume?
  }

  /** While the loop forwards an unbroken watch and an event is on its way, some step brings it closer, whatever the buffer. */
  lemma NeverStuck(s: State, cap: nat) returns (a: Action)
    requires Inv(s, cap) && s.phase == Forwarding && s.reading && Work(s) > 0
    ensures Productive(a) && Work(Step(s, a, cap)) < Work(s)
  {
    if s.ch != [] {
      a := Consume;
    } else if s.listing != [] {
      a := HandListed;
    } else if s.forward.Some? {
      a := Hand;
    } else if s.watchCh != [] {
      a := Take;
    } else if s.held.Some? {
      a := Push;
    } else {
      a := Read;
    }
  }

  /** A step of the session or the consumer that has an effect. */
  predicate Moves(s: State, a: Action, cap: nat) {
    Productive(a) && Step(s, a, cap) != s
  }

  lemma MovingMakesProgress(s: State, a: Action, cap: nat)
    requires Moves(s, a, cap)
    ensures var s' := Step(s, a, cap); Work(s') < Work(s) && s'.phase == s.phase && s'.reading == s.reading
  {
  }

  predicate AllMove(s: State, actions: seq<Action>, cap: nat) {
    actions == [] ||
    (&& AllMove(s, actions[..|actions| - 1], cap)
     && Moves(Run(s, actions[..|actions| - 1], cap), actions[|actions| - 1], cap))
  }

  /** However such steps are chosen, there is only a bounded number of them. */
  lemma {:induction false} MovesAreBounded(s: State, actions: seq<Action>, cap: nat)
    requires AllMove(s, actions, cap)
    ensures var s' := Run(s, actions, cap); |actions| + Work(s') <= Work(s) && s'.phase == s.phase && s'.reading == s.reading
  {
    if actions != [] {
      MovesAreBounded(s, actions[..|actions| - 1], cap);
      MovingMakesProgress(Run(s, actions[..|actions| - 1], cap), actions[|actions| - 1], cap);
    }
  }

  /** No work left means everything was received. */
  lemma DoneMeansReceived(s: State, actions: seq<Action>, cap: nat)
    requires Init(s, cap) && Work(Run(s, actions, cap)) == 0
    ensures Data(Run(s, actions, cap).received) == Data(s.received + s.ch) + (s.listing + s.unread)
  {
    var s' := Run(s, actions, cap);
    Conservation(s, actions, cap);
    assert Line(s') == s'.received;
  }

  /** Whatever happened before, while the loop forwards an unbroken watch those steps end only when everything was received. */
  lemma StandstillMeansReceived(s: State, actions: seq<Action>, cap: nat)
    requires Init(s, cap)
    requires var s' := Run(s, actions, cap); s'.phase == Forwarding && s'.reading && forall a :: !Moves(s', a, cap)
    ensures Data(Run(s, actions, cap).received) == Data(s.received + s.ch) + (s.listing + s.unread)
  {
    var s' := Run(s, actions, cap);
    Conservation(s, actions, cap);
    if Work(s') > 0 {
      var a := NeverStuck(s', cap);
      assert Moves(s', a, cap);
    }
    DoneMeansReceived(s, actions, cap);
  }

  // ---- The end of a session ----

  /** A step of the loop, the goroutine or the consumer that has an effect; what etcd, the context and others do is not among them. */
  predicate Acts(s: State, a: Action, cap: nat) {
    (Productive(a) || a.Reject? || a.ClosedChannel?) && Step(s, a, cap) != s
  }

  /** A loop that still forwards a watch that has ended is never stuck. */
  lemma EndedWatchIsNotStuck(s: State, cap: nat) returns (a: Action)
    requires Inv(s, cap) && s.phase == Forwarding && !s.reading
    ensures Acts(s, a, cap)
  {
    if s.ch != [] {
      a := Consume;
    } else if s.forward.Some? {
      a := if Valid(s.forward.value) then Hand else Reject;
    } else if s.watchCh != [] {
      a := Take;
    } else if s.held.Some? {
      a := Push;
    } else {
      a := ClosedChannel;
    }
  }

  /** The channel operations and the one change of phase that are left. */
  function Left(s: State): nat {
    Work(s) + if s.phase == Forwarding then 1 else 0
  }

  lemma ActingMakesProgress(s: State, a: Action, cap: nat)
    requires Acts(s, a, cap)
    ensures Left(Step(s, a, cap)) < Left(s)
  {
  }

  predicate AllAct(s: State, actions: seq<Action>, cap: nat) {
    actions == [] ||
    (&& AllAct(s, actions[..|actions| - 1], cap)
     && Acts(Run(s, actions[..|actions| - 1], cap), actions[|actions| - 1], cap))
  }

  /** Only a bounded number of such steps can follow each other. */
  lemma {:induction false} ActsAreBounded(s: State, actions: seq<Action>, cap: nat)
    requires AllAct(s, actions, cap)
    ensures |actions| + Left(Run(s, actions, cap)) <= Left(s)
  {
    if actions != [] {
      ActsAreBounded(s, actions[..|actions| - 1], cap);
      ActingMakesProgress(Run(s, actions[..|actions| - 1], cap), actions[|actions| - 1], cap);
    }
  }

  /**
   A watch that has ended ends its session: when none of those steps is left and the session
   was not cancelled, it has failed, and the consumer has received all that was read.
   */
  lemma EndedWatchEndsTheSession(s: State, actions: seq<Action>, cap: nat)
    requires Init(s, cap)
    requires var s' := Run(s, actions, cap); !s'.reading && s'.phase != Cancelled && forall a :: !Acts(s', a, cap)
    ensures var s' := Run(s, actions, cap);
            && s'.phase == Broken
            && Data(s'.received) + s'.unread == Data(s.received + s.ch) + (s.listing + s.unread)
  {
    var s' := Run(s, actions, cap);
    Conservation(s, actions, cap);
    if s'.phase == Forwarding {
      var a := EndedWatchIsNotStuck(s', cap);
    }
    assert !Acts(s', Consume, cap);
    NothingIsLostOnFailure(s, actions, cap);
    assert s'.received + s'.ch == s'.received;
  }

  /** What others and the consumer do adds no data to what was sent. */
  lemma OtherStepSendsNoData(s: State, a: Action, cap: nat)
    ensures var s' := OtherStep(s, a, cap); Data(s'.received + s'.ch) == Data(s.received + s.ch)
  {
    var sent, s' := s.received + s.ch, OtherStep(s, a, cap);
    if a.Consume? {
      assert s'.received + s'.ch == sent;
    } else if (a.OtherSends? || a.OtherHands?) && s' != s {
      assert s'.received + s'.ch == sent + [a.e];
      DataConcat(sent, [a.e]);
    }
  }

  lemma StoppedStep(s: State, a: Action, cap: nat)
    requires s.phase != Forwarding
    ensures var s' := Step(s, a, cap);
            && s'.phase == s.phase && s'.listing == s.listing
            && Data(s'.received + s'.ch) == Data(s.received + s.ch)
  {
    var s1 := WatchStep(s, a);
    assert s1.phase == s.phase && s1.listing == s.listing && s1.received == s.received && s1.ch == s.ch;
    OtherStepSendsNoData(s1, a, cap);
  }

  /** A session that has stopped stays stopped and sends nothing more. */
  lemma {:induction false} StoppedIsFinal(s: State, actions: seq<Action>, cap: nat)
    requires s.phase != Forwarding
    ensures var s' := Run(s, actions, cap);
            s'.phase == s.phase && s'.listing == s.listing && Data(s'.received + s'.ch) == Data(s.received + s.ch)
  {
    if actions != [] {
      StoppedIsFinal(s, actions[..|actions| - 1], cap);
      StoppedStep(Run(s, actions[..|actions| - 1], cap), actions[|actions| - 1], cap);
    }
  }

  /** A cancellation stops it, whatever it was sending. */
  lemma CancelledIsFinal(s: State, actions: seq<Action>, cap: nat)
    requires s.phase == Forwarding
    ensures var s' := Run(Step(s, Cancel, cap), actions, cap);
            s'.phase == Cancelled && s'.listing == s.listing && Data(s'.received + s'.ch) == Data(s.received + s.ch)
  {
    StoppedIsFinal(Step(s, Cancel, cap), actions, cap);
  }

  /** etcd may end a watch, with or without an error, whenever the goroutine waits for it; an error is passed on as an Error event. */
  lemma WatchMayEnd(s: State, message: string, cap: nat)
    requires s.listing == [] && s.reading && s.held.None?
    ensures Step(s, WatchEnds, cap) == s.(reading := false)
    ensures var s' := Step(s, WatchFails(message), cap);
            && s' == s.(reading := false, held := s'.held)
            && s'.held.Some? && s'.held.value.kind == Error && s'.held.value.value == message
  {
  }

  /** Others may put an Error into the consumer's channel whenever it has room, or hand it over when nothing waits. */
  lemma OthersMaySend(s: State, e: LwEvent, cap: nat)
    requires e.kind == Error
    ensures |s.ch| < cap ==> Step(s, OtherSends(e), cap) == s.(ch := s.ch + [e])
    ensures s.ch == [] ==> Step(s, OtherHands(e), cap) == s.(received := s.received + [e])
  {
  }

  // ---- Errors of the watch ----

  /** An Error that comes from the watch does not pass validation. */
  predicate Refused(e: LwEvent) {
    e.kind == Error ==> !Valid(e)
  }

  predicate ErrorsAreRefused(s: State) {
    && (s.held.Some? ==> Refused(s.held.value))
    && (forall i | 0 <= i < |s.watchCh| :: Refused(s.watchCh[i]))
    && (s.forward.Some? ==> Refused(s.forward.value))
    && (forall i | 0 <= i < |s.unread| :: Refused(s.unread[i]))
    && (forall i | 0 <= i < |s.listing| :: Refused(s.listing[i]))
  }

  lemma LoopStepKeepsRefused(s: State, a: Action, cap: nat)
    requires ErrorsAreRefused(s)
    ensures ErrorsAreRefused(LoopStep(s, a, cap))
  {
  }

  lemma WatchStepKeepsRefused(s: State, a: Action)
    requires ErrorsAreRefused(s)
    ensures ErrorsAreRefused(WatchStep(s, a))
  {
  }

  lemma OtherStepKeepsRefused(s: State, a: Action, cap: nat)
    requires ErrorsAreRefused(s)
    ensures ErrorsAreRefused(OtherStep(s, a, cap))
  {
  }

  lemma StepKeepsRefused(s: State, a: Action, cap: nat)
    requires ErrorsAreRefused(s)
    ensures ErrorsAreRefused(Step(s, a, cap))
  {
    var s1 := LoopStep(s, a, cap);
    var s2 := WatchStep(s1, a);
    LoopStepKeepsRefused(s, a, cap);
    WatchStepKeepsRefused(s1, a);
    OtherStepKeepsRefused(s2, a, cap);
  }

  lemma {:induction false} RunKeepsRefused(s: State, actions: seq<Action>, cap: nat)
    requires Init(s, cap)
    ensures ErrorsAreRefused(Run(s, actions, cap))
  {
    if actions != [] {
      RunKeepsRefused(s, actions[..|actions| - 1], cap);
      StepKeepsRefused(Run(s, actions[..|actions| - 1], cap), actions[|actions| - 1], cap);
    }
  }

  lemma StepForwardsNoError(s: State, a: Action, cap: nat)
    requires ErrorsAreRefused(s) && !a.OtherSends? && !a.OtherHands?
    ensures var sent, sent' := s.received + s.ch, Step(s, a, cap).received + Step(s, a, cap).ch;
            sent <= sent' && forall i | |sent| <= i < |sent'| :: sent'[i].kind != Error
  {
    StepSends(s, a, cap);
  }

  /** So the session forwards no Error: in any reachable state, whatever its own steps add for the consumer is data. */
  lemma NoErrorIsForwarded(s: State, actions: seq<Action>, cap: nat, a: Action)
    requires Init(s, cap) && !a.OtherSends? && !a.OtherHands?
    ensures var s1 := Run(s, actions, cap);
            var s2 := Step(s1, a, cap);
            && s1.received + s1.ch <= s2.received + s2.ch
            && forall i | |s1.received + s1.ch| <= i < |s2.received + s2.ch| :: (s2.received + s2.ch)[i].kind != Error
  {
    RunKeepsRefused(s, actions, cap);
    StepForwardsNoError(Run(s, actions, cap), a, cap);
  }
}
