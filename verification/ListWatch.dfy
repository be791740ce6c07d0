/**
 The etcd client handle of ListWatch over a whole run (pkg/listwatch/listwatch.go):
 `etcdCli` is set, closed and cleared by different methods, and a watch that ends
 closes its client but may leave the handle in place. What etcd and the context do is
 a script, one entry per attempt. What flows through the channels is in Pipeline.
 */
module ListWatch {
  import opened Wrappers
  import Retry

  /** A context: once done it stays done, and only then it has an error. */
  class Context {
    var done: bool

    constructor ()
      ensures !done
    {
      done := false;
    }

    method Cancel()
      modifies this
      ensures done
    {
      done := true;
    }

    /** `return ctx.Err()`: the error `f`, or nil while the context is live. */
    function Err<T>(f: T): Option<T>
      reads this
    {
      if done then Some(f) else None
    }
  }

  /** A clientv3 client; a closed one answers nothing. */
  class Client {
    var open: bool

    constructor ()
      ensures open
    {
      open := true;
    }

    method Close()
      modifies this
      ensures !open
    {
      open := false;
    }
  }

  /** One non-blocking try to report that the watch channel closed. */
  datatype Try = Sent | Done | Full

  /** How an established watch ends. */
  datatype WatchEnd = ContextDone | EventRefused | ChannelClosed(first: Try, second: Try, third: Try)

  /** The environment of one attempt. */
  datatype Weather = Weather(
    dials: bool,        // a new client can be created
    lists: bool,        // etcd answers the read of List
    sends: bool,        // the context stays live while the list is sent
    watches: bool,      // etcd answers the read of Watch
    end: WatchEnd)

  datatype Failure = DialFailed | ListFailed | SendInterrupted | WatchFailed | Watched(end: WatchEnd)

  datatype Handle = NoClient | Open | Stale

  // ---- Specification of one attempt ----

  function TryAt(end: WatchEnd, i: nat): Try
    requires end.ChannelClosed?
  {
    if i == 0 then end.first else if i == 1 then end.second else end.third
  }

  /** The first of the three tries from `i` on that is answered; Full if none is. */
  function Answer(end: WatchEnd, i: nat): Try
    requires end.ChannelClosed? && i <= 3
    decreases 3 - i
  {
    if i == 3 then Full else if TryAt(end, i) != Full then TryAt(end, i) else Answer(end, i + 1)
  }

  /** The context is found done before the message is sent or the three tries are over. */
  predicate CancelSeen(end: WatchEnd) {
    end.ChannelClosed? && Answer(end, 0) == Done
  }

  function AfterWatch(end: WatchEnd): Handle {
    if end.ChannelClosed? && !CancelSeen(end) then NoClient else Stale
  }

  /** What one attempt leaves: the handle, the error it returns (or nil), and whether it found the context done. */
  datatype Attempted = Attempted(handle: Handle, result: Option<Failure>, cancelled: bool)

  function AttemptOf(h: Handle, w: Weather): Attempted {
    if h == NoClient && !w.dials then Attempted(NoClient, Some(DialFailed), false)
    else if h == Stale || !w.lists then Attempted(NoClient, Some(ListFailed), false)
    else if !w.sends then Attempted(Open, Some(SendInterrupted), true)
    else if !w.watches then Attempted(NoClient, Some(WatchFailed), false)
    else Attempted(AfterWatch(w.end), Some(Watched(w.end)), w.end.ContextDone? || CancelSeen(w.end))
  }

  /** One attempt, and whether the context is found done while the backoff waits after it. */
  datatype Turn = Turn(weather: Weather, stops: bool)

  /** The handle before attempt `i` of a run. */
  function HandleAt(h: Handle, turns: seq<Turn>, i: nat): Handle
    requires i <= |turns|
  {
    if i == 0 then h else AttemptOf(HandleAt(h, turns, i - 1), turns[i - 1].weather).handle
  }

  /** The result of attempt `i`. */
  function ResultAt(h: Handle, turns: seq<Turn>, i: nat): Option<Failure>
    requires i < |turns|
  {
    AttemptOf(HandleAt(h, turns, i), turns[i].weather).result
  }

  /** An attempt found the context done. */
  predicate CancelledAt(h: Handle, turns: seq<Turn>, i: nat)
    requires i < |turns|
  {
    AttemptOf(HandleAt(h, turns, i), turns[i].weather).cancelled
  }

  /** The context was done to begin with, or one of the first `i` attempts found it done. */
  predicate DoneBy(done: bool, h: Handle, turns: seq<Turn>, i: nat)
    requires i <= |turns|
  {
    if i == 0 then done else DoneBy(done, h, turns, i - 1) || CancelledAt(h, turns, i - 1)
  }

  /**
   The backoff ends after attempt `i`: the context is found done during the delay, or it is
   done already and the delay is positive, so that only one branch of the select is ready.
   */
  predicate StopsAt(opts: Retry.Options, done: bool, h: Handle, turns: seq<Turn>, i: nat)
    requires i < |turns|
  {
    turns[i].stops || (DoneBy(done, h, turns, i + 1) && Retry.Wait(opts, i) > 0)
  }

  /** With a positive delay an attempt that found the context done is the last one. */
  lemma CancelledAttemptIsLast(opts: Retry.Options, done: bool, h: Handle, turns: seq<Turn>, i: nat)
    requires i < |turns| && Retry.Wait(opts, i) > 0
    ensures CancelledAt(h, turns, i) ==> StopsAt(opts, done, h, turns, i)
    ensures ResultAt(h, turns, i) == Some(SendInterrupted) ==> StopsAt(opts, done, h, turns, i)
  {
  }

  // ---- Recovery ----

  /** etcd reachable and the context live, up to an established watch. */
  predicate Fair(w: Weather) {
    w.dials && w.lists && w.sends && w.watches
  }

  /** After any history, fair weather establishes a watch at once, or at the second attempt if the handle was stale. */
  lemma OneStaleFailureAtMost(h: Handle, turns: seq<Turn>, n: nat)
    requires n + 1 < |turns| && Fair(turns[n].weather) && Fair(turns[n + 1].weather)
    ensures ResultAt(h, turns, n) == Some(if HandleAt(h, turns, n) == Stale then ListFailed else Watched(turns[n].weather.end))
    ensures HandleAt(h, turns, n) == Stale ==> ResultAt(h, turns, n + 1) == Some(Watched(turns[n + 1].weather.end))
  {
    assert HandleAt(h, turns, n) == Stale ==> HandleAt(h, turns, n + 1) == NoClient;
  }

  /** A stale handle comes only from a watch that ended in the attempt just before: never two such failures in a row. */
  lemma StaleComesFromAWatch(h: Handle, turns: seq<Turn>, i: nat)
    requires h != Stale && i < |turns| && HandleAt(h, turns, i) == Stale
    ensures i > 0 && ResultAt(h, turns, i - 1) == Some(Watched(turns[i - 1].weather.end))
    ensures ResultAt(h, turns, i) == Some(ListFailed) && HandleAt(h, turns, i + 1) == NoClient
  {
    assert i > 0 ==> HandleAt(h, turns, i) == AttemptOf(HandleAt(h, turns, i - 1), turns[i - 1].weather).handle;
  }

  /** The three tries, in turn, meet a context that is done before the message gets out. */
  predicate FoundDone(first: Try, second: Try, third: Try) {
    first == Done || (first == Full && (second == Done || (second == Full && third == Done)))
  }

  /**
   What an established watch leaves, for each way it can end: a refused event or a context that
   is done leaves a stale handle, a closed channel clears it unless the tries find the context done.
   */
  lemma WatchLeaves(h: Handle, w: Weather)
    requires h != Stale && Fair(w)
    ensures var r := AttemptOf(h, w);
            match w.end
            case ContextDone => r.handle == Stale && r.cancelled
            case EventRefused => r.handle == Stale && !r.cancelled
            case ChannelClosed(first, second, third) =>
              && (r.handle == Stale <==> FoundDone(first, second, third))
              && (r.handle == NoClient <==> !FoundDone(first, second, third))
              && (r.cancelled <==> FoundDone(first, second, third))
  {
    if w.end.ChannelClosed? {
      assert TryAt(w.end, 0) == w.end.first && TryAt(w.end, 1) == w.end.second && TryAt(w.end, 2) == w.end.third;
      assert Answer(w.end, 3) == Full;
      assert Answer(w.end, 2) == w.end.third;
      assert Answer(w.end, 1) == if w.end.second != Full then w.end.second else w.end.third;
    }
  }

  // ---- The run as a backoff ----

  /** What the backoff sees of one call of the operation. */
  function Seen(result: Option<Failure>, stops: bool): Retry.Turn {
    if result.None? then Retry.Succeeds else if stops then Retry.FailsAndStops else Retry.FailsAndWaits
  }

  /** The calls of a run from the handle `h`, with a context that is done or not. */
  predicate IsScript(script: seq<Retry.Turn>, opts: Retry.Options, done: bool, h: Handle, turns: seq<Turn>) {
    && |script| == |turns|
    && forall i: nat {:trigger script[i]} | i < |turns| ::
         script[i] == Seen(ResultAt(h, turns, i), StopsAt(opts, done, h, turns, i))
  }

  function ScriptOf(opts: Retry.Options, done: bool, h: Handle, turns: seq<Turn>): (r: seq<Retry.Turn>)
    ensures IsScript(r, opts, done, h, turns)
  {
    seq(|turns|, i requires 0 <= i < |turns| => Seen(ResultAt(h, turns, i), StopsAt(opts, done, h, turns, i)))
  }

  /** The operation never returns nil, so the backoff sees no success. */
  lemma NoSuccessInScript(script: seq<Retry.Turn>, opts: Retry.Options, done: bool, h: Handle, turns: seq<Turn>)
    requires IsScript(script, opts, done, h, turns)
    ensures forall i | 0 <= i < |script| ::
              script[i] == if StopsAt(opts, done, h, turns, i) then Retry.FailsAndStops else Retry.FailsAndWaits
  {
  }

  /** The first `n` attempts of a run that starts with a live context do not end it. */
  predicate GoesOn(opts: Retry.Options, h: Handle, turns: seq<Turn>, n: nat)
    requires n <= |turns|
  {
    forall i | 0 <= i < n :: !StopsAt(opts, false, h, turns, i)
  }

  /** A run that goes on behind a positive delay has a live context. */
  lemma GoingOnMeansLive(opts: Retry.Options, h: Handle, turns: seq<Turn>)
    requires GoesOn(opts, h, turns, |turns|) && (turns != [] ==> Retry.Wait(opts, |turns| - 1) > 0)
    ensures !DoneBy(false, h, turns, |turns|)
  {
    if turns != [] {
      assert !StopsAt(opts, false, h, turns, |turns| - 1);
    }
  }

  /** What a whole backoff amounts to when no attempt succeeds. */
  lemma BackoffOfFailures(opts: Retry.Options, h: Handle, turns: seq<Turn>, script: seq<Retry.Turn>,
                          outcome: Retry.Outcome, calls: nat, waits: seq<int>)
    requires IsScript(script, opts, false, h, turns) && Retry.BacksOff(opts, script, outcome, calls, waits)
    ensures outcome != Retry.ReturnedNil && Retry.AreWaits(waits, opts) && |waits| <= |turns| && GoesOn(opts, h, turns, |waits|)
    ensures outcome == Retry.Running ==> |waits| == calls == |turns|
    ensures outcome == Retry.ContextError ==> |waits| < |turns| && StopsAt(opts, false, h, turns, |waits|)
  {
    NoSuccessInScript(script, opts, false, h, turns);
  }

  class ListWatch {
    var etcdCli: Client?
    ghost var clients: set<Client>

    /** At most one client is open, and it is the current handle: every other one was closed. */
    ghost predicate Valid()
      reads this, clients
    {
      && (etcdCli != null ==> etcdCli in clients)
      && forall c | c in clients && c.open :: c == etcdCli
    }

    ghost function State(): Handle
      reads this, etcdCli
    {
      if etcdCli == null then NoClient else if etcdCli.open then Open else Stale
    }

    /** What every method may do to the set of clients. */
    twostate predicate Grows()
      reads this
    {
      old(clients) <= clients && fresh(clients - old(clients))
    }

    constructor (cli: Client)
      requires cli.open
      ensures Valid() && State() == Open && clients == {cli} && etcdCli == cli
    {
      etcdCli := cli;
      clients := {cli};
    }

    /** NewListWatch: a non-empty prefix and a client, or nothing. */
    static method NewListWatch(prefix: string, dials: bool) returns (lw: ListWatch?)
      ensures lw != null <==> prefix != "" && dials
      ensures lw != null ==> fresh(lw) && fresh(lw.clients) && lw.Valid() && lw.State() == Open
    {
      if prefix == "" || !dials {
        return null;
      }
      var cli := new Client();
      lw := new ListWatch(cli);
    }

    method CloseEtcdClient()
      requires Valid()
      modifies this, clients
      ensures Valid() && Grows() && clients == old(clients)
      ensures State() == NoClient && forall c | c in clients :: !c.open
    {
      if etcdCli != null {
        etcdCli.Close();
        etcdCli := null;
      }
    }

    method EnsureConnected(dials: bool) returns (ok: bool)
      requires Valid()
      modifies this, clients
      ensures Valid() && Grows()
      ensures ok <==> old(State()) != NoClient || dials
      ensures State() == if old(State()) == NoClient && dials then Open else old(State())
    {
      if etcdCli != null {
        return true;
      }
      if !dials {
        return false;
      }
      var cli := new Client();
      etcdCli := cli;
      clients := clients + {cli};
      ok := true;
    }

    /** A read through the handle. */
    method Get(answers: bool) returns (ok: bool)
      requires Valid() && etcdCli != null
      ensures ok <==> State() == Open && answers
    {
      ok := etcdCli.open && answers;
    }

    method ListAndSendExisting(w: Weather, ctx: Context) returns (failure: Option<Failure>)
      requires Valid() && etcdCli != null
      modifies this, clients, ctx
      ensures Valid() && Grows()
      ensures old(State()) != Open || !w.lists ==> failure == Some(ListFailed) && State() == NoClient && ctx.done == old(ctx.done)
      ensures old(State()) == Open && w.lists ==>
                && State() == Open && etcdCli == old(etcdCli)
                && failure == (if w.sends then None else Some(SendInterrupted))
                && ctx.done == (old(ctx.done) || !w.sends)
    {
      var listed := Get(w.lists);
      if !listed {
        CloseEtcdClient();
        return Some(ListFailed);
      }
      if !w.sends {
        ctx.Cancel();
        return ctx.Err(SendInterrupted);
      }
      failure := None;
    }

    method HandleWatchChannelClose(tries: WatchEnd, ctx: Context) returns (failure: Option<Failure>)
      requires Valid() && tries.ChannelClosed?
      modifies this, clients, ctx
      ensures Valid() && Grows() && clients == old(clients) && failure == Some(Watched(tries))
      ensures if CancelSeen(tries) then etcdCli == old(etcdCli) && State() == old(State()) else State() == NoClient
      ensures ctx.done == (old(ctx.done) || CancelSeen(tries))
    {
      var i := 0;
      while i < 3
        invariant 0 <= i <= 3 && Answer(tries, i) == Answer(tries, 0)
        invariant Valid() && clients == old(clients) && etcdCli == old(etcdCli) && State() == old(State())
        invariant ctx.done == old(ctx.done)
      {
        var t := TryAt(tries, i);
        if t == Sent {
          CloseEtcdClient();
          return Some(Watched(tries));
        }
        if t == Done {
          ctx.Cancel();
          return ctx.Err(Watched(tries));
        }
        i := i + 1;
      }
      CloseEtcdClient();
      return Some(Watched(tries));
    }

    /** The deferred cancel function of Watch: it closes the client and keeps the handle. */
    method WatchCancel()
      requires Valid()
      modifies clients
      ensures Valid() && State() == if old(State()) == NoClient then NoClient else Stale
    {
      if etcdCli != null {
        etcdCli.Close();
      }
    }

    method WatchAndForwardEvents(w: Weather, ctx: Context) returns (failure: Option<Failure>)
      requires Valid() && State() == Open
      modifies this, clients, ctx
      ensures Valid() && Grows()
      ensures failure.Some? && failure == Some(if w.watches then Watched(w.end) else WatchFailed)
      ensures State() == if w.watches then AfterWatch(w.end) else NoClient
      ensures ctx.done == (old(ctx.done) || (w.watches && (w.end.ContextDone? || CancelSeen(w.end))))
    {
      var watching := Get(w.watches);
      if !watching {
        CloseEtcdClient();
        return Some(WatchFailed);
      }
      match w.end {
        case ContextDone =>
          ctx.Cancel();
          failure := ctx.Err(Watched(w.end));
        case EventRefused =>
          failure := Some(Watched(w.end));
        case ChannelClosed(_, _, _) =>
          failure := HandleWatchChannelClose(w.end, ctx);
      }
      WatchCancel();
    }

    /** One call of the retried operation; nil if all three parts return nil. */
    method Attempt(w: Weather, ctx: Context) returns (failure: Option<Failure>)
      requires Valid()
      modifies this, clients, ctx
      ensures Valid() && Grows()
      ensures failure.Some? && State() == AttemptOf(old(State()), w).handle && failure == AttemptOf(old(State()), w).result
      ensures ctx.done == (old(ctx.done) || AttemptOf(old(State()), w).cancelled)
    {
      var connected := EnsureConnected(w.dials);
      if !connected {
        return Some(DialFailed);
      }
      failure := ListAndSendExisting(w, ctx);
      if failure.Some? {
        return;
      }
      failure := WatchAndForwardEvents(w, ctx);
      if failure.Some? {
        return;
      }
      return None;
    }

    /** Attempt number `i` of a run that started with the handle `h`. */
    method NextAttempt(turns: seq<Turn>, i: nat, ctx: Context, ghost done: bool, ghost h: Handle) returns (failure: Option<Failure>)
      requires Valid() && i < |turns| && State() == HandleAt(h, turns, i) && ctx.done == DoneBy(done, h, turns, i)
      modifies this, clients, ctx
      ensures Valid() && Grows()
      ensures State() == HandleAt(h, turns, i + 1) && failure == ResultAt(h, turns, i) && ctx.done == DoneBy(done, h, turns, i + 1)
    {
      failure := Attempt(turns[i].weather, ctx);
    }

    /** The backoff around the attempts, with its exit for nil and its exit for a context that is done. */
    method RunWithBackoff(opts: Retry.Options, turns: seq<Turn>, ctx: Context, ghost script: seq<Retry.Turn>)
      returns (outcome: Retry.Outcome, calls: nat, waits: seq<int>)
      requires Valid() && IsScript(script, opts, ctx.done, State(), turns)
      modifies this, clients, ctx
      ensures Valid() && Grows()
      ensures Retry.BacksOff(opts, script, outcome, calls, waits)
      ensures State() == HandleAt(old(State()), turns, calls)
      ensures ctx.done == (outcome == Retry.ContextError || DoneBy(old(ctx.done), old(State()), turns, calls))
    {
      ghost var h, done := State(), ctx.done;
      var currentDelay := opts.initial;
      calls, waits := 0, [];
      while calls < |turns|
        invariant Valid() && Grows() && |waits| == calls <= |turns|
        invariant State() == HandleAt(h, turns, calls) && ctx.done == DoneBy(done, h, turns, calls)
        invariant Retry.Waited(script, calls) && Retry.AreWaits(waits, opts) && currentDelay == Retry.Wait(opts, calls)
      {
        var failure := NextAttempt(turns, calls, ctx, done, h);
        var stops := turns[calls].stops || (ctx.done && currentDelay > 0);
        assert script[calls] == Seen(failure, stops);
        calls := calls + 1;
        if failure.None? {
          return Retry.ReturnedNil, calls, waits;
        }
        if stops {
          ctx.Cancel();
          return Retry.ContextError, calls, waits;
        }
        waits := waits + [currentDelay];
        currentDelay := Retry.NextDelay(opts, currentDelay);
      }
      outcome := Retry.Running;
    }

    /**
     The loop and its cleanup. It starts another backoff whenever one returns while the
     context is live; since no attempt returns nil, that never happens.
     */
    method RunListWatchLoop(opts: Retry.Options, turns: seq<Turn>, ctx: Context)
      returns (finished: bool, backoffs: nat, waits: seq<int>)
      requires Valid()
      modifies this, clients, ctx
      ensures Valid() && Grows()
      ensures backoffs == if old(ctx.done) || turns == [] then 0 else 1
      ensures finished <==> old(ctx.done) || exists i :: 0 <= i < |turns| && StopsAt(opts, false, old(State()), turns, i)
      ensures finished ==> ctx.done && State() == NoClient && forall c | c in clients :: !c.open
      ensures Retry.PositiveDelays(opts) ==> (finished <==> ctx.done)
      ensures Retry.AreWaits(waits, opts) && |waits| <= |turns| && GoesOn(opts, old(State()), turns, |waits|)
      ensures backoffs == 1 ==> |waits| == |turns| || StopsAt(opts, false, old(State()), turns, |waits|)
    {
      ghost var h := State();
      var rest, running := turns, false;
      backoffs, waits := 0, [];
      while !running && !ctx.done && rest != []
        invariant Valid() && Grows()
        invariant backoffs == 0 ==> rest == turns && waits == [] && !running && State() == h && ctx.done == old(ctx.done)
        invariant backoffs > 0 ==> backoffs == 1 && !old(ctx.done) && turns != [] && (running || ctx.done)
        invariant Retry.AreWaits(waits, opts) && |waits| <= |turns| && GoesOn(opts, h, turns, |waits|)
        invariant backoffs > 0 ==>
                    if running then |waits| == |turns| && ctx.done == DoneBy(false, h, turns, |turns|)
                    else |waits| < |turns| && StopsAt(opts, false, h, turns, |waits|)
        decreases |rest|
      {
        ghost var script := ScriptOf(opts, ctx.done, State(), rest);
        var outcome, calls, delays := RunWithBackoff(opts, rest, ctx, script);
        BackoffOfFailures(opts, h, turns, script, outcome, calls, delays);
        backoffs, waits := backoffs + 1, delays;
        rest := rest[calls..];
        running := outcome == Retry.Running;
      }
      if running && Retry.PositiveDelays(opts) {
        Retry.PositiveDelaysArePositive(opts, |turns| - 1);
        GoingOnMeansLive(opts, h, turns);
      }
      finished := !running && ctx.done;
      if finished {
        CloseEtcdClient();
      }
    }
  }
}
