/** The client-side manager: the bounded connect loop of its constructor, the reconnect
    loop run after an abrupt disconnection, the protocols it layers on a ready endpoint,
    and its reactions to the endpoint's and the protocols' callbacks.

    Each `new Socket(host, port)` is an outcome taken from an input sequence (true: it
    connected); `Thread.sleep` is a recorded `Sleep` call; `System.exit(-1)` is the terminal
    outcome `GaveUp`; an endpoint's whole life (`new Endpoint`, `start`, `join`) is one
    recorded `EndpointRun`. When the input sequence runs out before the loop ends, the run
    stops with `OutOfOutcomes`. */
module Client {
  import opened Endpoints
  import KeepAlive

  const RetryCountMax: nat := 10
  const SleepMillis: nat := 5000
  const SessionProtocolName := "SessionProtocol"

  /** What the manager does, in the order it does it. */
  datatype Call =
    | Attempt(count: nat, connected: bool)   // new Socket(host, port), with the loop counter
    | Sleep(millis: nat)
    | EndpointRun                            // new Endpoint(socket, this); start(); join()
    | GiveUp                                 // System.exit(-1)
    | Register(protocol: string, result: HandleResult)
    | Start(protocol: string, delivered: bool)
    | CloseEndpoint

  datatype Outcome = Connected | GaveUp | OutOfOutcomes

  datatype Trace = Trace(calls: seq<Call>, outcome: Outcome)

  function Prepend(calls: seq<Call>, t: Trace): Trace {
    Trace(calls + t.calls, t.outcome)
  }

  // ---------------------------------------------------------------------------
  // The constructor's loop

  /** The constructor's loop from counter value `count` on. */
  function InitialLoop(attempts: seq<bool>, count: nat): Trace
    decreases |attempts|
  {
    if count >= RetryCountMax + 1 then Trace([GiveUp], GaveUp)
    else if attempts == [] then Trace([], OutOfOutcomes)
    else if attempts[0] then Trace([Attempt(count, true), EndpointRun], Connected)
    else Prepend([Attempt(count, false), Sleep(SleepMillis)], InitialLoop(attempts[1..], count + 1))
  }

  /** Everything the constructor does; its counter starts at 1. */
  function InitialConnect(attempts: seq<bool>): Trace {
    InitialLoop(attempts, 1)
  }

  /** `k` failed attempts numbered from `count`, each followed by exactly one sleep. */
  function FailedAttempts(count: nat, k: nat): seq<Call>
    decreases k
  {
    if k == 0 then [] else [Attempt(count, false), Sleep(SleepMillis)] + FailedAttempts(count + 1, k - 1)
  }

  /** How many outcomes at the front of `attempts` are failures. */
  function LeadingFailures(attempts: seq<bool>): (k: nat)
    ensures k <= |attempts|
    ensures forall i :: 0 <= i < k ==> !attempts[i]
    ensures k < |attempts| ==> attempts[k]
  {
    if attempts == [] || attempts[0] then 0 else 1 + LeadingFailures(attempts[1..])
  }

  function Min(a: nat, b: nat): nat {
    if a <= b then a else b
  }

  /** The constructor makes at most `RetryCountMax` attempts, numbered 1, 2, ... with one
      sleep after each failure, and stops at the first success, after which it runs one
      endpoint; when the first `RetryCountMax` attempts all fail it gives up. */
  lemma InitialLoopShape(attempts: seq<bool>, count: nat)
    requires 1 <= count <= RetryCountMax + 1
    ensures var k := Min(LeadingFailures(attempts), RetryCountMax + 1 - count);
      InitialLoop(attempts, count) ==
        Prepend(FailedAttempts(count, k),
          if count + k == RetryCountMax + 1 then Trace([GiveUp], GaveUp)
          else if k == |attempts| then Trace([], OutOfOutcomes)
          else Trace([Attempt(count + k, true), EndpointRun], Connected))
  {
    var k := Min(LeadingFailures(attempts), RetryCountMax + 1 - count);
    InitialLoopAfter(attempts, count, k);
    var rest := attempts[k..];
    if count + k < RetryCountMax + 1 && k < |attempts| {
      assert k == LeadingFailures(attempts) && rest[0] == attempts[k];
    }
  }

  /** `k` failures in a row take the loop `k` steps further, one failed attempt and one
      sleep each. */
  lemma {:induction false} InitialLoopAfter(attempts: seq<bool>, count: nat, k: nat)
    requires count + k <= RetryCountMax + 1 && k <= LeadingFailures(attempts)
    ensures InitialLoop(attempts, count) == Prepend(FailedAttempts(count, k), InitialLoop(attempts[k..], count + k))
    decreases k
  {
    if k > 0 {
      var next := attempts[1..];
      var head := [Attempt(count, false), Sleep(SleepMillis)];
      var later := FailedAttempts(count + 1, k - 1);
      var tail := InitialLoop(attempts[k..], count + k);
      assert InitialLoop(attempts, count) == Prepend(head, InitialLoop(next, count + 1)) by {
        InitialLoopFails(attempts, count);
      }
      assert InitialLoop(next, count + 1) == Prepend(later, tail) by {
        LeadingFailuresStep(attempts);
        InitialLoopAfter(next, count + 1, k - 1);
        DropThenSlice(attempts, k);
      }
      assert FailedAttempts(count, k) == head + later;
      PrependTwice(head, later, tail);
    } else {
      assert attempts[0..] == attempts;
    }
  }

  lemma InitialLoopFails(attempts: seq<bool>, count: nat)
    requires count < RetryCountMax + 1 && attempts != [] && !attempts[0]
    ensures InitialLoop(attempts, count) == Prepend([Attempt(count, false), Sleep(SleepMillis)], InitialLoop(attempts[1..], count + 1))
  {
  }

  lemma PrependTwice(a: seq<Call>, b: seq<Call>, t: Trace)
    ensures Prepend(a, Prepend(b, t)) == Prepend(a + b, t)
  {
    assert a + (b + t.calls) == (a + b) + t.calls;
  }

  /** A leading failure counts once more than the failures leading the rest. */
  lemma LeadingFailuresStep(attempts: seq<bool>)
    requires attempts != [] && !attempts[0]
    ensures LeadingFailures(attempts) == 1 + LeadingFailures(attempts[1..])
  {
  }

  lemma DropThenSlice<T>(s: seq<T>, k: nat)
    requires 1 <= k <= |s|
    ensures s[1..][k - 1..] == s[k..]
  {
  }

  /** The constructor's whole run, in closed form. */
  lemma InitialConnectShape(attempts: seq<bool>)
    ensures var k := Min(LeadingFailures(attempts), RetryCountMax);
      InitialConnect(attempts) ==
        Prepend(FailedAttempts(1, k),
          if k == RetryCountMax then Trace([GiveUp], GaveUp)
          else if k == |attempts| then Trace([], OutOfOutcomes)
          else Trace([Attempt(k + 1, true), EndpointRun], Connected))
  {
    InitialLoopShape(attempts, 1);
  }

  /** A host that refuses every time: exactly `RetryCountMax` attempts and as many sleeps,
      no endpoint, and the process gives up. */
  lemma AlwaysRefusedGivesUp(attempts: seq<bool>)
    requires |attempts| >= RetryCountMax
    requires forall i :: 0 <= i < RetryCountMax ==> !attempts[i]
    ensures InitialConnect(attempts) == Trace(FailedAttempts(1, RetryCountMax) + [GiveUp], GaveUp)
    ensures Count(InitialConnect(attempts).calls, KAttempt) == RetryCountMax
    ensures Count(InitialConnect(attempts).calls, KSleep) == RetryCountMax
    ensures Count(InitialConnect(attempts).calls, KEndpointRun) == 0
  {
    InitialConnectShape(attempts);
    var k := LeadingFailures(attempts);
    assert k < |attempts| ==> attempts[k];
    FailedAttemptsCounts(1, RetryCountMax);
    CountAppend(FailedAttempts(1, RetryCountMax), [GiveUp], KAttempt);
    CountAppend(FailedAttempts(1, RetryCountMax), [GiveUp], KSleep);
    CountAppend(FailedAttempts(1, RetryCountMax), [GiveUp], KEndpointRun);
  }

  // ---------------------------------------------------------------------------
  // Counting calls

  datatype Kind = KAttempt | KFailure | KSuccess | KSleep | KEndpointRun | KGiveUp | KClose

  predicate IsKind(c: Call, k: Kind) {
    match k
    case KAttempt => c.Attempt?
    case KFailure => c.Attempt? && !c.connected
    case KSuccess => c.Attempt? && c.connected
    case KSleep => c.Sleep?
    case KEndpointRun => c.EndpointRun?
    case KGiveUp => c.GiveUp?
    case KClose => c.CloseEndpoint?
  }

  function Count(calls: seq<Call>, k: Kind): nat {
    if calls == [] then 0 else (if IsKind(calls[0], k) then 1 else 0) + Count(calls[1..], k)
  }

  lemma {:induction false} CountAppend(a: seq<Call>, b: seq<Call>, k: Kind)
    ensures Count(a + b, k) == Count(a, k) + Count(b, k)
  {
    var c := a + b;
    if a == [] {
      assert c == b;
    } else {
      assert c != [] && c[0] == a[0] && c[1..] == a[1..] + b;
      CountAppend(a[1..], b, k);
    }
  }

  lemma {:induction false} FailedAttemptsCounts(count: nat, k: nat)
    ensures Count(FailedAttempts(count, k), KAttempt) == k
    ensures Count(FailedAttempts(count, k), KFailure) == k
    ensures Count(FailedAttempts(count, k), KSleep) == k
    ensures Count(FailedAttempts(count, k), KEndpointRun) == 0
    decreases k
  {
    if k > 0 {
      FailedAttemptsCounts(count + 1, k - 1);
      var head := [Attempt(count, false), Sleep(SleepMillis)];
      forall kind | kind in {KAttempt, KFailure, KSleep, KEndpointRun}
        ensures Count(FailedAttempts(count, k), kind) == Count(head, kind) + Count(FailedAttempts(count + 1, k - 1), kind)
      {
        CountAppend(head, FailedAttempts(count + 1, k - 1), kind);
      }
    }
  }

  // ---------------------------------------------------------------------------
  // The reconnect loop

  /** `retryConnect` from counter value `count` on: a failure sleeps and counts, a success
      runs an endpoint and leaves the counter alone, and the loop tries again after it. */
  function ReconnectLoop(attempts: seq<bool>, count: nat): Trace
    decreases |attempts|
  {
    if count >= RetryCountMax + 1 then Trace([GiveUp], GaveUp)
    else if attempts == [] then Trace([], OutOfOutcomes)
    else if attempts[0] then Prepend([Attempt(count, true), EndpointRun], ReconnectLoop(attempts[1..], count))
    else Prepend([Attempt(count, false), Sleep(SleepMillis)], ReconnectLoop(attempts[1..], count + 1))
  }

  /** The calls of one round of a connect loop: the attempt, then the endpoint run after
      a success or the sleep after a failure. */
  function Round(count: nat, connected: bool): (r: seq<Call>)
    ensures |r| == 2 && r[0] == Attempt(count, connected)
  {
    if connected then [Attempt(count, true), EndpointRun] else [Attempt(count, false), Sleep(SleepMillis)]
  }

  /** One round of the reconnect loop, read off its definition. */
  lemma ReconnectStep(attempts: seq<bool>, i: nat, count: nat)
    requires i < |attempts| && count < RetryCountMax + 1
    ensures ReconnectLoop(attempts[i..], count) ==
      Prepend(Round(count, attempts[i]), ReconnectLoop(attempts[i + 1..], if attempts[i] then count else count + 1))
  {
    assert attempts[i..][1..] == attempts[i + 1..];
  }

  function Failures(attempts: seq<bool>): nat {
    if attempts == [] then 0 else (if attempts[0] then 0 else 1) + Failures(attempts[1..])
  }

  /** The reconnect loop never ends connected: it gives up exactly when its input holds
      enough failures to take the counter from `count` to `RetryCountMax + 1`, and then it
      has failed exactly that often; otherwise it used up every outcome. Every failure is
      followed by one sleep, and every success runs one new endpoint. */
  lemma ReconnectCounts(attempts: seq<bool>, count: nat)
    requires count <= RetryCountMax + 1
    ensures var t := ReconnectLoop(attempts, count);
      && t.outcome != Connected
      && (t.outcome == GaveUp <==> Failures(attempts) >= RetryCountMax + 1 - count)
      && (t.outcome == GaveUp ==> Count(t.calls, KFailure) == RetryCountMax + 1 - count)
      && (t.outcome == OutOfOutcomes ==> Count(t.calls, KAttempt) == |attempts|)
      && Count(t.calls, KSleep) == Count(t.calls, KFailure)
      && Count(t.calls, KEndpointRun) == Count(t.calls, KSuccess)
      && Count(t.calls, KGiveUp) == (if t.outcome == GaveUp then 1 else 0)
  {
    ReconnectOutcome(attempts, count);
    ReconnectPairs(attempts, count);
  }

  /** How the reconnect loop ends, and how many attempts and failures it made. */
  lemma {:induction false} ReconnectOutcome(attempts: seq<bool>, count: nat)
    requires count <= RetryCountMax + 1
    ensures var t := ReconnectLoop(attempts, count);
      && t.outcome != Connected
      && (t.outcome == GaveUp <==> Failures(attempts) >= RetryCountMax + 1 - count)
      && (t.outcome == GaveUp ==> Count(t.calls, KFailure) == RetryCountMax + 1 - count)
      && (t.outcome == OutOfOutcomes ==> Count(t.calls, KAttempt) == |attempts|)
      && Count(t.calls, KGiveUp) == (if t.outcome == GaveUp then 1 else 0)
    decreases |attempts|
  {
    if count < RetryCountMax + 1 && attempts != [] {
      var next := if attempts[0] then count else count + 1;
      var head := if attempts[0] then [Attempt(count, true), EndpointRun] else [Attempt(count, false), Sleep(SleepMillis)];
      ReconnectOutcome(attempts[1..], next);
      var rest := ReconnectLoop(attempts[1..], next);
      assert ReconnectLoop(attempts, count) == Prepend(head, rest);
      CountAppend(head, rest.calls, KFailure);
      CountAppend(head, rest.calls, KAttempt);
      CountAppend(head, rest.calls, KGiveUp);
    }
  }

  /** In the reconnect loop every failure is followed by one sleep and every success runs
      one endpoint. */
  lemma {:induction false} ReconnectPairs(attempts: seq<bool>, count: nat)
    ensures var t := ReconnectLoop(attempts, count);
      && Count(t.calls, KSleep) == Count(t.calls, KFailure)
      && Count(t.calls, KEndpointRun) == Count(t.calls, KSuccess)
    decreases |attempts|
  {
    if count < RetryCountMax + 1 && attempts != [] {
      var next := if attempts[0] then count else count + 1;
      var head := if attempts[0] then [Attempt(count, true), EndpointRun] else [Attempt(count, false), Sleep(SleepMillis)];
      ReconnectPairs(attempts[1..], next);
      var rest := ReconnectLoop(attempts[1..], next);
      assert ReconnectLoop(attempts, count) == Prepend(head, rest);
      assert Paired(head) by {
        CountPair(head[0], head[1]);
      }
      PairedAppend(head, rest.calls);
    }
  }

  /** Sleeps match failures and endpoint runs match successes. */
  predicate Paired(calls: seq<Call>) {
    Count(calls, KSleep) == Count(calls, KFailure) && Count(calls, KEndpointRun) == Count(calls, KSuccess)
  }

  lemma PairedAppend(a: seq<Call>, b: seq<Call>)
    requires Paired(a) && Paired(b)
    ensures Paired(a + b)
  {
    CountAppend(a, b, KSleep);
    CountAppend(a, b, KFailure);
    CountAppend(a, b, KEndpointRun);
    CountAppend(a, b, KSuccess);
  }

  /** How often each kind occurs in two calls. */
  lemma CountPair(x: Call, y: Call)
    ensures forall k :: Count([x, y], k) == (if IsKind(x, k) then 1 else 0) + (if IsKind(y, k) then 1 else 0)
  {
    forall k ensures Count([x, y], k) == (if IsKind(x, k) then 1 else 0) + (if IsKind(y, k) then 1 else 0) {
      assert [x, y][1..] == [y] && [y][1..] == [];
      assert Count([y], k) == (if IsKind(y, k) then 1 else 0) + Count([], k);
      assert Count([x, y], k) == (if IsKind(x, k) then 1 else 0) + Count([y], k);
    }
  }

  /** Only failures move the counter: every attempt is numbered with the starting value
      plus the number of failures before it. */
  predicate NumberedFrom(calls: seq<Call>, count: nat) {
    forall i :: 0 <= i < |calls| && calls[i].Attempt? ==> calls[i].count == count + Count(calls[..i], KFailure)
  }

  lemma {:induction false} ReconnectNumbering(attempts: seq<bool>, count: nat)
    ensures NumberedFrom(ReconnectLoop(attempts, count).calls, count)
    decreases |attempts|
  {
    var calls := ReconnectLoop(attempts, count).calls;
    if count < RetryCountMax + 1 && attempts != [] {
      var next := if attempts[0] then count else count + 1;
      var head := if attempts[0] then [Attempt(count, true), EndpointRun] else [Attempt(count, false), Sleep(SleepMillis)];
      ReconnectNumbering(attempts[1..], next);
      var rest := ReconnectLoop(attempts[1..], next).calls;
      assert calls == head + rest;
      assert NumberedFrom(rest, next);
      forall i | 0 <= i < |calls| && calls[i].Attempt?
        ensures calls[i].count == count + Count(calls[..i], KFailure)
      {
        if i == 0 {
          assert calls[0] == head[0] && calls[..i] == [];
        } else {
          assert i >= 2 && calls[i] == rest[i - 2];
          assert calls[..i] == head + rest[..i - 2];
          CountAppend(head, rest[..i - 2], KFailure);
          assert Count(head[1..], KFailure) == 0 by {
            assert head[1..][1..] == [];
          }
          assert Count(head, KFailure) == next - count;
          assert rest[i - 2].count == next + Count(rest[..i - 2], KFailure);
        }
      }
    }
  }

  /** After an abrupt disconnection, a server that accepts on the first attempt gets
      exactly one new endpoint, run before any further attempt. */
  lemma ReconnectFirstTry(rest: seq<bool>)
    ensures ReconnectLoop([true] + rest, 0) == Prepend([Attempt(0, true), EndpointRun], ReconnectLoop(rest, 0))
  {
    assert ([true] + rest)[1..] == rest;
  }

  // ---------------------------------------------------------------------------
  // Layering protocols on a ready endpoint

  /** The part of an endpoint's state that the manager's calls depend on. */
  datatype EndpointView = EndpointView(available: bool, protocols: seq<string>)

  /** Register a protocol, then (only if that worked) start it as client; an
      `EndpointUnavailable` from either step closes the endpoint, a
      `ProtocolAlreadyRunning` is only logged. */
  function Bootstrap(v: EndpointView, name: string, delivered: bool): (seq<Call>, EndpointView) {
    if !v.available then ([Register(name, EndpointUnavailable), CloseEndpoint], v)
    else if name in v.protocols then ([Register(name, ProtocolAlreadyRunning)], v)
    else
      var registered := v.(protocols := v.protocols + [name]);
      if delivered then ([Register(name, Handled), Start(name, true)], registered)
      else ([Register(name, Handled), Start(name, false), CloseEndpoint], registered.(available := false))
  }

  /** `endpointReady`: the session protocol, then the KeepAlive protocol, whatever became of
      the first. */
  function ReadyCalls(v: EndpointView, sessionDelivered: bool, keepAliveDelivered: bool): (seq<Call>, EndpointView) {
    var (first, v1) := Bootstrap(v, SessionProtocolName, sessionDelivered);
    var (second, v2) := Bootstrap(v1, KeepAlive.ProtocolName, keepAliveDelivered);
    (first + second, v2)
  }

  /** A call after which the manager closes the endpoint: a registration that found it
      unavailable, or a start whose send did not go through. */
  predicate Failing(c: Call) {
    (c.Register? && c.result == EndpointUnavailable) || (c.Start? && !c.delivered)
  }

  /** Every start comes right after its own successful registration. */
  predicate StartsAfterRegister(calls: seq<Call>) {
    forall i :: 0 <= i < |calls| && calls[i].Start? ==> i > 0 && calls[i - 1] == Register(calls[i].protocol, Handled)
  }

  /** Every failing call is followed at once by closing the endpoint. */
  predicate ClosesAfterFailure(calls: seq<Call>) {
    forall i :: 0 <= i < |calls| && Failing(calls[i]) ==> i + 1 < |calls| && calls[i + 1] == CloseEndpoint
  }

  /** Nothing but a failing call closes the endpoint. */
  predicate ClosesOnlyAfterFailure(calls: seq<Call>) {
    forall i :: 0 <= i < |calls| && calls[i] == CloseEndpoint ==> i > 0 && Failing(calls[i - 1])
  }

  predicate WellOrdered(calls: seq<Call>) {
    StartsAfterRegister(calls) && ClosesAfterFailure(calls) && ClosesOnlyAfterFailure(calls)
  }

  /** One bootstrap registers its protocol first and keeps the ordering rules. */
  lemma BootstrapOrder(v: EndpointView, name: string, delivered: bool)
    ensures var calls := Bootstrap(v, name, delivered).0;
      |calls| >= 1 && calls[0].Register? && calls[0].protocol == name && WellOrdered(calls)
  {
  }

  /** Two well-ordered call lists, the second starting with a registration, stay well
      ordered when run one after the other. */
  lemma WellOrderedAppend(a: seq<Call>, b: seq<Call>)
    requires WellOrdered(a) && WellOrdered(b)
    requires b != [] && b[0].Register?
    ensures WellOrdered(a + b)
  {
    var c := a + b;
    forall i | 0 <= i < |c| && c[i].Start?
      ensures i > 0 && c[i - 1] == Register(c[i].protocol, Handled)
    {
      if i >= |a| {
        assert c[i] == b[i - |a|];
        assert i - |a| > 0;
        assert c[i - 1] == b[i - |a| - 1];
      }
    }
    forall i | 0 <= i < |c| && Failing(c[i])
      ensures i + 1 < |c| && c[i + 1] == CloseEndpoint
    {
      if i >= |a| {
        assert c[i] == b[i - |a|];
      }
    }
    forall i | 0 <= i < |c| && c[i] == CloseEndpoint
      ensures i > 0 && Failing(c[i - 1])
    {
      if i >= |a| {
        assert c[i] == b[i - |a|];
        assert i - |a| > 0;
        assert c[i - 1] == b[i - |a| - 1];
      }
    }
  }

  /** In `endpointReady` each protocol is registered before it is started, the session
      protocol goes first, the KeepAlive step is always taken, and every failing call is
      followed at once by closing the endpoint (and nothing else closes it). */
  lemma ReadyOrder(v: EndpointView, sd: bool, kd: bool)
    ensures var calls := ReadyCalls(v, sd, kd).0;
      && |calls| >= 2 && calls[0].Register? && calls[0].protocol == SessionProtocolName
      && (exists i :: 0 < i < |calls| && calls[i].Register? && calls[i].protocol == KeepAlive.ProtocolName)
      && StartsAfterRegister(calls) && ClosesAfterFailure(calls) && ClosesOnlyAfterFailure(calls)
  {
    var (first, v1) := Bootstrap(v, SessionProtocolName, sd);
    var (second, v2) := Bootstrap(v1, KeepAlive.ProtocolName, kd);
    var calls := first + second;
    assert calls == ReadyCalls(v, sd, kd).0;
    BootstrapOrder(v, SessionProtocolName, sd);
    BootstrapOrder(v1, KeepAlive.ProtocolName, kd);
    WellOrderedAppend(first, second);
    assert calls[|first|] == second[0];
  }

  /** On a fresh, usable endpoint with both sends delivered, both protocols end up
      registered, session first, and the endpoint stays open. */
  lemma ReadyOnFreshEndpoint()
    ensures ReadyCalls(EndpointView(true, []), true, true) ==
      ([Register(SessionProtocolName, Handled), Start(SessionProtocolName, true),
        Register(KeepAlive.ProtocolName, Handled), Start(KeepAlive.ProtocolName, true)],
       EndpointView(true, [SessionProtocolName, KeepAlive.ProtocolName]))
  {
    assert SessionProtocolName[0] != KeepAlive.ProtocolName[0];
    var v1 := EndpointView(true, [SessionProtocolName]);
    assert [] + [SessionProtocolName] == [SessionProtocolName];
    assert [SessionProtocolName] + [KeepAlive.ProtocolName] == [SessionProtocolName, KeepAlive.ProtocolName];
    assert Bootstrap(EndpointView(true, []), SessionProtocolName, true) ==
      ([Register(SessionProtocolName, Handled), Start(SessionProtocolName, true)], v1);
    assert KeepAlive.ProtocolName !in v1.protocols;
    assert Bootstrap(v1, KeepAlive.ProtocolName, true) ==
      ([Register(KeepAlive.ProtocolName, Handled), Start(KeepAlive.ProtocolName, true)],
       EndpointView(true, [SessionProtocolName, KeepAlive.ProtocolName]));
    assert [Register(SessionProtocolName, Handled), Start(SessionProtocolName, true)]
      + [Register(KeepAlive.ProtocolName, Handled), Start(KeepAlive.ProtocolName, true)] ==
      [Register(SessionProtocolName, Handled), Start(SessionProtocolName, true),
       Register(KeepAlive.ProtocolName, Handled), Start(KeepAlive.ProtocolName, true)];
  }

  /** `protocolRequested` starts the protocol before registering it and accepts it only
      when both steps succeed. */
  function RequestedCalls(v: EndpointView, name: string, startDelivered: bool): (r: (seq<Call>, bool))
    ensures r.1 <==> startDelivered && v.available && name !in v.protocols
    ensures |r.0| >= 1 && r.0[0] == Start(name, startDelivered)
    ensures CloseEndpoint !in r.0
  {
    if !startDelivered then ([Start(name, false)], false)
    else if !v.available then ([Start(name, true), Register(name, EndpointUnavailable)], false)
    else if name in v.protocols then ([Start(name, true), Register(name, ProtocolAlreadyRunning)], false)
    else ([Start(name, true), Register(name, Handled)], true)
  }

  class ClientManager {
    const host: string
    const port: int
    /** Whether a socket has been connected (the field is non-null). */
    var socket: bool
    var calls: seq<Call>
    var outcome: Outcome
    var keepAliveProtocol: KeepAlive.KeepAliveProtocol?

    /** The constructor: try to connect, up to `RetryCountMax` times. */
    constructor (host: string, port: int, attempts: seq<bool>)
      ensures this.host == host && this.port == port
      ensures Trace(calls, outcome) == InitialConnect(attempts)
      ensures socket <==> outcome == Connected
      ensures keepAliveProtocol == null
    {
      this.host := host;
      this.port := port;
      keepAliveProtocol := null;
      var connected := false;
      var log: seq<Call> := [];
      var count := 1;
      var i := 0;
      while !connected && count < RetryCountMax + 1 && i < |attempts|
        invariant 0 <= i <= |attempts|
        invariant 1 <= count <= RetryCountMax + 1
        invariant !connected ==> InitialConnect(attempts) == Prepend(log, InitialLoop(attempts[i..], count))
        invariant connected ==> InitialConnect(attempts) == Trace(log + [EndpointRun], Connected)
        decreases |attempts| - i
      {
        assert attempts[i..][1..] == attempts[i + 1..];
        if attempts[i] {
          connected := true;
          log := log + [Attempt(count, true)];
        } else {
          log := log + [Attempt(count, false), Sleep(SleepMillis)];
          count := count + 1;
        }
        i := i + 1;
      }
      socket := connected;
      if connected {
        calls := log + [EndpointRun];
        outcome := Connected;
      } else if count >= RetryCountMax + 1 {
        calls := log + [GiveUp];
        outcome := GaveUp;
      } else {
        calls := log;
        outcome := OutOfOutcomes;
      }
    }

    /** `retryConnect`: its counter starts at 0, so it gives up only after
        `RetryCountMax + 1` failures. The socket is set by every successful connection. */
    method RetryConnect(attempts: seq<bool>)
      modifies this
      ensures Trace(calls, outcome) == Prepend(old(calls), ReconnectLoop(attempts, 0))
      ensures socket <==> old(socket) || Count(ReconnectLoop(attempts, 0).calls, KSuccess) > 0
      ensures keepAliveProtocol == old(keepAliveProtocol)
    {
      var count, i := RetryLoop(attempts);
      ghost var last := calls;
      if count >= RetryCountMax + 1 {
        calls := calls + [GiveUp];
        outcome := GaveUp;
        CountAppend(last, [GiveUp], KSuccess);
        assert Count([GiveUp], KSuccess) == 0 by {
          assert [GiveUp][1..] == [];
        }
      } else {
        outcome := OutOfOutcomes;
      }
      assert calls == old(calls) + ReconnectLoop(attempts, 0).calls;
      CountAppend(old(calls), ReconnectLoop(attempts, 0).calls, KSuccess);
    }

    /** The rounds of the `retryConnect` loop: they stop when the counter reaches
        `RetryCountMax + 1` or the outcomes `attempts` run out, after the first `i`. */
    method RetryLoop(attempts: seq<bool>) returns (count: nat, i: nat)
      modifies this
      ensures i <= |attempts| && count <= RetryCountMax + 1
      ensures count == RetryCountMax + 1 || i == |attempts|
      ensures Prepend(old(calls), ReconnectLoop(attempts, 0)) == Prepend(calls, ReconnectLoop(attempts[i..], count))
      ensures Count(calls, KSuccess) >= Count(old(calls), KSuccess)
      ensures socket <==> old(socket) || Count(calls, KSuccess) > Count(old(calls), KSuccess)
      ensures outcome == old(outcome) && keepAliveProtocol == old(keepAliveProtocol)
    {
      count := 0;
      i := 0;
      while count < RetryCountMax + 1 && i < |attempts|
        invariant i <= |attempts|
        invariant count <= RetryCountMax + 1
        invariant Prepend(old(calls), ReconnectLoop(attempts, 0)) == Prepend(calls, ReconnectLoop(attempts[i..], count))
        invariant Count(calls, KSuccess) >= Count(old(calls), KSuccess)
        invariant socket <==> old(socket) || Count(calls, KSuccess) > Count(old(calls), KSuccess)
        invariant outcome == old(outcome) && keepAliveProtocol == old(keepAliveProtocol)
      {
        ghost var before := calls;
        var next := if attempts[i] then count else count + 1;
        ReconnectStep(attempts, i, count);
        TryOnce(count, attempts[i]);
        PrependTwice(before, Round(count, attempts[i]), ReconnectLoop(attempts[i + 1..], next));
        count := next;
        i := i + 1;
      }
    }

    /** One round of the `retryConnect` loop: a connection that works is stored in `socket`
        and runs an endpoint; one that fails is slept on. */
    method TryOnce(count: nat, connected: bool)
      modifies this
      ensures calls == old(calls) + Round(count, connected)
      ensures socket == (old(socket) || connected)
      ensures Count(calls, KSuccess) == Count(old(calls), KSuccess) + (if connected then 1 else 0)
      ensures outcome == old(outcome) && keepAliveProtocol == old(keepAliveProtocol)
    {
      var round := Round(count, connected);
      CountAppend(calls, round, KSuccess);
      CountPair(round[0], round[1]);
      if connected {
        socket := true;
      }
      calls := calls + round;
    }

    method CloseEndpoint(endpoint: Endpoint)
      modifies this, endpoint
      ensures calls == old(calls) + [Call.CloseEndpoint]
      ensures !endpoint.available && endpoint.closeCalls == old(endpoint.closeCalls) + 1
      ensures endpoint.protocols == old(endpoint.protocols)
      ensures socket == old(socket) && outcome == old(outcome) && keepAliveProtocol == old(keepAliveProtocol)
    {
      calls := calls + [Call.CloseEndpoint];
      endpoint.Close();
    }

    /** One step of `endpointReady`: register `name`, start it if that worked, and close
        the endpoint on `EndpointUnavailable`. */
    method RegisterAndStart(endpoint: Endpoint, name: string, delivered: bool) returns (registered: bool)
      modifies this, endpoint
      ensures var (more, v) := Bootstrap(EndpointView(old(endpoint.available), old(endpoint.protocols)), name, delivered);
        calls == old(calls) + more && endpoint.available == v.available && endpoint.protocols == v.protocols
      ensures registered <==> old(endpoint.available) && name !in old(endpoint.protocols)
      ensures endpoint.closeCalls == old(endpoint.closeCalls) + (if old(endpoint.available) && (name in old(endpoint.protocols) || delivered) then 0 else 1)
      ensures socket == old(socket) && outcome == old(outcome) && keepAliveProtocol == old(keepAliveProtocol)
    {
      var r := endpoint.HandleProtocol(name);
      calls := calls + [Register(name, r)];
      registered := r == Handled;
      if r == Handled {
        calls := calls + [Start(name, delivered)];
        if !delivered {
          CloseEndpoint(endpoint);
        }
      } else if r == EndpointUnavailable {
        CloseEndpoint(endpoint);
      }
    }

    /** `endpointReady`; the session protocol's own start is outside the model except for
        whether its first send got through (`sessionDelivered`). */
    method EndpointReady(endpoint: Endpoint, sessionDelivered: bool, keepAliveDelivered: bool)
      modifies this, endpoint
      ensures var (more, v) := ReadyCalls(EndpointView(old(endpoint.available), old(endpoint.protocols)), sessionDelivered, keepAliveDelivered);
        calls == old(calls) + more && endpoint.available == v.available && endpoint.protocols == v.protocols
      ensures fresh(keepAliveProtocol)
      ensures keepAliveProtocol.Abs() ==
        if KeepAlive.ProtocolName in endpoint.protocols && KeepAlive.ProtocolName !in old(endpoint.protocols)
        then KeepAlive.Step(KeepAlive.Initial, KeepAlive.StartAsClient(keepAliveDelivered))
        else KeepAlive.Initial
      ensures socket == old(socket) && outcome == old(outcome)
    {
      var _ := RegisterAndStart(endpoint, SessionProtocolName, sessionDelivered);
      var ka := new KeepAlive.KeepAliveProtocol();
      keepAliveProtocol := ka;
      var _ := StartKeepAlive(endpoint, ka, keepAliveDelivered);
    }

    /** The KeepAlive step of `endpointReady`: the same as `RegisterAndStart`, with the
        protocol object itself started once it is registered. */
    method StartKeepAlive(endpoint: Endpoint, ka: KeepAlive.KeepAliveProtocol, delivered: bool) returns (registered: bool)
      modifies this, endpoint, ka
      ensures var (more, v) := Bootstrap(EndpointView(old(endpoint.available), old(endpoint.protocols)), KeepAlive.ProtocolName, delivered);
        calls == old(calls) + more && endpoint.available == v.available && endpoint.protocols == v.protocols
      ensures registered <==> old(endpoint.available) && KeepAlive.ProtocolName !in old(endpoint.protocols)
      ensures ka.Abs() == if registered then KeepAlive.Step(old(ka.Abs()), KeepAlive.StartAsClient(delivered)) else old(ka.Abs())
      ensures socket == old(socket) && outcome == old(outcome) && keepAliveProtocol == old(keepAliveProtocol)
    {
      var r := endpoint.HandleProtocol(KeepAlive.ProtocolName);
      calls := calls + [Register(KeepAlive.ProtocolName, r)];
      registered := r == Handled;
      if r == Handled {
        var status := ka.StartAsClient(delivered);
        calls := calls + [Start(KeepAlive.ProtocolName, delivered)];
        if status == KeepAlive.EndpointUnavailable {
          CloseEndpoint(endpoint);
        }
      } else if r == EndpointUnavailable {
        CloseEndpoint(endpoint);
      }
    }

    /** `endpointClosed` only logs. */
    method EndpointClosed(endpoint: Endpoint)
      ensures unchanged(this, endpoint)
    {
    }

    /** The old endpoint is closed before the reconnect loop starts. */
    method EndpointDisconnectedAbruptly(endpoint: Endpoint, attempts: seq<bool>)
      modifies this, endpoint
      ensures Trace(calls, outcome) == Prepend(old(calls) + [Call.CloseEndpoint], ReconnectLoop(attempts, 0))
      ensures !endpoint.available && endpoint.closeCalls == old(endpoint.closeCalls) + 1
      ensures endpoint.protocols == old(endpoint.protocols)
      ensures socket <==> old(socket) || Count(ReconnectLoop(attempts, 0).calls, KSuccess) > 0
      ensures keepAliveProtocol == old(keepAliveProtocol)
    {
      CloseEndpoint(endpoint);
      RetryConnect(attempts);
    }

    method EndpointSentInvalidMessage(endpoint: Endpoint)
      modifies this, endpoint
      ensures calls == old(calls) + [Call.CloseEndpoint]
      ensures !endpoint.available && endpoint.closeCalls == old(endpoint.closeCalls) + 1
      ensures endpoint.protocols == old(endpoint.protocols)
      ensures socket == old(socket) && outcome == old(outcome) && keepAliveProtocol == old(keepAliveProtocol)
    {
      CloseEndpoint(endpoint);
    }

    method EndpointTimedOut(endpoint: Endpoint, protocolName: string)
      modifies this, endpoint
      ensures calls == old(calls) + [Call.CloseEndpoint]
      ensures !endpoint.available && endpoint.closeCalls == old(endpoint.closeCalls) + 1
      ensures endpoint.protocols == old(endpoint.protocols)
      ensures socket == old(socket) && outcome == old(outcome) && keepAliveProtocol == old(keepAliveProtocol)
    {
      CloseEndpoint(endpoint);
    }

    method ProtocolViolation(endpoint: Endpoint, protocolName: string)
      modifies this, endpoint
      ensures calls == old(calls) + [Call.CloseEndpoint]
      ensures !endpoint.available && endpoint.closeCalls == old(endpoint.closeCalls) + 1
      ensures endpoint.protocols == old(endpoint.protocols)
      ensures socket == old(socket) && outcome == old(outcome) && keepAliveProtocol == old(keepAliveProtocol)
    {
      CloseEndpoint(endpoint);
    }

    /** `sessionStarted` only logs: no further protocol is layered here. */
    method SessionStarted(endpoint: Endpoint)
      ensures unchanged(this, endpoint)
    {
    }

    /** Closing the endpoint stops all its protocols as well. */
    method SessionStopped(endpoint: Endpoint)
      modifies this, endpoint
      ensures calls == old(calls) + [Call.CloseEndpoint]
      ensures !endpoint.available && endpoint.closeCalls == old(endpoint.closeCalls) + 1
      ensures endpoint.protocols == old(endpoint.protocols)
      ensures socket == old(socket) && outcome == old(outcome) && keepAliveProtocol == old(keepAliveProtocol)
    {
      CloseEndpoint(endpoint);
    }

    /** `protocolRequested`: whether `startAsClient` got its first message through is
        `startDelivered`; the protocol is started first and registered after. */
    method ProtocolRequested(endpoint: Endpoint, name: string, startDelivered: bool) returns (accepted: bool)
      modifies this, endpoint
      ensures var (more, ok) := RequestedCalls(EndpointView(old(endpoint.available), old(endpoint.protocols)), name, startDelivered);
        calls == old(calls) + more && accepted == ok
      ensures endpoint.protocols == if accepted then old(endpoint.protocols) + [name] else old(endpoint.protocols)
      ensures endpoint.available == old(endpoint.available) && endpoint.closeCalls == old(endpoint.closeCalls)
    {
      calls := calls + [Start(name, startDelivered)];
      if !startDelivered {
        accepted := false;
      } else {
        var r := endpoint.HandleProtocol(name);
        calls := calls + [Register(name, r)];
        accepted := r == Handled;
      }
    }
  }
}
