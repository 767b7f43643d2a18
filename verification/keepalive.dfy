/** The KeepAlive heartbeat protocol of one endpoint, in both roles.

    The timer facility, the endpoint and the manager are outside the model: arming a
    timer, sending a message and calling `manager.endpointTimedOut` are recorded as
    effects, a timer firing is an explicit event, and whether a send reaches the wire
    (`endpoint.send` may throw `EndpointUnavailable`) is an input of the event. */
module KeepAlive {

  const ProtocolName := "KeepAliveProtocol"

  /** The period of both timers, in milliseconds. */
  const TimeoutMillis: nat := 20000

  datatype Message = KeepAliveRequest | KeepAliveReply

  /** The server's timer is armed by `checkClientTimeout`, the client's by `startAsClient`. */
  datatype TimerKind = ServerTimer | ClientTimer

  datatype Effect =
    | Sent(msg: Message)
    | TimedOut                              // manager.endpointTimedOut(endpoint, this)
    | Armed(timer: TimerKind, millis: nat)  // a timer set on the shared timer facility

  /** What a start or receive handler returns to its caller: `EndpointUnavailable` is the
      exception the failed send propagates. */
  datatype Status = Delivered | EndpointUnavailable

  /** The protocol's two flags and everything it has done so far. */
  datatype State = State(isAlive: bool, running: bool, effects: seq<Effect>)

  /** Calls made on the protocol and timer firings, each with the outcome of the send it
      makes, where it makes one. */
  datatype Event =
    | StartAsServer
    | StartAsClient(sendOk: bool)
    | StopProtocol
    | ServerTimerFires
    | ClientTimerFires(sendOk: bool)
    | ReceiveReply
    | ReceiveRequest(sendOk: bool)

  /** A newly constructed protocol. */
  const Initial := State(false, false, [])

  /** `startAsClient`: running, then a request, then (only if the send did not throw) the timer. */
  function ClientStart(s: State, sendOk: bool): State {
    if sendOk then State(s.isAlive, true, s.effects + [Sent(KeepAliveRequest), Armed(ClientTimer, TimeoutMillis)])
    else State(s.isAlive, true, s.effects)
  }

  /** `startAsServer`: running, and a timer from `checkClientTimeout`; nothing is sent. */
  function ServerStart(s: State): State {
    State(s.isAlive, true, s.effects + [Armed(ServerTimer, TimeoutMillis)])
  }

  /** The specification of every handler: the state after one event. */
  function Step(s: State, e: Event): State {
    match e
    case StartAsServer => ServerStart(s)
    case StartAsClient(ok) => ClientStart(s, ok)
    case StopProtocol => s.(running := false)
    case ServerTimerFires =>
      if !s.running then s
      else if s.isAlive then ServerStart(s.(isAlive := false))
      else s.(effects := s.effects + [TimedOut])
    case ClientTimerFires(ok) =>
      if s.isAlive then ClientStart(s.(isAlive := false), ok)
      else if !s.running then s
      else s.(effects := s.effects + [TimedOut])
    case ReceiveReply => s.(isAlive := true)
    case ReceiveRequest(ok) =>
      if ok then State(true, s.running, s.effects + [Sent(KeepAliveReply)]) else s
  }

  /** The state after a sequence of events, in order. */
  function Run(s: State, es: seq<Event>): State
    decreases |es|
  {
    if es == [] then s else Run(Step(s, es[0]), es[1..])
  }

  class KeepAliveProtocol {
    var isAlive: bool
    var protocolRunning: bool
    var effects: seq<Effect>

    function Abs(): State
      reads this
    {
      State(isAlive, protocolRunning, effects)
    }

    constructor ()
      ensures !isAlive && !protocolRunning && effects == []
      ensures Abs() == Initial
    {
      isAlive, protocolRunning, effects := false, false, [];
    }

    method StopProtocol()
      modifies this
      ensures !protocolRunning && isAlive == old(isAlive) && effects == old(effects)
      ensures Abs() == Step(old(Abs()), Event.StopProtocol)
    {
      if protocolRunning {
        protocolRunning := false;
      }
    }

    /** Arms the server's timer; what happens when it fires is `ServerTimerFires`. */
    method CheckClientTimeout()
      modifies this
      ensures effects == old(effects) + [Armed(ServerTimer, TimeoutMillis)]
      ensures isAlive == old(isAlive) && protocolRunning == old(protocolRunning)
    {
      effects := effects + [Armed(ServerTimer, TimeoutMillis)];
    }

    method StartAsServer()
      modifies this
      ensures protocolRunning && isAlive == old(isAlive)
      ensures effects == old(effects) + [Armed(ServerTimer, TimeoutMillis)]
      ensures Abs() == Step(old(Abs()), Event.StartAsServer)
    {
      protocolRunning := true;
      CheckClientTimeout();
    }

    /** The callback of the server's timer. */
    method ServerTimerFires()
      modifies this
      ensures !old(protocolRunning) ==> Abs() == old(Abs())
      ensures old(protocolRunning) && old(isAlive) ==>
        (!isAlive && protocolRunning && effects == old(effects) + [Armed(ServerTimer, TimeoutMillis)])
      ensures old(protocolRunning) && !old(isAlive) ==>
        (!isAlive && protocolRunning && effects == old(effects) + [TimedOut])
      ensures Abs() == Step(old(Abs()), Event.ServerTimerFires)
    {
      if !protocolRunning {
      } else if isAlive {
        isAlive := false;
        StartAsServer();
      } else {
        effects := effects + [TimedOut];
      }
    }

    method StartAsClient(sendOk: bool) returns (status: Status)
      modifies this
      ensures protocolRunning && isAlive == old(isAlive)
      ensures status == (if sendOk then Delivered else EndpointUnavailable)
      ensures effects == old(effects) + (if sendOk then [Sent(KeepAliveRequest), Armed(ClientTimer, TimeoutMillis)] else [])
      ensures Abs() == Step(old(Abs()), Event.StartAsClient(sendOk))
    {
      protocolRunning := true;
      status := SendRequest(KeepAliveRequest, sendOk);
      if status == Delivered {
        effects := effects + [Armed(ClientTimer, TimeoutMillis)];
      }
    }

    /** The callback of the client's timer. The alive flag is checked before the running
        flag, so a stopped client whose flag is set sends again and is running again;
        an `EndpointUnavailable` from that send is swallowed. */
    method ClientTimerFires(sendOk: bool)
      modifies this
      ensures old(isAlive) ==> (!isAlive && protocolRunning &&
        effects == old(effects) + (if sendOk then [Sent(KeepAliveRequest), Armed(ClientTimer, TimeoutMillis)] else []))
      ensures !old(isAlive) && !old(protocolRunning) ==> Abs() == old(Abs())
      ensures !old(isAlive) && old(protocolRunning) ==>
        (!isAlive && protocolRunning && effects == old(effects) + [TimedOut])
      ensures Abs() == Step(old(Abs()), Event.ClientTimerFires(sendOk))
    {
      if isAlive {
        isAlive := false;
        var _ := StartAsClient(sendOk);
      } else if !protocolRunning {
      } else {
        effects := effects + [TimedOut];
      }
    }

    method SendRequest(msg: Message, sendOk: bool) returns (status: Status)
      modifies this
      ensures status == (if sendOk then Delivered else EndpointUnavailable)
      ensures effects == old(effects) + (if sendOk then [Sent(msg)] else [])
      ensures isAlive == old(isAlive) && protocolRunning == old(protocolRunning)
    {
      if sendOk {
        effects := effects + [Sent(msg)];
        status := Delivered;
      } else {
        status := EndpointUnavailable;
      }
    }

    method SendReply(msg: Message, sendOk: bool) returns (status: Status)
      modifies this
      ensures status == (if sendOk then Delivered else EndpointUnavailable)
      ensures effects == old(effects) + (if sendOk then [Sent(msg)] else [])
      ensures isAlive == old(isAlive) && protocolRunning == old(protocolRunning)
    {
      if sendOk {
        effects := effects + [Sent(msg)];
        status := Delivered;
      } else {
        status := EndpointUnavailable;
      }
    }

    method ReceiveReply()
      modifies this
      ensures isAlive && protocolRunning == old(protocolRunning) && effects == old(effects)
      ensures Abs() == Step(old(Abs()), Event.ReceiveReply)
    {
      isAlive := true;
    }

    /** Replies first; the flag is set only when the reply went out. */
    method ReceiveRequest(sendOk: bool) returns (status: Status)
      modifies this
      ensures status == (if sendOk then Delivered else EndpointUnavailable)
      ensures sendOk ==> isAlive && effects == old(effects) + [Sent(KeepAliveReply)]
      ensures !sendOk ==> isAlive == old(isAlive) && effects == old(effects)
      ensures protocolRunning == old(protocolRunning)
      ensures Abs() == Step(old(Abs()), Event.ReceiveRequest(sendOk))
    {
      status := SendReply(KeepAliveReply, sendOk);
      if status == Delivered {
        isAlive := true;
      }
    }
  }

  // ---------------------------------------------------------------------------
  // Properties of runs

  /** Running two sequences one after the other is running their concatenation. */
  lemma {:induction false} RunAppend(s: State, a: seq<Event>, b: seq<Event>)
    ensures Run(s, a + b) == Run(Run(s, a), b)
    decreases |a|
  {
    if a == [] {
      assert a + b == b;
    } else {
      assert (a + b)[1..] == a[1..] + b;
      RunAppend(Step(s, a[0]), a[1..], b);
    }
  }

  /** Effects are only ever appended. */
  lemma {:induction false} RunExtends(s: State, es: seq<Event>)
    ensures |s.effects| <= |Run(s, es).effects|
    ensures Run(s, es).effects[..|s.effects|] == s.effects
    decreases |es|
  {
    if es != [] {
      RunExtends(Step(s, es[0]), es[1..]);
    }
  }

  /** `n` heartbeat periods of a client whose server answers every request in time. */
  function AnsweredPeriods(n: nat): seq<Event> {
    if n == 0 then [] else AnsweredPeriods(n - 1) + [ReceiveReply, ClientTimerFires(true)]
  }

  /** `n` heartbeat periods of a server whose client sends a request in every period. */
  function RequestedPeriods(n: nat): seq<Event> {
    if n == 0 then [] else RequestedPeriods(n - 1) + [ReceiveRequest(true), ServerTimerFires]
  }

  /** `k` copies of `block`, in a row. */
  function Repeat<T>(block: seq<T>, k: nat): seq<T> {
    if k == 0 then [] else Repeat(block, k - 1) + block
  }

  function ClientBeat(): seq<Effect> {
    [Sent(KeepAliveRequest), Armed(ClientTimer, TimeoutMillis)]
  }

  /** A client that is answered in every period never times out: after `n` periods it
      has sent `n + 1` requests, each followed by one armed timer, and nothing else. */
  lemma {:induction false} AnsweredClientNeverTimesOut(n: nat)
    ensures var s := Run(Initial, [StartAsClient(true)] + AnsweredPeriods(n));
      s.running && !s.isAlive && s.effects == Repeat(ClientBeat(), n + 1)
  {
    if n == 0 {
      assert [StartAsClient(true)] + AnsweredPeriods(0) == [StartAsClient(true)];
    } else {
      AnsweredClientNeverTimesOut(n - 1);
      var prefix := [StartAsClient(true)] + AnsweredPeriods(n - 1);
      assert [StartAsClient(true)] + AnsweredPeriods(n) == prefix + [ReceiveReply, ClientTimerFires(true)];
      RunAppend(Initial, prefix, [ReceiveReply, ClientTimerFires(true)]);
    }
  }

  /** A client whose server goes silent after `n` answered periods: exactly one
      `endpointTimedOut`, no request after the last answered period, and as many timers
      armed as have fired, so no firing is left to come. */
  lemma SilentServerTimesOutOnce(n: nat)
    ensures var s := Run(Initial, [StartAsClient(true)] + AnsweredPeriods(n) + [ClientTimerFires(true)]);
      s.effects == Repeat(ClientBeat(), n + 1) + [TimedOut] &&
      multiset(s.effects)[TimedOut] == 1 &&
      multiset(s.effects)[Sent(KeepAliveRequest)] == n + 1 &&
      multiset(s.effects)[Armed(ClientTimer, TimeoutMillis)] == n + 1
  {
    AnsweredClientNeverTimesOut(n);
    RunAppend(Initial, [StartAsClient(true)] + AnsweredPeriods(n), [ClientTimerFires(true)]);
    RepeatCounts(n + 1);
  }

  lemma {:induction false} RepeatCounts(k: nat)
    ensures multiset(Repeat(ClientBeat(), k))[TimedOut] == 0
    ensures multiset(Repeat(ClientBeat(), k))[Sent(KeepAliveRequest)] == k
    ensures multiset(Repeat(ClientBeat(), k))[Armed(ClientTimer, TimeoutMillis)] == k
  {
    if k > 0 {
      RepeatCounts(k - 1);
      var before := Repeat(ClientBeat(), k - 1);
      var beat := multiset{Sent(KeepAliveRequest), Armed(ClientTimer, TimeoutMillis)};
      assert multiset(ClientBeat()) == beat;
      assert multiset(Repeat(ClientBeat(), k)) == multiset(before) + beat;
      assert beat[TimedOut] == 0 && beat[Sent(KeepAliveRequest)] == 1 && beat[Armed(ClientTimer, TimeoutMillis)] == 1;
    }
  }

  function ServerBeat(): seq<Effect> {
    [Sent(KeepAliveReply), Armed(ServerTimer, TimeoutMillis)]
  }

  /** A server that receives a request in every period never times out: it has armed
      one timer at start and one more per period, and replied once per period. */
  lemma {:induction false} RequestedServerNeverTimesOut(n: nat)
    ensures var s := Run(Initial, [StartAsServer] + RequestedPeriods(n));
      s.running && !s.isAlive && s.effects == [Armed(ServerTimer, TimeoutMillis)] + Repeat(ServerBeat(), n)
  {
    if n == 0 {
      assert [StartAsServer] + RequestedPeriods(0) == [StartAsServer];
    } else {
      RequestedServerNeverTimesOut(n - 1);
      var prefix := [StartAsServer] + RequestedPeriods(n - 1);
      assert [StartAsServer] + RequestedPeriods(n) == prefix + [ReceiveRequest(true), ServerTimerFires];
      RunAppend(Initial, prefix, [ReceiveRequest(true), ServerTimerFires]);
    }
  }

  /** A period with no request after `n` good ones: exactly one `endpointTimedOut`, and
      no timer armed for it. */
  lemma SilentClientTimesOutOnce(n: nat)
    ensures var s := Run(Initial, [StartAsServer] + RequestedPeriods(n) + [ServerTimerFires]);
      s.effects == [Armed(ServerTimer, TimeoutMillis)] + Repeat(ServerBeat(), n) + [TimedOut] &&
      multiset(s.effects)[TimedOut] == 1
  {
    RequestedServerNeverTimesOut(n);
    RunAppend(Initial, [StartAsServer] + RequestedPeriods(n), [ServerTimerFires]);
    ServerRepeatHasNoTimeout(n);
  }

  lemma {:induction false} ServerRepeatHasNoTimeout(k: nat)
    ensures TimedOut !in Repeat(ServerBeat(), k)
  {
    if k > 0 {
      ServerRepeatHasNoTimeout(k - 1);
    }
  }

  /** A stopped server is inert: any number of late firings of its timer change nothing. */
  lemma {:induction false} StoppedServerIsInert(s: State, fires: seq<Event>)
    requires !s.running
    requires forall k :: 0 <= k < |fires| ==> fires[k] == ServerTimerFires
    ensures Run(s, fires) == s
    decreases |fires|
  {
    if fires != [] {
      StoppedServerIsInert(s, fires[1..]);
    }
  }

  /** A stopped client is inert against its timer only while its alive flag is clear. */
  lemma {:induction false} StoppedQuietClientIsInert(s: State, fires: seq<Event>)
    requires !s.running && !s.isAlive
    requires forall k :: 0 <= k < |fires| ==> fires[k].ClientTimerFires?
    ensures Run(s, fires) == s
    decreases |fires|
  {
    if fires != [] {
      StoppedQuietClientIsInert(s, fires[1..]);
    }
  }

  /** ... and a stopped client whose alive flag is still set sends a new request, re-arms
      its timer and is running again when that timer fires. */
  lemma StoppedAliveClientRestarts(s: State)
    requires !s.running && s.isAlive
    ensures var t := Step(s, ClientTimerFires(true));
      t.running && !t.isAlive && t.effects == s.effects + ClientBeat()
  {
  }

  /** A timeout does not stop the protocol: both roles are still running after it. */
  lemma TimeoutLeavesProtocolRunning(s: State, e: Event)
    requires e == ServerTimerFires || e.ClientTimerFires?
    requires s.running && !s.isAlive
    ensures Step(s, e) == s.(effects := s.effects + [TimedOut])
    ensures Step(s, e).running
  {
  }
}
