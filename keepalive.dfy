/**
 * The connection handling of `snipe(tokenAddress)` (src/contracts/PancakeSwap.ts).
 *
 * Each call of `snipe` registers "open", "close", "error" and "pong" listeners
 * on the one, process-wide `provider._websocket`, with its own closure
 * variables `keepAliveInterval` and `pingTimeout`. The model keeps one
 * `Session` per call, in registration order, and delivers the socket's events
 * and the timers' firings one at a time:
 *  - open: every session arms a keep-alive interval and subscribes to "pending";
 *  - a keep-alive interval fires: ping, and arm a pong deadline, overwriting
 *    the session's `pingTimeout` (an earlier deadline is not cleared);
 *  - pong: every session clears the deadline its `pingTimeout` names;
 *  - a pong deadline fires: the socket is terminated;
 *  - close or error: every session clears its interval and its deadline and
 *    calls `snipe(tokenAddress)` again, which registers a new session.
 * Timer handles are numbers drawn from `nextHandle`.
 */
module KeepAlive {
  import opened Common

  type Handle = nat

  /** The closure state of one `snipe` call. */
  datatype Session = Session(token: Address, keepAliveInterval: Option<Handle>, pingTimeout: Option<Handle>)

  /** What can happen next: a socket event, or a timer of the model firing. */
  datatype Event = Open | Tick(interval: Handle) | Pong | Timeout(deadline: Handle) | Close | Error

  /** The socket, the listeners registered on it and the armed timers. */
  datatype Socket = Socket(
    sessions: seq<Session>,       // one per `snipe` call, oldest first
    intervals: map<Handle, nat>,  // armed keep-alive intervals, to the index of the session whose closure they run in
    timeouts: set<Handle>,        // armed pong deadlines
    nextHandle: Handle,           // the next handle `setInterval`/`setTimeout` returns
    terminated: bool,             // `terminate()` has been called
    pendingListeners: nat,        // "pending" subscriptions made by open handlers
    pings: nat)                   // pings sent

  /** The state right after the first `snipe(token)` call. */
  function Initial(token: Address): Socket
  {
    Socket([Session(token, None, None)], map[], {}, 0, false, 0, 0)
  }

  function SlotSet(slot: Option<Handle>): set<Handle>
  {
    if slot.Some? then {slot.value} else {}
  }

  /** The handles held in the sessions' `pingTimeout` variables. */
  function PingSlots(ss: seq<Session>): set<Handle>
  {
    if ss == [] then {} else PingSlots(ss[..|ss| - 1]) + SlotSet(ss[|ss| - 1].pingTimeout)
  }

  /** The handles held in the sessions' `keepAliveInterval` variables. */
  function IntervalSlots(ss: seq<Session>): set<Handle>
  {
    if ss == [] then {} else IntervalSlots(ss[..|ss| - 1]) + SlotSet(ss[|ss| - 1].keepAliveInterval)
  }

  lemma {:induction false} PingSlotsMembers(ss: seq<Session>, t: Handle)
    ensures t in PingSlots(ss) <==> exists i :: 0 <= i < |ss| && ss[i].pingTimeout == Some(t)
  {
    if ss != [] {
      var init := ss[..|ss| - 1];
      PingSlotsMembers(init, t);
      if exists i :: 0 <= i < |ss| && ss[i].pingTimeout == Some(t) {
        var i :| 0 <= i < |ss| && ss[i].pingTimeout == Some(t);
        if i < |ss| - 1 {
          assert init[i] == ss[i];
        }
      }
      if t in PingSlots(init) {
        var i :| 0 <= i < |init| && init[i].pingTimeout == Some(t);
        assert ss[i] == init[i];
      }
    }
  }

  lemma {:induction false} IntervalSlotsMembers(ss: seq<Session>, h: Handle)
    ensures h in IntervalSlots(ss) <==> exists i :: 0 <= i < |ss| && ss[i].keepAliveInterval == Some(h)
  {
    if ss != [] {
      var init := ss[..|ss| - 1];
      IntervalSlotsMembers(init, h);
      if exists i :: 0 <= i < |ss| && ss[i].keepAliveInterval == Some(h) {
        var i :| 0 <= i < |ss| && ss[i].keepAliveInterval == Some(h);
        if i < |ss| - 1 {
          assert init[i] == ss[i];
        }
      }
      if h in IntervalSlots(init) {
        var i :| 0 <= i < |init| && init[i].keepAliveInterval == Some(h);
        assert ss[i] == init[i];
      }
    }
  }

  /** The sessions after every open handler has stored its new interval, handles `next`, `next + 1`, … */
  function OpenSessions(ss: seq<Session>, next: Handle): (r: seq<Session>)
    ensures |r| == |ss|
  {
    if ss == [] then []
    else OpenSessions(ss[..|ss| - 1], next) + [ss[|ss| - 1].(keepAliveInterval := Some(next + |ss| - 1))]
  }

  lemma {:induction false} OpenSessionsAt(ss: seq<Session>, next: Handle, i: nat)
    requires i < |ss|
    ensures OpenSessions(ss, next)[i] == ss[i].(keepAliveInterval := Some(next + i))
  {
    if i < |ss| - 1 {
      OpenSessionsAt(ss[..|ss| - 1], next, i);
    }
  }

  /** The intervals armed by `n` open handlers, each to the session that armed it. */
  function NewIntervals(next: Handle, n: nat): map<Handle, nat>
  {
    if n == 0 then map[] else NewIntervals(next, n - 1)[next + n - 1 := n - 1]
  }

  lemma {:induction false} NewIntervalsMembers(next: Handle, n: nat, h: Handle)
    ensures h in NewIntervals(next, n) <==> next <= h < next + n
    ensures h in NewIntervals(next, n) ==> NewIntervals(next, n)[h] == h - next
  {
    if n > 0 {
      NewIntervalsMembers(next, n - 1, h);
    }
  }

  /** The sessions the `snipe` calls of the close (or error) handlers register, one per existing session. */
  function Resnipe(ss: seq<Session>): (r: seq<Session>)
    ensures |r| == |ss|
  {
    if ss == [] then [] else Resnipe(ss[..|ss| - 1]) + [Session(ss[|ss| - 1].token, None, None)]
  }

  lemma {:induction false} ResnipeAt(ss: seq<Session>, i: nat)
    requires i < |ss|
    ensures Resnipe(ss)[i] == Session(ss[i].token, None, None)
  {
    if i < |ss| - 1 {
      ResnipeAt(ss[..|ss| - 1], i);
    }
  }

  /** How the slot sets and the re-registered sessions grow by one more session. */
  lemma PrefixStep(ss: seq<Session>, i: nat)
    requires i < |ss|
    ensures PingSlots(ss[..i + 1]) == PingSlots(ss[..i]) + SlotSet(ss[i].pingTimeout)
    ensures IntervalSlots(ss[..i + 1]) == IntervalSlots(ss[..i]) + SlotSet(ss[i].keepAliveInterval)
    ensures Resnipe(ss[..i + 1]) == Resnipe(ss[..i]) + [Session(ss[i].token, None, None)]
  {
    assert ss[..i + 1][..i] == ss[..i];
  }

  /** The close and the error handler: clear both slots of every session, then call `snipe` again. */
  function Disconnect(s: Socket): Socket
  {
    s.(sessions := s.sessions + Resnipe(s.sessions),
       intervals := s.intervals - IntervalSlots(s.sessions),
       timeouts := s.timeouts - PingSlots(s.sessions))
  }

  /** One event, handled by every listener registered when it is emitted. */
  function Step(s: Socket, e: Event): Socket
  {
    match e
    case Open =>
      s.(sessions := OpenSessions(s.sessions, s.nextHandle),
         intervals := s.intervals + NewIntervals(s.nextHandle, |s.sessions|),
         nextHandle := s.nextHandle + |s.sessions|,
         pendingListeners := s.pendingListeners + |s.sessions|)
    case Tick(h) =>
      if h in s.intervals && s.intervals[h] < |s.sessions| then
        var i := s.intervals[h];
        s.(sessions := s.sessions[i := s.sessions[i].(pingTimeout := Some(s.nextHandle))],
           timeouts := s.timeouts + {s.nextHandle},
           nextHandle := s.nextHandle + 1,
           pings := s.pings + 1)
      else s
    case Pong => s.(timeouts := s.timeouts - PingSlots(s.sessions))
    case Timeout(t) => if t in s.timeouts then s.(timeouts := s.timeouts - {t}, terminated := true) else s
    case Close => Disconnect(s)
    case Error => Disconnect(s)
  }

  /** The events delivered in order. */
  function RunEvents(s: Socket, events: seq<Event>): Socket
    decreases |events|
  {
    if events == [] then s else RunEvents(Step(s, events[0]), events[1..])
  }

  predicate Below(slot: Option<Handle>, bound: Handle)
  {
    slot.Some? ==> slot.value < bound
  }

  /** Every handle was handed out before `nextHandle`, and every interval belongs to a registered session. */
  ghost predicate Valid(s: Socket)
  {
    && (forall h :: h in s.intervals ==> h < s.nextHandle && s.intervals[h] < |s.sessions|)
    && (forall t :: t in s.timeouts ==> t < s.nextHandle)
    && (forall i :: 0 <= i < |s.sessions| ==>
          Below(s.sessions[i].keepAliveInterval, s.nextHandle) && Below(s.sessions[i].pingTimeout, s.nextHandle))
  }

  /** Every registered session watches the same token. */
  ghost predicate Watches(s: Socket, token: Address)
  {
    forall i :: 0 <= i < |s.sessions| ==> s.sessions[i].token == token
  }

  lemma OpenKeepsValid(s: Socket)
    requires Valid(s)
    ensures Valid(Step(s, Open))
  {
    var s' := Step(s, Open);
    forall h | h in s'.intervals
      ensures h < s'.nextHandle && s'.intervals[h] < |s'.sessions|
    {
      NewIntervalsMembers(s.nextHandle, |s.sessions|, h);
    }
    forall i | 0 <= i < |s'.sessions|
      ensures Below(s'.sessions[i].keepAliveInterval, s'.nextHandle) && Below(s'.sessions[i].pingTimeout, s'.nextHandle)
    {
      OpenSessionsAt(s.sessions, s.nextHandle, i);
    }
  }

  lemma DisconnectKeepsValid(s: Socket)
    requires Valid(s)
    ensures Valid(Disconnect(s))
  {
    var s' := Disconnect(s);
    forall i | 0 <= i < |s'.sessions|
      ensures Below(s'.sessions[i].keepAliveInterval, s'.nextHandle) && Below(s'.sessions[i].pingTimeout, s'.nextHandle)
    {
      if i >= |s.sessions| {
        ResnipeAt(s.sessions, i - |s.sessions|);
      }
    }
  }

  /** Every event keeps the handle bookkeeping consistent. */
  lemma StepKeepsValid(s: Socket, e: Event)
    requires Valid(s)
    ensures Valid(Step(s, e))
  {
    match e
    case Open => OpenKeepsValid(s);
    case Close => DisconnectKeepsValid(s);
    case Error => DisconnectKeepsValid(s);
    case _ =>
  }

  /** Every event keeps all sessions on the token of the first `snipe` call. */
  lemma StepKeepsToken(s: Socket, e: Event, token: Address)
    requires Watches(s, token)
    ensures Watches(Step(s, e), token)
  {
    var s' := Step(s, e);
    match e
    case Open =>
      forall i | 0 <= i < |s'.sessions| ensures s'.sessions[i].token == token {
        OpenSessionsAt(s.sessions, s.nextHandle, i);
      }
    case Close =>
      forall i | |s.sessions| <= i < |s'.sessions| ensures s'.sessions[i].token == token {
        ResnipeAt(s.sessions, i - |s.sessions|);
      }
    case Error =>
      forall i | |s.sessions| <= i < |s'.sessions| ensures s'.sessions[i].token == token {
        ResnipeAt(s.sessions, i - |s.sessions|);
      }
    case _ =>
  }

  /** Whatever the events, `snipe` is only ever re-invoked with the token it was first called with,
      and the handle bookkeeping stays consistent. */
  lemma {:induction false} RunWatchesToken(token: Address, events: seq<Event>, s: Socket)
    requires Valid(s) && Watches(s, token)
    ensures Valid(RunEvents(s, events)) && Watches(RunEvents(s, events), token)
    decreases |events|
  {
    if events != [] {
      StepKeepsValid(s, events[0]);
      StepKeepsToken(s, events[0], token);
      RunWatchesToken(token, events[1..], Step(s, events[0]));
    }
  }

  /** A keep-alive tick pings and arms a fresh pong deadline in its session's `pingTimeout`; the deadline
      that variable held before is overwritten but stays armed, and no other session changes. */
  lemma TickArmsDeadline(s: Socket, h: Handle)
    requires Valid(s) && h in s.intervals
    ensures var s', i := Step(s, Tick(h)), s.intervals[h];
      && s'.sessions[i] == s.sessions[i].(pingTimeout := Some(s.nextHandle))
      && s.nextHandle !in s.timeouts
      && s'.timeouts == s.timeouts + {s.nextHandle}
      && s'.nextHandle == s.nextHandle + 1
      && s'.pings == s.pings + 1
      && |s'.sessions| == |s.sessions|
      && (forall j :: 0 <= j < |s.sessions| && j != i ==> s'.sessions[j] == s.sessions[j])
      && s'.intervals == s.intervals && s'.terminated == s.terminated
      && s'.pendingListeners == s.pendingListeners
  {
  }

  /** A pong disarms the deadline every session's `pingTimeout` names, disarms nothing else,
      and changes nothing but the armed deadlines. */
  lemma PongClearsDeadlines(s: Socket)
    ensures forall i, t :: 0 <= i < |s.sessions| && s.sessions[i].pingTimeout == Some(t) ==> t !in Step(s, Pong).timeouts
    ensures forall t :: t in s.timeouts && t !in Step(s, Pong).timeouts ==>
      exists i :: 0 <= i < |s.sessions| && s.sessions[i].pingTimeout == Some(t)
    ensures Step(s, Pong).timeouts <= s.timeouts
    ensures Step(s, Pong).(timeouts := s.timeouts) == s
  {
    forall i, t | 0 <= i < |s.sessions| && s.sessions[i].pingTimeout == Some(t)
      ensures t !in Step(s, Pong).timeouts
    {
      PingSlotsMembers(s.sessions, t);
    }
    forall t | t in s.timeouts && t !in Step(s, Pong).timeouts
      ensures exists i :: 0 <= i < |s.sessions| && s.sessions[i].pingTimeout == Some(t)
    {
      PingSlotsMembers(s.sessions, t);
    }
  }

  /** An armed pong deadline that fires terminates the socket and leaves the other deadlines armed;
      an unarmed one changes nothing. */
  lemma TimeoutTerminates(s: Socket, t: Handle)
    ensures t in s.timeouts ==> Step(s, Timeout(t)).terminated && t !in Step(s, Timeout(t)).timeouts
    ensures t in s.timeouts ==> Step(s, Timeout(t)).timeouts == s.timeouts - {t}
    ensures t in s.timeouts ==> Step(s, Timeout(t)).sessions == s.sessions && Step(s, Timeout(t)).intervals == s.intervals
    ensures t in s.timeouts ==> Step(s, Timeout(t)).(timeouts := s.timeouts, terminated := s.terminated) == s
    ensures t !in s.timeouts ==> Step(s, Timeout(t)) == s
  {
  }

  /** On close or error every session's interval and pong deadline are disarmed, the registered sessions
      stay, and each of them registers one new session for the same token with both slots empty. */
  lemma DisconnectClearsAndResnipes(s: Socket, e: Event)
    requires e == Close || e == Error
    ensures var s', n := Step(s, e), |s.sessions|;
      && |s'.sessions| == 2 * n
      && s'.sessions[..n] == s.sessions
      && (forall i :: 0 <= i < n ==> s'.sessions[n + i] == Session(s.sessions[i].token, None, None))
      && (forall i, h :: 0 <= i < n && s.sessions[i].keepAliveInterval == Some(h) ==> h !in s'.intervals)
      && (forall i, t :: 0 <= i < n && s.sessions[i].pingTimeout == Some(t) ==> t !in s'.timeouts)
      && (forall h :: h in s.intervals && (forall i :: 0 <= i < n ==> s.sessions[i].keepAliveInterval != Some(h)) ==>
            h in s'.intervals && s'.intervals[h] == s.intervals[h])
      && (forall t :: t in s.timeouts && (forall i :: 0 <= i < n ==> s.sessions[i].pingTimeout != Some(t)) ==>
            t in s'.timeouts)
      && s'.intervals.Keys <= s.intervals.Keys && s'.timeouts <= s.timeouts
      && (forall h :: h in s'.intervals ==> s'.intervals[h] == s.intervals[h])
      && s'.terminated == s.terminated && s'.nextHandle == s.nextHandle
      && s'.pendingListeners == s.pendingListeners && s'.pings == s.pings
  {
    var s', n := Step(s, e), |s.sessions|;
    forall i | 0 <= i < n ensures s'.sessions[n + i] == Session(s.sessions[i].token, None, None) {
      ResnipeAt(s.sessions, i);
    }
    forall i, h | 0 <= i < n && s.sessions[i].keepAliveInterval == Some(h) ensures h !in s'.intervals {
      IntervalSlotsMembers(s.sessions, h);
    }
    forall i, t | 0 <= i < n && s.sessions[i].pingTimeout == Some(t) ensures t !in s'.timeouts {
      PingSlotsMembers(s.sessions, t);
    }
    forall h | h in s.intervals && (forall i :: 0 <= i < n ==> s.sessions[i].keepAliveInterval != Some(h))
      ensures h in s'.intervals
    {
      IntervalSlotsMembers(s.sessions, h);
    }
    forall t | t in s.timeouts && (forall i :: 0 <= i < n ==> s.sessions[i].pingTimeout != Some(t))
      ensures t in s'.timeouts
    {
      PingSlotsMembers(s.sessions, t);
    }
  }

  /** Two ticks before any pong, then a close: the first deadline was overwritten and so was not
      cleared by the close handler. It is still armed, and when it fires it terminates the same,
      already closed socket; the sessions the close registered stay as they are. */
  lemma OverwrittenDeadlineSurvivesReconnect(token: Address)
    ensures var s := RunEvents(Initial(token), [Open, Tick(0), Tick(0), Close]);
      && 1 in s.timeouts && 2 !in s.timeouts && s.intervals == map[]
      && |s.sessions| == 2
      && Step(s, Timeout(1)).terminated && Step(s, Timeout(1)).sessions == s.sessions
  {
    var s1 := Socket([Session(token, Some(0), None)], map[0 := 0], {}, 1, false, 1, 0);
    OpenFirstSession(token);
    var s2 := Socket([Session(token, Some(0), Some(1))], map[0 := 0], {1}, 2, false, 1, 1);
    assert Step(s1, Tick(0)) == s2;
    var s3 := Socket([Session(token, Some(0), Some(2))], map[0 := 0], {1, 2}, 3, false, 1, 2);
    assert Step(s2, Tick(0)) == s3;
    var s4 := Socket([Session(token, Some(0), Some(2)), Session(token, None, None)], map[], {1}, 3, false, 1, 2);
    SlotsOfOne(s3.sessions[0]);
    assert Step(s3, Close) == s4;
    assert RunEvents(s3, [Close]) == s4 by { assert [Close][1..] == []; }
    assert RunEvents(s2, [Tick(0), Close]) == s4 by { assert [Tick(0), Close][1..] == [Close]; }
    assert RunEvents(s1, [Tick(0), Tick(0), Close]) == s4 by { assert [Tick(0), Tick(0), Close][1..] == [Tick(0), Close]; }
    assert [Open, Tick(0), Tick(0), Close][1..] == [Tick(0), Tick(0), Close];
  }

  /** The open event on the state of the first `snipe` call. */
  lemma OpenFirstSession(token: Address)
    ensures Step(Initial(token), Open) == Socket([Session(token, Some(0), None)], map[0 := 0], {}, 1, false, 1, 0)
  {
    assert NewIntervals(0, 1) == map[0 := 0];
    assert OpenSessions([Session(token, None, None)], 0) == [Session(token, Some(0), None)];
  }

  lemma SlotsOfOne(x: Session)
    ensures PingSlots([x]) == SlotSet(x.pingTimeout) && IntervalSlots([x]) == SlotSet(x.keepAliveInterval)
  {
    assert [x][..0] == [];
  }

  function Disconnects(events: seq<Event>): nat
  {
    if events == [] then 0 else Disconnects(events[1..]) + (if events[0] == Close || events[0] == Error then 1 else 0)
  }

  function Pow2(k: nat): nat
  {
    if k == 0 then 1 else 2 * Pow2(k - 1)
  }

  /** Close and error double the registered sessions; every other event keeps their number. */
  lemma StepSessionCount(s: Socket, e: Event)
    ensures |Step(s, e).sessions| == if e == Close || e == Error then 2 * |s.sessions| else |s.sessions|
  {
  }

  lemma DoublingStep(n: nat, m: nat, k: nat, d: bool)
    requires m == if d then 2 * n else n
    ensures m * Pow2(k) == n * Pow2(k + if d then 1 else 0)
  {
    if d {
      assert Pow2(k + 1) == 2 * Pow2(k);
      assert (2 * n) * Pow2(k) == n * (2 * Pow2(k));
    }
  }

  /** The reconnect path has no bound: every close or error doubles the registered listener sets. */
  lemma {:induction false} SessionsDoublePerDisconnect(s: Socket, events: seq<Event>)
    ensures |RunEvents(s, events).sessions| == |s.sessions| * Pow2(Disconnects(events))
    decreases |events|
  {
    if events != [] {
      var e, rest := events[0], events[1..];
      var next := Step(s, e);
      SessionsDoublePerDisconnect(next, rest);
      StepSessionCount(s, e);
      var d := e == Close || e == Error;
      assert Disconnects(events) == Disconnects(rest) + (if d then 1 else 0);
      DoublingStep(|s.sessions|, |next.sessions|, Disconnects(rest), d);
    }
  }

  /** A missed pong from the first session: open, one tick, the deadline fires, the socket closes.
      The socket is terminated, no timer stays armed, and `snipe` is called again exactly once. */
  lemma MissedPongRecyclesOnce(token: Address)
    ensures var s := RunEvents(Initial(token), [Open, Tick(0), Timeout(1), Close]);
      && s.terminated
      && s.intervals == map[] && s.timeouts == {}
      && s.sessions == [Session(token, Some(0), Some(1)), Session(token, None, None)]
      && s.pings == 1 && s.pendingListeners == 1
  {
    var s1 := Socket([Session(token, Some(0), None)], map[0 := 0], {}, 1, false, 1, 0);
    OpenFirstSession(token);
    var s2 := Socket([Session(token, Some(0), Some(1))], map[0 := 0], {1}, 2, false, 1, 1);
    assert Step(s1, Tick(0)) == s2;
    var s3 := s2.(timeouts := {}, terminated := true);
    assert Step(s2, Timeout(1)) == s3;
    var s4 := Socket([Session(token, Some(0), Some(1)), Session(token, None, None)], map[], {}, 2, true, 1, 1);
    SlotsOfOne(s3.sessions[0]);
    assert Step(s3, Close) == s4;
    assert RunEvents(s3, [Close]) == s4 by { assert [Close][1..] == []; }
    assert RunEvents(s2, [Timeout(1), Close]) == s4 by { assert [Timeout(1), Close][1..] == [Close]; }
    assert RunEvents(s1, [Tick(0), Timeout(1), Close]) == s4 by { assert [Tick(0), Timeout(1), Close][1..] == [Timeout(1), Close]; }
    assert [Open, Tick(0), Timeout(1), Close][1..] == [Tick(0), Timeout(1), Close];
  }

  /**
   * The mutable state of the listeners `snipe` registers on the socket. Each handler
   * method changes the fields exactly as `Step` says for its event.
   */
  class Connection {
    var sessions: seq<Session>
    var intervals: map<Handle, nat>
    var timeouts: set<Handle>
    var nextHandle: Handle
    var terminated: bool
    var pendingListeners: nat
    var pings: nat

    function State(): Socket
      reads this
    {
      Socket(sessions, intervals, timeouts, nextHandle, terminated, pendingListeners, pings)
    }

    /** The first `snipe(token)` call: one listener set, both slots `null`. */
    constructor (token: Address)
      ensures State() == Initial(token)
    {
      sessions := [Session(token, None, None)];
      intervals, timeouts := map[], {};
      nextHandle := 0;
      terminated := false;
      pendingListeners, pings := 0, 0;
    }

    /** "open": every session arms its keep-alive interval and subscribes to pending transactions. */
    method OnOpen()
      modifies this
      ensures State() == Step(old(State()), Open)
    {
      var n, first := |sessions|, nextHandle;
      ghost var start := sessions;
      var i := 0;
      while i < n
        invariant 0 <= i <= n == |start| == |sessions|
        invariant forall j :: 0 <= j < i ==> sessions[j] == start[j].(keepAliveInterval := Some(first + j))
        invariant forall j :: i <= j < n ==> sessions[j] == start[j]
        invariant intervals == old(intervals) + NewIntervals(first, i)
        invariant nextHandle == first + i && pendingListeners == old(pendingListeners) + i
        invariant timeouts == old(timeouts) && terminated == old(terminated) && pings == old(pings)
      {
        var h := nextHandle;
        nextHandle := nextHandle + 1;
        sessions := sessions[i := sessions[i].(keepAliveInterval := Some(h))];
        assert NewIntervals(first, i + 1) == NewIntervals(first, i)[h := i];
        intervals := intervals[h := i];
        pendingListeners := pendingListeners + 1;
        i := i + 1;
      }
      forall j | 0 <= j < n ensures sessions[j] == OpenSessions(start, first)[j] {
        OpenSessionsAt(start, first, j);
      }
    }

    /** The keep-alive interval `h` fires: ping, and arm the pong deadline in the owning session's `pingTimeout`. */
    method OnKeepAliveTick(h: Handle)
      modifies this
      ensures State() == Step(old(State()), Tick(h))
    {
      if h in intervals && intervals[h] < |sessions| {
        var i := intervals[h];
        pings := pings + 1;
        var t := nextHandle;
        nextHandle := nextHandle + 1;
        timeouts := timeouts + {t};
        sessions := sessions[i := sessions[i].(pingTimeout := Some(t))];
      }
    }

    /** "pong": every session clears the deadline its `pingTimeout` holds. */
    method OnPong()
      modifies this
      ensures State() == Step(old(State()), Pong)
    {
      var i := 0;
      while i < |sessions|
        invariant 0 <= i <= |sessions|
        invariant timeouts == old(timeouts) - PingSlots(sessions[..i])
        invariant sessions == old(sessions) && intervals == old(intervals) && nextHandle == old(nextHandle)
        invariant terminated == old(terminated) && pendingListeners == old(pendingListeners) && pings == old(pings)
      {
        assert sessions[..i + 1][..i] == sessions[..i];
        var slot := sessions[i].pingTimeout;
        if slot.Some? {
          timeouts := timeouts - {slot.value};
        }
        i := i + 1;
      }
      assert sessions[..i] == sessions;
    }

    /** The pong deadline `t` fires: terminate the socket. */
    method OnPingTimeout(t: Handle)
      modifies this
      ensures State() == Step(old(State()), Timeout(t))
    {
      if t in timeouts {
        timeouts := timeouts - {t};
        terminated := true;
      }
    }

    /** "close": clear every session's timers and call `snipe` again for each. */
    method OnClose()
      modifies this
      ensures State() == Step(old(State()), Close)
    {
      ClearAndResnipe();
    }

    /** "error": the same as "close". */
    method OnError()
      modifies this
      ensures State() == Step(old(State()), Error)
    {
      ClearAndResnipe();
    }

    /** Shared body of the close and error handlers. */
    method ClearAndResnipe()
      modifies this
      ensures State() == Disconnect(old(State()))
    {
      var start, iv, to := sessions, intervals, timeouts;
      var added: seq<Session> := [];
      var i := 0;
      while i < |start|
        invariant 0 <= i <= |start|
        invariant unchanged(this)
        invariant added == Resnipe(start[..i])
        invariant iv == intervals - IntervalSlots(start[..i])
        invariant to == timeouts - PingSlots(start[..i])
      {
        PrefixStep(start, i);
        var session := start[i];
        if session.keepAliveInterval.Some? {
          iv := iv - {session.keepAliveInterval.value};
        }
        if session.pingTimeout.Some? {
          to := to - {session.pingTimeout.value};
        }
        added := added + [Session(session.token, None, None)];
        i := i + 1;
      }
      assert start[..i] == start;
      sessions, intervals, timeouts := start + added, iv, to;
    }
  }
}
