/**
 * The reconnecting WebSocket hook (`useWebSocket`).
 *
 * The hook keeps React state (`connectionStatus`, `lastMessage`) and three
 * refs (`ws`, `reconnectAttempts`, `reconnectTimeoutRef`). The browser's
 * WebSocket objects and `setTimeout` timers are modelled by what the hook
 * can observe of them: every socket it has constructed, identified by its
 * position in `sockets` and carrying its `readyState`, and every reconnect
 * timer it has scheduled, identified by its position in `delays`, of which
 * those in `pending` have neither fired nor been cleared. The handlers the
 * hook installs on a socket are closures over the shared refs, so an event
 * of any socket it ever created acts on the same state.
 *
 * The first half of the module is a state machine over `HookState`, one
 * function per event; the class `WebSocketHook` at the end holds the same
 * state in fields and its methods are proved to perform those functions.
 */
module Transport {
  import opened Wrappers

  /** The close code the hook treats as a deliberate close. */
  const NormalClosure: int := 1000
  const MaxReconnectAttempts: nat := 5
  const BaseDelay: nat := 1000
  const MaxDelay: nat := 10000

  /** The successive reconnect delays of one retry chain. */
  const RetrySchedule: seq<nat> := [1000, 2000, 4000, 8000, 10000]

  /** `connectionStatus`; `Closing` is part of the type but never assigned. */
  datatype Status = Connecting | Open | Closing | Closed

  /** `WebSocket.readyState` of one constructed socket. */
  datatype ReadyState = CONNECTING | OPEN | CLOSING | CLOSED

  /** The object handed to `sendMessage`, before `JSON.stringify`. */
  datatype OutboundMessage = OutboundMessage(kind: string, userId: string, channel: string, text: string, inputType: string)

  /** A message passed to `socket.send`, with the socket it went to. */
  datatype Frame = Frame(socket: nat, message: OutboundMessage)

  /**
   * The hook's arguments: `enabled`, and whether `new WebSocket(url)`
   * succeeds for its `url` (it throws for a malformed one).
   */
  datatype Config = Config(enabled: bool, constructible: bool)

  datatype HookState = HookState(
    status: Status,
    lastMessage: Option<string>,  // the data of the last message event
    attempts: nat,                // reconnectAttempts.current
    sockets: seq<ReadyState>,     // every socket constructed so far
    current: Option<nat>,         // ws.current
    delays: seq<nat>,             // the delay of every reconnect timer scheduled so far
    pending: set<nat>,            // timers neither fired nor cleared
    timerRef: Option<nat>,        // reconnectTimeoutRef.current
    sent: seq<Frame>)             // everything handed to socket.send

  /** The events that drive the hook: calls by its user, socket events and timer expiries. */
  datatype Event =
    | ConnectCalled
    | OpenEvent(socket: nat)
    | MessageEvent(socket: nat, data: string)
    | CloseEvent(socket: nat, code: int)
    | TimerFires(timer: nat)
    | DisconnectCalled
    | SendCalled(message: OutboundMessage)

  function Pow2(n: nat): (r: nat)
    ensures r >= 1
  {
    if n == 0 then 1 else 2 * Pow2(n - 1)
  }

  /** `Math.min(1000 * Math.pow(2, attempts), 10000)`, on exact integers. */
  function Backoff(attempts: nat): (d: nat)
    ensures BaseDelay <= d <= MaxDelay
  {
    var raw := BaseDelay * Pow2(attempts);
    if raw < MaxDelay then raw else MaxDelay
  }

  lemma {:induction false} Pow2Monotone(a: nat, b: nat)
    requires a <= b
    ensures Pow2(a) <= Pow2(b)
    decreases b
  {
    if a < b {
      Pow2Monotone(a, b - 1);
    }
  }

  /** The delay never decreases as the attempt count grows. */
  lemma BackoffMonotone(a: nat, b: nat)
    requires a <= b
    ensures Backoff(a) <= Backoff(b)
  {
    Pow2Monotone(a, b);
  }

  /** From the fifth attempt on the delay is the ceiling. */
  lemma BackoffCapped(a: nat)
    requires a >= 4
    ensures Backoff(a) == MaxDelay
  {
    Pow2Monotone(4, a);
  }

  /** The delays scheduled at attempt counts 0 .. n-1, in that order. */
  function BackoffsUpTo(n: nat): (r: seq<nat>)
    ensures |r| == n
  {
    if n == 0 then [] else BackoffsUpTo(n - 1) + [Backoff(n - 1)]
  }

  /** The five delays a retry chain can schedule are 1000, 2000, 4000, 8000, 10000 ms. */
  lemma BackoffsOfOneChain()
    ensures BackoffsUpTo(MaxReconnectAttempts) == RetrySchedule
    ensures forall i, j :: 0 <= i <= j < |RetrySchedule| ==> RetrySchedule[i] <= RetrySchedule[j]
    ensures forall i :: 0 <= i < |RetrySchedule| ==> BaseDelay <= RetrySchedule[i] <= MaxDelay
  {
    assert Pow2(1) == 2 && Pow2(2) == 4 && Pow2(3) == 8 && Pow2(4) == 16;
  }

  /** The invariant every state of the hook satisfies. */
  predicate WellFormed(s: HookState)
  {
    && (s.current.Some? ==> s.current.value < |s.sockets|)
    && (s.timerRef.Some? ==> s.timerRef.value < |s.delays|)
    && (forall t :: t in s.pending ==> t < |s.delays|)
    && (forall i :: 0 <= i < |s.delays| ==> s.delays[i] in RetrySchedule)
    && (forall i :: 0 <= i < |s.sent| ==> s.sent[i].socket < |s.sockets|)
  }

  /** The state `useState`/`useRef` start from. */
  function Initial(): (s: HookState)
    ensures WellFormed(s) && s.status == Closed && s.attempts == 0
  {
    HookState(Closed, None, 0, [], None, [], {}, None, [])
  }

  /** `connect()`: no-op when disabled; otherwise construct a new socket, or record the failure. */
  function AfterConnect(s: HookState, cfg: Config): (r: HookState)
    requires WellFormed(s)
    ensures WellFormed(r)
  {
    if !cfg.enabled then s
    else if !cfg.constructible then s.(status := Closed)
    else s.(sockets := s.sockets + [CONNECTING], current := Some(|s.sockets|), status := Connecting)
  }

  /** The hook after mounting: the effect calls `connect()` when enabled. */
  function Mounted(cfg: Config): (s: HookState)
    ensures WellFormed(s)
  {
    AfterConnect(Initial(), cfg)
  }

  /** `onopen` of socket `k`. */
  function AfterOpen(s: HookState, k: nat): (r: HookState)
    requires WellFormed(s) && k < |s.sockets|
    ensures WellFormed(r)
  {
    s.(sockets := s.sockets[k := OPEN], status := Open, attempts := 0)
  }

  /** `onmessage` of a socket: the event replaces the single `lastMessage` slot. */
  function AfterMessage(s: HookState, data: string): (r: HookState)
    requires WellFormed(s)
    ensures WellFormed(r)
  {
    s.(lastMessage := Some(data))
  }

  /** Whether `onclose` with this code schedules a reconnect from `s`. */
  predicate SchedulesRetry(s: HookState, code: int)
  {
    code != NormalClosure && s.attempts < MaxReconnectAttempts
  }

  /** `onclose` of socket `k`: status Closed, and a reconnect timer unless the close was normal or the attempts are used up. */
  function AfterClose(s: HookState, k: nat, code: int): (r: HookState)
    requires WellFormed(s) && k < |s.sockets|
    ensures WellFormed(r)
  {
    var closed := s.(sockets := s.sockets[k := CLOSED], status := Closed);
    if SchedulesRetry(s, code) then
      var t := |s.delays|;
      assert Backoff(s.attempts) == RetrySchedule[s.attempts] by { BackoffsOfOneChain(); }
      closed.(delays := s.delays + [Backoff(s.attempts)], pending := s.pending + {t}, timerRef := Some(t))
    else
      closed
  }

  /** A reconnect timer `t` fires: count the attempt, then `connect()`. */
  function AfterTimer(s: HookState, cfg: Config, t: nat): (r: HookState)
    requires WellFormed(s)
    ensures WellFormed(r)
  {
    AfterConnect(s.(pending := s.pending - {t}, attempts := s.attempts + 1), cfg)
  }

  /** `ws.close(1000)` as seen in `readyState`: a connecting or open socket starts closing. */
  function CloseRequested(r: ReadyState): ReadyState
  {
    if r == CONNECTING || r == OPEN then CLOSING else r
  }

  /** `disconnect()`: clear the timer held in the ref, then close and drop the current socket. */
  function AfterDisconnect(s: HookState): (r: HookState)
    requires WellFormed(s)
    ensures WellFormed(r)
  {
    var s1 := if s.timerRef.Some? then s.(pending := s.pending - {s.timerRef.value}, timerRef := None) else s;
    if s1.current.Some? then
      var k := s1.current.value;
      s1.(sockets := s1.sockets[k := CloseRequested(s1.sockets[k])], current := None)
    else
      s1
  }

  /** Whether `sendMessage` transmits from `s`: a current socket whose readyState is OPEN. */
  predicate CanSend(s: HookState)
    requires WellFormed(s)
  {
    s.current.Some? && s.sockets[s.current.value] == OPEN
  }

  /** `sendMessage(m)`: hand it to the current socket if that is open, else drop it. */
  function AfterSend(s: HookState, m: OutboundMessage): (r: HookState)
    requires WellFormed(s)
    ensures WellFormed(r)
  {
    if CanSend(s) then s.(sent := s.sent + [Frame(s.current.value, m)]) else s
  }

  /** The events the browser can deliver in state `s`. */
  predicate Enabled(s: HookState, e: Event)
  {
    match e
    case OpenEvent(k) => k < |s.sockets| && s.sockets[k] == CONNECTING
    case MessageEvent(k, _) => k < |s.sockets| && (s.sockets[k] == OPEN || s.sockets[k] == CLOSING)
    case CloseEvent(k, _) => k < |s.sockets| && s.sockets[k] != CLOSED
    case TimerFires(t) => t in s.pending
    case _ => true
  }

  /** One event; an event the browser would not deliver leaves the state alone. */
  function Step(s: HookState, cfg: Config, e: Event): (r: HookState)
    requires WellFormed(s)
    ensures WellFormed(r)
  {
    if !Enabled(s, e) then s
    else match e
      case ConnectCalled => AfterConnect(s, cfg)
      case OpenEvent(k) => AfterOpen(s, k)
      case MessageEvent(_, data) => AfterMessage(s, data)
      case CloseEvent(k, code) => AfterClose(s, k, code)
      case TimerFires(t) => AfterTimer(s, cfg, t)
      case DisconnectCalled => AfterDisconnect(s)
      case SendCalled(m) => AfterSend(s, m)
  }

  function Run(s: HookState, cfg: Config, evs: seq<Event>): (r: HookState)
    requires WellFormed(s)
    ensures WellFormed(r)
    decreases |evs|
  {
    if evs == [] then s else Run(Step(s, cfg, evs[0]), cfg, evs[1..])
  }

  // ---------------------------------------------------------------------
  // Properties of single events

  /** `connect()` does nothing when the hook is disabled; a failed construction sets Closed; otherwise a new current socket is Connecting. */
  lemma ConnectOutcome(s: HookState, cfg: Config)
    requires WellFormed(s)
    ensures var r := AfterConnect(s, cfg);
      && (!cfg.enabled ==> r == s)
      && (cfg.enabled && !cfg.constructible ==> r.status == Closed && r.sockets == s.sockets && r.current == s.current)
      && (cfg.enabled && cfg.constructible ==>
            && r.status == Connecting
            && r.sockets == s.sockets + [CONNECTING] && r.current == Some(|s.sockets|))
      && r.attempts == s.attempts && r.pending == s.pending && r.delays == s.delays
  {
  }

  /** An open event sets the status to Open and resets the attempt counter. */
  lemma OpenResets(s: HookState, k: nat)
    requires WellFormed(s) && k < |s.sockets|
    ensures var r := AfterOpen(s, k);
      r.status == Open && r.attempts == 0 && r.sockets[k] == OPEN && r.pending == s.pending
  {
  }

  /** Each message event overwrites the single `lastMessage` slot and touches nothing else. */
  lemma MessageOverwrites(s: HookState, data: string)
    requires WellFormed(s)
    ensures AfterMessage(s, data).lastMessage == Some(data)
    ensures AfterMessage(s, data).(lastMessage := s.lastMessage) == s
  {
  }

  /**
   * Any close sets the status to Closed. A close with code 1000 never
   * schedules a reconnect, and no close does once the attempts reach 5;
   * otherwise exactly one timer is scheduled, with the delay
   * `min(1000 * 2^attempts, 10000)`, and it becomes the one in the ref.
   */
  lemma CloseRetryRule(s: HookState, k: nat, code: int)
    requires WellFormed(s) && k < |s.sockets|
    ensures var r := AfterClose(s, k, code);
      && r.status == Closed && r.sockets[k] == CLOSED && r.attempts == s.attempts
      && (code == NormalClosure ==> r.delays == s.delays && r.pending == s.pending)
      && (s.attempts >= MaxReconnectAttempts ==> r.delays == s.delays && r.pending == s.pending)
      && (code != NormalClosure && s.attempts < MaxReconnectAttempts ==>
            && r.delays == s.delays + [Backoff(s.attempts)]
            && r.pending == s.pending + {|s.delays|}
            && r.timerRef == Some(|s.delays|))
  {
  }

  /**
   * The attempt counter grows by exactly one when a scheduled timer fires,
   * drops to 0 on an open event, and no other event changes it.
   */
  lemma AttemptsCounter(s: HookState, cfg: Config, e: Event)
    requires WellFormed(s)
    ensures var r := Step(s, cfg, e);
      && (e.TimerFires? && e.timer in s.pending ==> r.attempts == s.attempts + 1)
      && (e.OpenEvent? && Enabled(s, e) ==> r.attempts == 0)
      && (!(e.TimerFires? || e.OpenEvent?) ==> r.attempts == s.attempts)
      && (r.attempts > s.attempts ==> e.TimerFires? && e.timer in s.pending)
  {
  }

  /** A new socket is created only by `connect()`, directly or from a firing timer. */
  lemma SocketsCreatedOnlyByConnect(s: HookState, cfg: Config, e: Event)
    requires WellFormed(s)
    ensures var r := Step(s, cfg, e);
      && |r.sockets| <= |s.sockets| + 1
      && (|r.sockets| > |s.sockets| ==> e.ConnectCalled? || (e.TimerFires? && e.timer in s.pending))
  {
  }

  /** `disconnect()` clears the timer in the ref and the socket handle, closing that socket with code 1000, and leaves the attempt counter and the status alone. */
  lemma DisconnectOutcome(s: HookState)
    requires WellFormed(s)
    ensures var r := AfterDisconnect(s);
      && r.timerRef == None && r.current == None
      && r.pending == (if s.timerRef.Some? then s.pending - {s.timerRef.value} else s.pending)
      && r.attempts == s.attempts && r.status == s.status
      && |r.sockets| == |s.sockets|
      && (s.current.Some? ==> r.sockets == s.sockets[s.current.value := CloseRequested(s.sockets[s.current.value])])
      && (s.current.None? ==> r.sockets == s.sockets)
  {
  }

  /** At most one timer is pending, and it is the one held in the ref. */
  predicate SingleTimer(s: HookState)
  {
    forall t :: t in s.pending ==> s.timerRef == Some(t)
  }

  /** When the ref holds every pending timer, `disconnect()` leaves none pending. */
  lemma DisconnectCancelsTimer(s: HookState)
    requires WellFormed(s) && SingleTimer(s)
    ensures AfterDisconnect(s).pending == {}
  {
  }

  /** `sendMessage` transmits exactly when the current socket exists and is OPEN, and then to that socket. */
  lemma SendOnlyWhenOpen(s: HookState, m: OutboundMessage)
    requires WellFormed(s)
    ensures var r := AfterSend(s, m);
      && (CanSend(s) ==> r.sent == s.sent + [Frame(s.current.value, m)])
      && (!CanSend(s) ==> r == s)
      && r.(sent := s.sent) == s
  {
  }

  // ---------------------------------------------------------------------
  // Properties of runs

  /** No event ever assigns `Closing`: from a state that is not Closing, no run reaches it. */
  lemma {:induction false} NeverClosing(s: HookState, cfg: Config, evs: seq<Event>)
    requires WellFormed(s) && s.status != Closing
    ensures Run(s, cfg, evs).status != Closing
    decreases |evs|
  {
    if evs != [] {
      NeverClosing(Step(s, cfg, evs[0]), cfg, evs[1..]);
    }
  }

  /** Every run of a mounted hook keeps the status out of Closing. */
  lemma MountedNeverClosing(cfg: Config, evs: seq<Event>)
    ensures Run(Mounted(cfg), cfg, evs).status != Closing
  {
    NeverClosing(Mounted(cfg), cfg, evs);
  }

  predicate Live(r: ReadyState)
  {
    r != CLOSED
  }

  /**
   * A single retry chain: at most one socket that can still close, no
   * timer pending while one can, and every pending timer is the one in the
   * ref. A mounted hook is one, and every event but an extra `connect()`
   * call keeps it one.
   */
  predicate Chain(s: HookState)
  {
    && WellFormed(s)
    && (forall i, j :: 0 <= i < j < |s.sockets| ==> !Live(s.sockets[i]) || !Live(s.sockets[j]))
    && (s.pending != {} ==> forall i :: 0 <= i < |s.sockets| ==> !Live(s.sockets[i]))
    && SingleTimer(s)
  }

  /** On a single chain at most one timer is pending, the one in the ref. */
  lemma SinglePendingSize(s: HookState)
    requires Chain(s)
    ensures |s.pending| <= 1
    ensures s.pending != {} ==> s.timerRef.Some? && s.pending == {s.timerRef.value}
  {
    if s.pending != {} {
      var t :| t in s.pending;
      assert s.pending == {t};
    }
  }

  lemma MountedIsChain(cfg: Config)
    ensures Chain(Mounted(cfg))
  {
  }

  /** The events of a retry chain after an open: no open, no extra connect, no disconnect. */
  predicate RetryEvent(e: Event)
  {
    e.MessageEvent? || e.CloseEvent? || e.TimerFires? || e.SendCalled?
  }

  /** The chain's progress: the delays scheduled since `base` are the backoffs of attempts 0, 1, ... in order. */
  predicate ChainProgress(base: HookState, s: HookState)
  {
    && Chain(s)
    && s.attempts + |s.pending| <= MaxReconnectAttempts
    && |base.delays| <= |s.delays|
    && s.delays == base.delays + BackoffsUpTo(s.attempts + |s.pending|)
    && |s.sockets| <= |base.sockets| + s.attempts
  }

  lemma RetryCloseProgress(base: HookState, s: HookState, k: nat, code: int)
    requires ChainProgress(base, s) && k < |s.sockets| && Live(s.sockets[k])
    ensures ChainProgress(base, AfterClose(s, k, code))
  {
    SinglePendingSize(s);
    assert s.pending == {};
    var r := AfterClose(s, k, code);
    if SchedulesRetry(s, code) {
      assert r.pending == {|s.delays|};
      assert r.delays == base.delays + BackoffsUpTo(s.attempts) + [Backoff(s.attempts)];
    }
    ChainClose(s, k, code);
  }

  lemma RetryTimerProgress(base: HookState, s: HookState, cfg: Config, t: nat)
    requires ChainProgress(base, s) && t in s.pending
    ensures ChainProgress(base, AfterTimer(s, cfg, t))
  {
    SinglePendingSize(s);
    assert s.pending == {t};
    ChainTimer(s, cfg, t);
  }

  lemma RetryStepProgress(base: HookState, s: HookState, cfg: Config, e: Event)
    requires ChainProgress(base, s) && RetryEvent(e)
    ensures ChainProgress(base, Step(s, cfg, e))
  {
    if Enabled(s, e) {
      match e
      case CloseEvent(k, code) => RetryCloseProgress(base, s, k, code);
      case TimerFires(t) => RetryTimerProgress(base, s, cfg, t);
      case MessageEvent(_, _) =>
      case SendCalled(_) =>
    }
  }

  /**
   * Starting from an open socket (attempts 0, nothing pending) on a single
   * chain, any sequence of close, message, send and timer events schedules
   * at most five reconnects, whose delays are a prefix of 1000, 2000, 4000,
   * 8000, 10000, and constructs at most five new sockets.
   */
  lemma {:induction false} RetryChainBounded(s: HookState, cfg: Config, evs: seq<Event>)
    requires Chain(s) && s.attempts == 0 && s.pending == {}
    requires forall i :: 0 <= i < |evs| ==> RetryEvent(evs[i])
    ensures var r := Run(s, cfg, evs);
      && |s.delays| <= |r.delays| <= |s.delays| + MaxReconnectAttempts
      && r.delays[|s.delays|..] == RetrySchedule[..|r.delays| - |s.delays|]
      && |r.sockets| <= |s.sockets| + MaxReconnectAttempts
  {
    RetryRunProgress(s, s, cfg, evs);
    var r := Run(s, cfg, evs);
    var n := r.attempts + |r.pending|;
    BackoffsOfOneChain();
    BackoffsPrefix(n, MaxReconnectAttempts);
    assert r.delays[|s.delays|..] == BackoffsUpTo(n);
  }

  lemma {:induction false} RetryRunProgress(base: HookState, s: HookState, cfg: Config, evs: seq<Event>)
    requires ChainProgress(base, s)
    requires forall i :: 0 <= i < |evs| ==> RetryEvent(evs[i])
    ensures ChainProgress(base, Run(s, cfg, evs))
    decreases |evs|
  {
    if evs != [] {
      RetryStepProgress(base, s, cfg, evs[0]);
      RetryRunProgress(base, Step(s, cfg, evs[0]), cfg, evs[1..]);
    }
  }

  lemma {:induction false} BackoffsPrefix(n: nat, m: nat)
    requires n <= m
    ensures BackoffsUpTo(n) == BackoffsUpTo(m)[..n]
    decreases m
  {
    if n < m {
      BackoffsPrefix(n, m - 1);
      assert BackoffsUpTo(m)[..m - 1] == BackoffsUpTo(m - 1);
    }
  }

  /** Events after which nothing reconnects by itself: no `connect()` call and only normal closes. */
  predicate QuietEvent(e: Event)
  {
    !e.ConnectCalled? && (e.CloseEvent? ==> e.code == NormalClosure)
  }

  lemma {:induction false} QuietRun(s: HookState, cfg: Config, evs: seq<Event>)
    requires WellFormed(s) && s.pending == {}
    requires forall i :: 0 <= i < |evs| ==> QuietEvent(evs[i])
    ensures Run(s, cfg, evs).pending == {}
    ensures |Run(s, cfg, evs).sockets| == |s.sockets|
    decreases |evs|
  {
    if evs != [] {
      QuietRun(Step(s, cfg, evs[0]), cfg, evs[1..]);
    }
  }

  /**
   * After `disconnect()` from a state whose pending timer is the one in the
   * ref, no reconnect happens: as long as nobody calls `connect()` and
   * sockets close normally, no socket is constructed and no timer is
   * pending, however much time passes.
   */
  lemma NoReconnectAfterDisconnect(s: HookState, cfg: Config, evs: seq<Event>)
    requires WellFormed(s) && SingleTimer(s)
    requires forall i :: 0 <= i < |evs| ==> QuietEvent(evs[i])
    ensures Run(AfterDisconnect(s), cfg, evs).pending == {}
    ensures |Run(AfterDisconnect(s), cfg, evs).sockets| == |s.sockets|
  {
    QuietRun(AfterDisconnect(s), cfg, evs);
  }

  /** Runs without an extra `connect()` keep a single chain single. */
  lemma {:induction false} ChainRun(s: HookState, cfg: Config, evs: seq<Event>)
    requires Chain(s)
    requires forall i :: 0 <= i < |evs| ==> !evs[i].ConnectCalled?
    ensures Chain(Run(s, cfg, evs))
    decreases |evs|
  {
    if evs != [] {
      ChainStep(s, cfg, evs[0]);
      ChainRun(Step(s, cfg, evs[0]), cfg, evs[1..]);
    }
  }

  /**
   * The unmount cleanup of a hook that nobody called `connect()` on after
   * mounting: the cleanup's `disconnect()` leaves no timer pending, and as
   * long as sockets close normally no socket is constructed afterwards.
   */
  lemma NoReconnectAfterUnmount(cfg: Config, pre: seq<Event>, post: seq<Event>)
    requires forall i :: 0 <= i < |pre| ==> !pre[i].ConnectCalled?
    requires forall i :: 0 <= i < |post| ==> QuietEvent(post[i])
    ensures var s := Run(Mounted(cfg), cfg, pre);
      && Run(AfterDisconnect(s), cfg, post).pending == {}
      && |Run(AfterDisconnect(s), cfg, post).sockets| == |s.sockets|
  {
    MountedIsChain(cfg);
    ChainRun(Mounted(cfg), cfg, pre);
    NoReconnectAfterDisconnect(Run(Mounted(cfg), cfg, pre), cfg, post);
  }

  lemma ChainClose(s: HookState, k: nat, code: int)
    requires Chain(s) && k < |s.sockets| && Live(s.sockets[k])
    ensures Chain(AfterClose(s, k, code))
  {
    SinglePendingSize(s);
  }

  lemma ChainTimer(s: HookState, cfg: Config, t: nat)
    requires Chain(s) && t in s.pending
    ensures Chain(AfterTimer(s, cfg, t))
  {
    SinglePendingSize(s);
    assert s.pending == {t};
  }

  /** Every event other than an extra `connect()` keeps a single chain single. */
  lemma ChainStep(s: HookState, cfg: Config, e: Event)
    requires Chain(s) && !e.ConnectCalled?
    ensures Chain(Step(s, cfg, e))
  {
    if Enabled(s, e) {
      match e
      case CloseEvent(k, code) => ChainClose(s, k, code);
      case TimerFires(t) => ChainTimer(s, cfg, t);
      case _ =>
    }
  }

  /**
   * `disconnect()` cancels only the timer in the ref. When `connect()` is
   * called while a reconnect is pending, the next abnormal close overwrites
   * the ref and the earlier timer can no longer be cancelled: after this
   * run of a mounted hook a timer is still pending after `disconnect()`, and
   * when it fires it constructs a new socket.
   */
  lemma DisconnectMayLeaveOrphanTimer()
    ensures var cfg := Config(true, true);
      var s := Run(Mounted(cfg), cfg, [CloseEvent(0, 1006), ConnectCalled, CloseEvent(1, 1006), DisconnectCalled]);
      && s.pending == {0}
      && |Step(s, cfg, TimerFires(0)).sockets| == |s.sockets| + 1
  {
    var cfg := Config(true, true);
    var a, b := [CloseEvent(0, 1006), ConnectCalled], [CloseEvent(1, 1006), DisconnectCalled];
    OrphanFirstHalf();
    var s2 := Run(Mounted(cfg), cfg, a);
    var s4 := Step(Step(s2, cfg, CloseEvent(1, 1006)), cfg, DisconnectCalled);
    assert s4.pending == {0};
    RunAppend(Mounted(cfg), cfg, a, b);
    assert a + b == [CloseEvent(0, 1006), ConnectCalled, CloseEvent(1, 1006), DisconnectCalled];
    assert b[1..] == [DisconnectCalled];
  }

  /**
   * `disconnect()` while the socket is still connecting fails the
   * connection, and the browser reports an abnormal close (code 1006). The
   * close handler does not know the close was requested and schedules a
   * reconnect, which constructs a new socket when it fires.
   */
  lemma DisconnectWhileConnectingReconnects()
    ensures var cfg := Config(true, true);
      var s := Run(Mounted(cfg), cfg, [DisconnectCalled, CloseEvent(0, 1006)]);
      && s.pending == {0}
      && |Step(s, cfg, TimerFires(0)).sockets| == |s.sockets| + 1
  {
    var cfg := Config(true, true);
    var s0 := Mounted(cfg);
    assert s0.sockets == [CONNECTING] && s0.delays == [] && s0.pending == {} && s0.attempts == 0;
    var s1 := Step(s0, cfg, DisconnectCalled);
    assert s1.sockets == [CLOSING] && s1.pending == {} && s1.current == None;
    var evs := [DisconnectCalled, CloseEvent(0, 1006)];
    assert evs[1..] == [CloseEvent(0, 1006)] && evs[1..][1..] == [];
  }

  /** The first half of the run in `DisconnectMayLeaveOrphanTimer`: a reconnect is pending when `connect()` is called again. */
  lemma OrphanFirstHalf()
    ensures var cfg := Config(true, true);
      var s := Run(Mounted(cfg), cfg, [CloseEvent(0, 1006), ConnectCalled]);
      && s.sockets == [CLOSED, CONNECTING] && s.current == Some(1)
      && s.pending == {0} && s.timerRef == Some(0) && s.delays == [1000] && s.attempts == 0
  {
    var cfg := Config(true, true);
    var s0 := Mounted(cfg);
    assert s0.sockets == [CONNECTING] && s0.delays == [] && s0.pending == {} && s0.attempts == 0;
    var s1 := Step(s0, cfg, CloseEvent(0, 1006));
    assert s1.pending == {0} && s1.timerRef == Some(0) && s1.sockets == [CLOSED] && s1.delays == [1000];
    var evs := [CloseEvent(0, 1006), ConnectCalled];
    assert evs[1..] == [ConnectCalled] && evs[1..][1..] == [];
  }

  /** Running two event sequences one after the other is running their concatenation. */
  lemma {:induction false} RunAppend(s: HookState, cfg: Config, a: seq<Event>, b: seq<Event>)
    requires WellFormed(s)
    ensures Run(s, cfg, a + b) == Run(Run(s, cfg, a), cfg, b)
    decreases |a|
  {
    if a == [] {
      assert a + b == b;
    } else {
      assert (a + b)[0] == a[0] && (a + b)[1..] == a[1..] + b;
      RunAppend(Step(s, cfg, a[0]), cfg, a[1..], b);
    }
  }

  // ---------------------------------------------------------------------
  // The hook itself: refs and React state as fields, handlers as methods.

  class WebSocketHook {
    const config: Config
    var connectionStatus: Status
    var lastMessage: Option<string>
    var reconnectAttempts: nat
    var sockets: seq<ReadyState>
    var current: Option<nat>
    var timerDelays: seq<nat>
    var pendingTimers: set<nat>
    var reconnectTimeout: Option<nat>
    var sent: seq<Frame>

    /** The abstract value of the hook. */
    function State(): HookState
      reads this
    {
      HookState(connectionStatus, lastMessage, reconnectAttempts, sockets, current,
                timerDelays, pendingTimers, reconnectTimeout, sent)
    }

    predicate Valid()
      reads this
    {
      WellFormed(State())
    }

    /** Mounting: the initial state, then the effect's `connect()` when enabled. */
    constructor (config: Config)
      ensures Valid() && this.config == config
      ensures State() == Mounted(config)
    {
      this.config := config;
      connectionStatus := Closed;
      lastMessage := None;
      reconnectAttempts := 0;
      sockets := [];
      current := None;
      timerDelays := [];
      pendingTimers := {};
      reconnectTimeout := None;
      sent := [];
      new;
      Connect();
    }

    method Connect()
      requires Valid()
      modifies this
      ensures Valid() && State() == AfterConnect(old(State()), config)
    {
      if !config.enabled {
        return;
      }
      if !config.constructible {
        // new WebSocket(url) threw: ws.current keeps its old value
        connectionStatus := Closed;
        return;
      }
      current := Some(|sockets|);
      sockets := sockets + [CONNECTING];
      connectionStatus := Connecting;
    }

    method OnOpen(k: nat)
      requires Valid() && k < |sockets| && sockets[k] == CONNECTING
      modifies this
      ensures Valid() && State() == AfterOpen(old(State()), k)
    {
      sockets := sockets[k := OPEN];
      connectionStatus := Open;
      reconnectAttempts := 0;
    }

    method OnMessage(k: nat, data: string)
      requires Valid() && k < |sockets| && (sockets[k] == OPEN || sockets[k] == CLOSING)
      modifies this
      ensures Valid() && State() == AfterMessage(old(State()), data)
    {
      lastMessage := Some(data);
    }

    method OnClose(k: nat, code: int)
      requires Valid() && k < |sockets| && sockets[k] != CLOSED
      modifies this
      ensures Valid() && State() == AfterClose(old(State()), k, code)
    {
      ghost var r := AfterClose(State(), k, code);
      sockets := sockets[k := CLOSED];
      connectionStatus := Closed;
      if code != NormalClosure && reconnectAttempts < MaxReconnectAttempts {
        var timeout := Backoff(reconnectAttempts);
        var t := |timerDelays|;
        timerDelays := timerDelays + [timeout];
        pendingTimers := pendingTimers + {t};
        reconnectTimeout := Some(t);
      }
      assert State() == r;
    }

    /** The callback of reconnect timer `t`. */
    method OnReconnectTimer(t: nat)
      requires Valid() && t in pendingTimers
      modifies this
      ensures Valid() && State() == AfterTimer(old(State()), config, t)
    {
      pendingTimers := pendingTimers - {t};
      reconnectAttempts := reconnectAttempts + 1;
      Connect();
    }

    method Disconnect()
      requires Valid()
      modifies this
      ensures Valid() && State() == AfterDisconnect(old(State()))
    {
      if reconnectTimeout.Some? {
        pendingTimers := pendingTimers - {reconnectTimeout.value};
        reconnectTimeout := None;
      }
      if current.Some? {
        var k := current.value;
        sockets := sockets[k := CloseRequested(sockets[k])];
        current := None;
      }
    }

    method SendMessage(m: OutboundMessage)
      requires Valid()
      modifies this
      ensures Valid() && State() == AfterSend(old(State()), m)
    {
      if current.Some? && sockets[current.value] == OPEN {
        sent := sent + [Frame(current.value, m)];
      }
    }
  }
}
