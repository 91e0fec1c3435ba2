/** The realtime market-data manager as a state machine on values.

    `Manager` holds every field of the manager together with the two logs of
    notifications it has delivered. There is one transition function per
    method of the manager and one per asynchronous resumption (socket events
    and timer expiries). The class `Realtime.RealtimeManager` is proved to
    follow these functions step by step; the lemmas below state what the
    manager promises in terms of them. */
module RealtimeSpec {
  import opened Common
  import opened Text
  import opened ApiHelpers

  type SubId = nat
  type SocketId = nat

  const WS_URL: string := "wss://stream.binance.com:9443/ws"
  const TICKER_EVENT: string := "24hrTicker"
  const STREAM_SUFFIX: string := "usdt@ticker"
  const MAX_STREAMS: nat := 100
  const BASE_RECONNECT_DELAY: nat := 1000
  const MAX_RECONNECT_DELAY: nat := 30000
  const STALE_AFTER: int := 10000

  datatype ConnectionState = Disconnected | Connecting | Connected

  /** `WebSocket.readyState`. */
  datatype ReadyState = CONNECTING | OPEN | CLOSING | CLOSED

  /** One WebSocket object the manager created. Its `onopen`, `onmessage`
      and `onerror` handlers stay attached for its whole life; `onclose` is
      detached when the manager disconnects it on purpose. */
  datatype Socket = Socket(url: string, readyState: ReadyState, closeHandlerAttached: bool)

  datatype RealtimeData = RealtimeData(price: real, change: real, volume: real, high: real, low: real, updatedAt: int)

  /** An inbound frame after JSON decoding. `Malformed` stands for every
      frame whose handling throws (invalid JSON, a payload without a string
      `s`); `Event` carries the fields the handler reads, already parsed. */
  datatype Message =
    | Malformed
    | Event(e: string, s: string, c: real, o: real, h: real, l: real, q: real)

  /** One invocation of a state callback. */
  datatype StateNotice = StateNotice(sub: SubId, state: ConnectionState)

  /** One invocation of a data callback. */
  datatype Delivery = Delivery(sub: SubId, symbol: string, data: RealtimeData)

  /** All fields of the manager. The two callback sets and the update buffer
      keep insertion order, as JavaScript's `Set` and `Map` do. */
  datatype Manager = Manager(
    ws: Option<SocketId>,
    sockets: seq<Socket>,
    symbols: seq<string>,
    openPrices: map<string, real>,
    dataSubs: seq<SubId>,
    stateSubs: seq<SubId>,
    state: ConnectionState,
    reconnectAttempts: nat,
    reconnectTimer: bool,
    reconnectDelay: real,
    heartbeatTimer: bool,
    strayHeartbeats: nat,
    lastMessage: int,
    bufferOrder: seq<string>,
    updateBuffer: map<string, RealtimeData>,
    flushTimer: bool,
    stateLog: seq<StateNotice>,
    dataLog: seq<Delivery>)

  /** The invariant every transition keeps. The current socket, if any, is
      one the manager created, is not closed, and still has its close handler. */
  predicate Valid(m: Manager) {
    && NoDup(m.dataSubs)
    && NoDup(m.stateSubs)
    && NoDup(m.bufferOrder)
    && (forall k | k in m.bufferOrder :: k in m.updateBuffer)
    && (forall k | k in m.updateBuffer :: k in m.bufferOrder)
    && (m.ws.Some? ==>
          && m.ws.value < |m.sockets|
          && m.sockets[m.ws.value].readyState != CLOSED
          && m.sockets[m.ws.value].closeHandlerAttached)
  }

  /** A freshly constructed manager. */
  function Init(): (m: Manager)
    ensures Valid(m) && m.state == Disconnected && m.ws.None?
  {
    Manager(None, [], [], map[], [], [], Disconnected, 0, false, 0.0, false, 0, 0, [], map[], false, [], [])
  }

  predicate HasSubscribers(m: Manager) {
    |m.dataSubs| > 0 || |m.stateSubs| > 0
  }

  /** `ws?.readyState` is OPEN or CONNECTING. */
  predicate SocketLive(m: Manager) {
    && m.ws.Some? && m.ws.value < |m.sockets|
    && (m.sockets[m.ws.value].readyState == OPEN || m.sockets[m.ws.value].readyState == CONNECTING)
  }

  function Min(a: int, b: int): int {
    if a <= b then a else b
  }

  // ---------------------------------------------------------------------------
  // Stream list and reconnect delay

  function StreamName(symbol: string): string {
    Lower(symbol) + STREAM_SUFFIX
  }

  /** The streams subscribed to: the first 100 symbols at most. */
  function StreamNames(symbols: seq<string>): (r: seq<string>)
    ensures |r| == Min(|symbols|, MAX_STREAMS)
    ensures forall i | 0 <= i < |r| :: r[i] == StreamName(symbols[i])
  {
    var n := Min(|symbols|, MAX_STREAMS);
    seq(n, i requires 0 <= i < n => StreamName(symbols[i]))
  }

  function Url(symbols: seq<string>): string {
    WS_URL + "/" + Join(StreamNames(symbols), '/')
  }

  /** The path after the endpoint splits back into exactly the stream names,
      one per symbol among the first 100, when no symbol contains a slash. */
  lemma StreamPathRoundTrip(symbols: seq<string>)
    requires |symbols| >= 1
    requires forall i | 0 <= i < |symbols| :: '/' !in symbols[i]
    ensures Url(symbols)[|WS_URL| + 1..] == Join(StreamNames(symbols), '/')
    ensures Split(Url(symbols)[|WS_URL| + 1..], '/') == StreamNames(symbols)
    ensures |StreamNames(symbols)| == Min(|symbols|, MAX_STREAMS)
  {
    var names := StreamNames(symbols);
    forall i | 0 <= i < |names|
      ensures '/' !in names[i]
    {
      LowerKeepsNonLetterAbsent(symbols[i], '/');
      assert names[i] == Lower(symbols[i]) + STREAM_SUFFIX;
    }
    SplitJoin(names, '/');
  }

  function Pow2(n: nat): (r: nat)
    ensures r >= 1
  {
    if n == 0 then 1 else 2 * Pow2(n - 1)
  }

  /** The reconnect delay before jitter: 1 s doubling per attempt, capped at 30 s. */
  function BaseDelay(attempts: nat): nat {
    Min(BASE_RECONNECT_DELAY * Pow2(attempts), MAX_RECONNECT_DELAY)
  }

  /** `Math.random()` in [0, 1) scales the delay by a factor in [0.75, 1.25). */
  function ReconnectDelay(attempts: nat, jitter: real): real
    requires 0.0 <= jitter < 1.0
  {
    BaseDelay(attempts) as real * (0.75 + jitter * 0.5)
  }

  lemma {:induction false} Pow2Monotone(a: nat, b: nat)
    requires a <= b
    ensures Pow2(a) <= Pow2(b)
    decreases b
  {
    if a < b {
      Pow2Monotone(a, b - 1);
    }
  }

  /** The delay doubles per attempt until it reaches the cap, is never below
      1 s, and stays at 30 s from the fifth attempt on. */
  lemma BackoffSchedule(n: nat)
    ensures BaseDelay(n + 1) == Min(2 * BaseDelay(n), MAX_RECONNECT_DELAY)
    ensures BASE_RECONNECT_DELAY <= BaseDelay(n) <= MAX_RECONNECT_DELAY
    ensures n >= 5 ==> BaseDelay(n) == MAX_RECONNECT_DELAY
    ensures BaseDelay(0) == 1000 && BaseDelay(4) == 16000
  {
    if n >= 5 {
      Pow2Monotone(5, n);
    }
    assert Pow2(4) == 16;
  }

  lemma BackoffMonotone(a: nat, b: nat)
    requires a <= b
    ensures BaseDelay(a) <= BaseDelay(b)
  {
    Pow2Monotone(a, b);
  }

  lemma ReconnectDelayBounds(attempts: nat, jitter: real)
    requires 0.0 <= jitter < 1.0
    ensures 0.75 * BaseDelay(attempts) as real <= ReconnectDelay(attempts, jitter)
    ensures ReconnectDelay(attempts, jitter) < 1.25 * BaseDelay(attempts) as real
  {
    var b := BaseDelay(attempts) as real;
    BackoffSchedule(attempts);
    assert b * (jitter * 0.5) >= 0.0;
    assert b * (jitter * 0.5) < b * 0.5;
  }

  /** The change in percent of `price` against the baseline `open`.
      A zero baseline, which yields an infinite or undefined value in
      floating point, is mapped to 0. */
  function PercentChange(price: real, open: real): real {
    if open == 0.0 then 0.0 else (price - open) / open * 100.0
  }

  /** The change is the percentage that takes the baseline to the price. */
  lemma PercentChangeRoundTrip(price: real, open: real)
    requires open != 0.0
    ensures open + open * PercentChange(price, open) / 100.0 == price
  {
  }

  // ---------------------------------------------------------------------------
  // Notifications

  /** `stateCallbacks.forEach(cb => cb(s))`. */
  function Notices(subs: seq<SubId>, s: ConnectionState): (r: seq<StateNotice>)
    ensures |r| == |subs|
  {
    if subs == [] then [] else Notices(subs[..|subs| - 1], s) + [StateNotice(subs[|subs| - 1], s)]
  }

  /** `dataCallbacks.forEach(cb => cb(symbol, data))`. */
  function FanOut(subs: seq<SubId>, symbol: string, data: RealtimeData): (r: seq<Delivery>)
    ensures |r| == |subs|
  {
    if subs == [] then [] else FanOut(subs[..|subs| - 1], symbol, data) + [Delivery(subs[|subs| - 1], symbol, data)]
  }

  /** `updateBuffer.forEach((data, symbol) => fan out)`, in buffer order. */
  function Deliveries(order: seq<string>, buffer: map<string, RealtimeData>, subs: seq<SubId>): (r: seq<Delivery>)
    requires forall k | k in order :: k in buffer
    ensures |r| == |order| * |subs|
  {
    if order == [] then []
    else
      var last := order[|order| - 1];
      Deliveries(order[..|order| - 1], buffer, subs) + FanOut(subs, last, buffer[last])
  }

  /** One more element of the subscriber prefix adds one delivery. */
  lemma FanOutStep(subs: seq<SubId>, symbol: string, data: RealtimeData, j: nat)
    requires j < |subs|
    ensures FanOut(subs[..j + 1], symbol, data) == FanOut(subs[..j], symbol, data) + [Delivery(subs[j], symbol, data)]
  {
    assert subs[..j + 1][..j] == subs[..j];
  }

  /** One more element of the buffer prefix adds that entry's fan-out. */
  lemma DeliveriesStep(order: seq<string>, buffer: map<string, RealtimeData>, subs: seq<SubId>, i: nat)
    requires forall k | k in order :: k in buffer
    requires i < |order|
    ensures forall k | k in order[..i + 1] :: k in buffer
    ensures Deliveries(order[..i + 1], buffer, subs)
            == Deliveries(order[..i], buffer, subs) + FanOut(subs, order[i], buffer[order[i]])
  {
    assert order[..i + 1][..i] == order[..i];
  }

  /** Every subscriber in a duplicate-free set receives exactly one notice. */
  lemma {:induction false} NoticesExactlyOnce(subs: seq<SubId>, s: ConnectionState, id: SubId, t: ConnectionState)
    requires NoDup(subs)
    ensures multiset(Notices(subs, s))[StateNotice(id, t)] == if id in subs && t == s then 1 else 0
  {
    if subs != [] {
      var init := subs[..|subs| - 1];
      assert subs == init + [subs[|subs| - 1]];
      NoticesExactlyOnce(init, s, id, t);
    }
  }

  lemma {:induction false} FanOutExactlyOnce(subs: seq<SubId>, symbol: string, data: RealtimeData, d: Delivery)
    requires NoDup(subs)
    ensures multiset(FanOut(subs, symbol, data))[d]
            == if d.sub in subs && d.symbol == symbol && d.data == data then 1 else 0
  {
    if subs != [] {
      var init := subs[..|subs| - 1];
      assert subs == init + [subs[|subs| - 1]];
      FanOutExactlyOnce(init, symbol, data, d);
    }
  }

  /** A flush hands each subscriber each buffered symbol's value exactly once,
      and nothing else. */
  lemma {:induction false} DeliveriesExactlyOnce(order: seq<string>, buffer: map<string, RealtimeData>, subs: seq<SubId>, d: Delivery)
    requires forall k | k in order :: k in buffer
    requires NoDup(order) && NoDup(subs)
    ensures multiset(Deliveries(order, buffer, subs))[d]
            == if d.sub in subs && d.symbol in order && d.data == buffer[d.symbol] then 1 else 0
  {
    if order != [] {
      var init := order[..|order| - 1];
      var last := order[|order| - 1];
      assert order == init + [last];
      DeliveriesExactlyOnce(init, buffer, subs, d);
      FanOutExactlyOnce(subs, last, buffer[last], d);
    }
  }

  // ---------------------------------------------------------------------------
  // Private helpers of the manager

  /** `setState`: broadcast only on an actual change. */
  function SetState(m: Manager, s: ConnectionState): (r: Manager)
    requires Valid(m)
    ensures Valid(r)
    ensures r == m.(state := s, stateLog := r.stateLog)
  {
    if m.state == s then m
    else m.(state := s, stateLog := m.stateLog + Notices(m.stateSubs, s))
  }

  /** `clearTimers`: cancels the reconnect timer, the heartbeat interval the
      manager holds a handle to, and the flush timer. */
  function ClearTimers(m: Manager): (r: Manager)
    requires Valid(m)
    ensures Valid(r)
  {
    m.(reconnectTimer := false, heartbeatTimer := false, flushTimer := false)
  }

  /** `WebSocket.close()`: a connecting or open socket starts closing;
      otherwise nothing happens. */
  function CloseSocket(m: Manager, sid: SocketId): (r: Manager)
    requires Valid(m) && sid < |m.sockets|
    ensures Valid(r)
  {
    var sk := m.sockets[sid];
    if sk.readyState == CONNECTING || sk.readyState == OPEN then
      m.(sockets := m.sockets[sid := sk.(readyState := CLOSING)])
    else m
  }

  /** `disconnect`: clear timers, detach the close handler of the current
      socket, close it, forget it, and report `disconnected`. */
  function Disconnect(m: Manager): (r: Manager)
    requires Valid(m)
    ensures Valid(r)
    ensures r.symbols == m.symbols && r.openPrices == m.openPrices
    ensures r.dataSubs == m.dataSubs && r.stateSubs == m.stateSubs
    ensures r.updateBuffer == m.updateBuffer && r.bufferOrder == m.bufferOrder && r.dataLog == m.dataLog
  {
    var m1 := ClearTimers(m);
    var m2 :=
      match m1.ws
      case None => m1
      case Some(sid) =>
        var detached := m1.(ws := None, sockets := m1.sockets[sid := m1.sockets[sid].(closeHandlerAttached := false)]);
        CloseSocket(detached, sid);
    SetState(m2, Disconnected)
  }

  /** `scheduleReconnect`: at most one reconnect timer is pending. */
  function ScheduleReconnect(m: Manager, jitter: real): (r: Manager)
    requires Valid(m) && 0.0 <= jitter < 1.0
    ensures Valid(r)
  {
    if m.reconnectTimer then m
    else m.(reconnectTimer := true,
            reconnectDelay := ReconnectDelay(m.reconnectAttempts, jitter),
            reconnectAttempts := m.reconnectAttempts + 1)
  }

  /** `connect`. `socketFails` says whether the WebSocket constructor throws. */
  function Connect(m: Manager, socketFails: bool, jitter: real): (r: Manager)
    requires Valid(m) && 0.0 <= jitter < 1.0
    ensures Valid(r)
    ensures r.symbols == m.symbols && r.openPrices == m.openPrices
    ensures r.dataSubs == m.dataSubs && r.stateSubs == m.stateSubs
    ensures r.updateBuffer == m.updateBuffer && r.bufferOrder == m.bufferOrder && r.dataLog == m.dataLog
  {
    if SocketLive(m) || |m.symbols| == 0 then m
    else
      var m1 := SetState(ClearTimers(m), Connecting);
      if socketFails then ScheduleReconnect(m1, jitter)
      else m1.(sockets := m1.sockets + [Socket(Url(m1.symbols), CONNECTING, true)], ws := Some(|m1.sockets|))
  }

  function EnsureConnected(m: Manager, socketFails: bool, jitter: real): (r: Manager)
    requires Valid(m) && 0.0 <= jitter < 1.0
    ensures Valid(r)
  {
    if SocketLive(m) then m else Connect(m, socketFails, jitter)
  }

  function CheckDisconnect(m: Manager): (r: Manager)
    requires Valid(m)
    ensures Valid(r)
  {
    if |m.dataSubs| == 0 && |m.stateSubs| == 0 then Disconnect(m) else m
  }

  /** `updateBuffer.set(symbol, data)`: a new symbol goes to the end; an
      existing one keeps its place and gets the new value. */
  function BufferSet(m: Manager, symbol: string, data: RealtimeData): (r: Manager)
    requires Valid(m)
    ensures Valid(r)
  {
    m.(bufferOrder := if symbol in m.updateBuffer then m.bufferOrder else m.bufferOrder + [symbol],
       updateBuffer := m.updateBuffer[symbol := data])
  }

  /** `scheduleFlush`: a pending flush timer is left as it is. */
  function ScheduleFlush(m: Manager): (r: Manager)
    requires Valid(m)
    ensures Valid(r)
  {
    if m.flushTimer then m else m.(flushTimer := true)
  }

  /** `flush`: an empty buffer delivers nothing; otherwise every buffered
      entry goes to every data subscriber and the buffer is emptied. */
  function Flush(m: Manager): (r: Manager)
    requires Valid(m)
    ensures Valid(r)
  {
    if |m.updateBuffer| == 0 then m
    else m.(dataLog := m.dataLog + Deliveries(m.bufferOrder, m.updateBuffer, m.dataSubs),
            bufferOrder := [], updateBuffer := map[])
  }

  // ---------------------------------------------------------------------------
  // Public methods

  function Subscribe(m: Manager, id: SubId, socketFails: bool, jitter: real): (r: Manager)
    requires Valid(m) && 0.0 <= jitter < 1.0
    ensures Valid(r)
  {
    EnsureConnected(m.(dataSubs := SetAdd(m.dataSubs, id)), socketFails, jitter)
  }

  /** The unsubscribe function returned by `subscribe`. */
  function UnsubscribeData(m: Manager, id: SubId): (r: Manager)
    requires Valid(m)
    ensures Valid(r)
  {
    CheckDisconnect(m.(dataSubs := SetDelete(m.dataSubs, id)))
  }

  function SubscribeState(m: Manager, id: SubId): (r: Manager)
    requires Valid(m)
    ensures Valid(r)
  {
    m.(stateSubs := SetAdd(m.stateSubs, id), stateLog := m.stateLog + [StateNotice(id, m.state)])
  }

  /** The unsubscribe function returned by `subscribeState`. */
  function UnsubscribeState(m: Manager, id: SubId): (r: Manager)
    requires Valid(m)
    ensures Valid(r)
  {
    CheckDisconnect(m.(stateSubs := SetDelete(m.stateSubs, id)))
  }

  function SetOpenPrices(m: Manager, prices: map<string, real>): (r: Manager)
    requires Valid(m)
    ensures Valid(r)
  {
    m.(openPrices := m.openPrices + prices)
  }

  /** `setSymbols`: compares the comma-joined strings, not the lists. */
  function SetSymbols(m: Manager, syms: seq<string>, socketFails: bool, jitter: real): (r: Manager)
    requires Valid(m) && 0.0 <= jitter < 1.0
    ensures Valid(r)
  {
    if Join(syms, ',') == Join(m.symbols, ',') then m
    else
      var m1 := m.(symbols := syms);
      if HasSubscribers(m1) then Connect(Disconnect(m1.(reconnectAttempts := 0)), socketFails, jitter)
      else m1
  }

  function Reconnect(m: Manager, socketFails: bool, jitter: real): (r: Manager)
    requires Valid(m) && 0.0 <= jitter < 1.0
    ensures Valid(r)
  {
    Connect(Disconnect(m.(reconnectAttempts := 0)), socketFails, jitter)
  }

  // ---------------------------------------------------------------------------
  // Events. The requires clauses state when the browser can fire them.

  /** `onopen` of socket `sid`, which the browser fires once, when a
      connecting socket opens. A heartbeat interval already held is not
      cleared: it keeps running as a stray interval. */
  function OnOpen(m: Manager, sid: SocketId, now: int): (r: Manager)
    requires Valid(m) && sid < |m.sockets| && m.sockets[sid].readyState == CONNECTING
    ensures Valid(r)
  {
    var m0 := m.(sockets := m.sockets[sid := m.sockets[sid].(readyState := OPEN)]);
    var m1 := SetState(m0, Connected);
    m1.(reconnectAttempts := 0, lastMessage := now, heartbeatTimer := true,
        strayHeartbeats := if m1.heartbeatTimer then m1.strayHeartbeats + 1 else m1.strayHeartbeats)
  }

  /** The data record a ticker event produces: the baseline is the stored
      open price when there is one, otherwise the payload's own `o`. */
  function TickerData(openPrices: map<string, real>, symbol: string, c: real, o: real, h: real, l: real, q: real, now: int): RealtimeData {
    var open := if symbol in openPrices then openPrices[symbol] else o;
    RealtimeData(c, PercentChange(c, open), q, h, l, now)
  }

  /** `onmessage` of socket `sid`; the browser dispatches messages only on an open socket. */
  function OnMessage(m: Manager, sid: SocketId, msg: Message, now: int): (r: Manager)
    requires Valid(m) && sid < |m.sockets| && m.sockets[sid].readyState == OPEN
    ensures Valid(r)
  {
    var m1 := m.(lastMessage := now);
    match msg
    case Malformed => m1
    case Event(e, s, c, o, h, l, q) =>
      if e != TICKER_EVENT then m1
      else
        var symbol := BaseSymbol(s);
        ScheduleFlush(BufferSet(m1, symbol, TickerData(m1.openPrices, symbol, c, o, h, l, q, now)))
  }

  /** The close event of socket `sid`. Its handler runs only if it was not
      detached, and then acts on whatever socket is current. */
  function OnClose(m: Manager, sid: SocketId, jitter: real): (r: Manager)
    requires Valid(m) && sid < |m.sockets| && m.sockets[sid].readyState != CLOSED
    requires 0.0 <= jitter < 1.0
    ensures Valid(r)
  {
    var m0 := m.(sockets := m.sockets[sid := m.sockets[sid].(readyState := CLOSED)]);
    if !m.sockets[sid].closeHandlerAttached then m0
    else
      var m1 := SetState(ClearTimers(m0.(ws := None)), Disconnected);
      if HasSubscribers(m1) then ScheduleReconnect(m1, jitter) else m1
  }

  /** The error event of socket `sid`: `this.ws?.close()` closes the current
      socket, which need not be `sid`. */
  function OnError(m: Manager, sid: SocketId): (r: Manager)
    requires Valid(m) && sid < |m.sockets| && m.sockets[sid].readyState != CLOSED
    ensures Valid(r)
  {
    match m.ws
    case None => m
    case Some(current) => CloseSocket(m, current)
  }

  function ReconnectTimerFires(m: Manager, socketFails: bool, jitter: real): (r: Manager)
    requires Valid(m) && m.reconnectTimer && 0.0 <= jitter < 1.0
    ensures Valid(r)
  {
    Connect(m.(reconnectTimer := false), socketFails, jitter)
  }

  function FlushTimerFires(m: Manager): (r: Manager)
    requires Valid(m) && m.flushTimer
    ensures Valid(r)
  {
    Flush(m.(flushTimer := false))
  }

  /** One tick of a heartbeat interval (the held one or a stray one): close
      the current socket when it is open and silent for more than 10 s. */
  function HeartbeatTick(m: Manager, now: int): (r: Manager)
    requires Valid(m) && (m.heartbeatTimer || m.strayHeartbeats > 0)
    ensures Valid(r)
  {
    if m.ws.Some? && m.sockets[m.ws.value].readyState == OPEN && now - m.lastMessage > STALE_AFTER
    then CloseSocket(m, m.ws.value)
    else m
  }
}
