/** What the realtime manager promises, stated over the transition functions
    of `RealtimeSpec`. */
module RealtimeProperties {
  import opened Common
  import opened Text
  import opened ApiHelpers
  import opened RealtimeSpec

  // ---------------------------------------------------------------------------
  // State broadcast

  /** `setState` changes the state, and notifies every state subscriber
      exactly once when (and only when) the value actually changes. Setting
      the same value again notifies nobody. */
  lemma SetStateNotifiesOnChange(m: Manager, s: ConnectionState, id: SubId, t: ConnectionState)
    requires Valid(m)
    ensures SetState(m, s).state == s
    ensures m.state == s ==> SetState(m, s) == m
    ensures m.state != s ==>
      var r := SetState(m, s);
      && |r.stateLog| == |m.stateLog| + |m.stateSubs|
      && r.stateLog[..|m.stateLog|] == m.stateLog
      && multiset(r.stateLog[|m.stateLog|..])[StateNotice(id, t)] == (if id in m.stateSubs && t == s then 1 else 0)
      && r == m.(state := s, stateLog := r.stateLog)
    ensures SetState(SetState(m, s), s) == SetState(m, s)
  {
    if m.state != s {
      var r := SetState(m, s);
      assert r.stateLog[|m.stateLog|..] == Notices(m.stateSubs, s);
      NoticesExactlyOnce(m.stateSubs, s, id, t);
    }
  }

  /** `subscribeState` registers the callback and calls it once, at once,
      with the current state; it neither connects nor disconnects. */
  lemma SubscribeStateNotifiesCurrentState(m: Manager, id: SubId)
    requires Valid(m)
    ensures var r := SubscribeState(m, id);
      && id in r.stateSubs
      && (forall y :: y in r.stateSubs <==> y in m.stateSubs || y == id)
      && r.stateLog == m.stateLog + [StateNotice(id, m.state)]
      && r == m.(stateSubs := r.stateSubs, stateLog := r.stateLog)
  {
  }

  // ---------------------------------------------------------------------------
  // Subscribing and lazy connection

  /** Subscribing for data connects on demand: when no socket is open or
      connecting and there are symbols, a connection attempt starts (a new
      socket, or a scheduled retry when the constructor throws); otherwise
      only the callback set changes. */
  lemma SubscribeConnectsOnDemand(m: Manager, id: SubId, socketFails: bool, jitter: real)
    requires Valid(m) && 0.0 <= jitter < 1.0
    ensures var r := Subscribe(m, id, socketFails, jitter);
      && (forall y :: y in r.dataSubs <==> y in m.dataSubs || y == id)
      && r.stateSubs == m.stateSubs
      && ((SocketLive(m) || |m.symbols| == 0) ==> r == m.(dataSubs := SetAdd(m.dataSubs, id)))
      && (!SocketLive(m) && |m.symbols| > 0 ==>
            && r.state == Connecting
            && (!socketFails ==> r.ws == Some(|m.sockets|) && r.sockets == m.sockets + [Socket(Url(m.symbols), CONNECTING, true)])
            && (socketFails ==> r.reconnectTimer && r.sockets == m.sockets))
  {
  }

  /** What `disconnect` leaves behind, relative to the state `m` before it:
      no timer, no socket, state `disconnected`; the previous socket has lost
      its close handler and is closing; no other socket,
      and neither the update buffer nor the open prices, changed. */
  predicate TornDown(m: Manager, r: Manager) {
    && r.ws.None? && !r.reconnectTimer && !r.heartbeatTimer && !r.flushTimer
    && r.state == Disconnected
    && r.updateBuffer == m.updateBuffer && r.bufferOrder == m.bufferOrder
    && r.openPrices == m.openPrices && r.symbols == m.symbols
    && |r.sockets| == |m.sockets|
    && (m.ws.Some? && m.ws.value < |m.sockets| ==>
          r.sockets[m.ws.value] == m.sockets[m.ws.value].(closeHandlerAttached := false, readyState := CLOSING))
    && (forall i | 0 <= i < |m.sockets| && m.ws != Some(i) :: r.sockets[i] == m.sockets[i])
  }

  lemma DisconnectTearsDown(m: Manager)
    requires Valid(m)
    ensures TornDown(m, Disconnect(m))
    ensures Disconnect(m).dataSubs == m.dataSubs && Disconnect(m).stateSubs == m.stateSubs
  {
  }

  /** Unsubscribing removes only that callback. Once both sets are empty the
      manager tears everything down; while any subscriber remains nothing
      else changes. */
  lemma UnsubscribeDataRemovesOnly(m: Manager, id: SubId)
    requires Valid(m)
    ensures var r := UnsubscribeData(m, id);
      && (forall y :: y in r.dataSubs <==> y in m.dataSubs && y != id)
      && r.stateSubs == m.stateSubs
      && (HasSubscribers(r) ==> r == m.(dataSubs := SetDelete(m.dataSubs, id)))
      && (!HasSubscribers(r) ==> TornDown(m, r))
  {
    var m1 := m.(dataSubs := SetDelete(m.dataSubs, id));
    if !HasSubscribers(m1) {
      DisconnectTearsDown(m1);
    }
  }

  lemma UnsubscribeStateRemovesOnly(m: Manager, id: SubId)
    requires Valid(m)
    ensures var r := UnsubscribeState(m, id);
      && (forall y :: y in r.stateSubs <==> y in m.stateSubs && y != id)
      && r.dataSubs == m.dataSubs
      && (HasSubscribers(r) ==> r == m.(stateSubs := SetDelete(m.stateSubs, id)))
      && (!HasSubscribers(r) ==> TornDown(m, r))
  {
    var m1 := m.(stateSubs := SetDelete(m.stateSubs, id));
    if !HasSubscribers(m1) {
      DisconnectTearsDown(m1);
    }
  }

  /** A remaining state subscriber keeps the connection: the last data
      subscribers leaving tears nothing down. */
  lemma StateSubscriberKeepsConnection(m: Manager, a: SubId, b: SubId)
    requires Valid(m) && |m.stateSubs| > 0
    ensures UnsubscribeData(UnsubscribeData(m, a), b)
            == m.(dataSubs := SetDelete(SetDelete(m.dataSubs, a), b))
  {
  }

  /** Subscribing and unsubscribing the only subscriber leaves no connection
      behind. */
  lemma SubscribeThenUnsubscribeDisconnects(m: Manager, id: SubId, socketFails: bool, jitter: real)
    requires Valid(m) && 0.0 <= jitter < 1.0
    requires m.dataSubs == [] && m.stateSubs == []
    ensures var r := UnsubscribeData(Subscribe(m, id, socketFails, jitter), id);
      && r.dataSubs == [] && r.ws.None? && r.state == Disconnected
      && !r.reconnectTimer && !r.heartbeatTimer && !r.flushTimer
  {
    var m1 := Subscribe(m, id, socketFails, jitter);
    assert m1.dataSubs == [id] && m1.stateSubs == [];
    assert SetDelete([id], id) == SetDelete([id][1..], id);
    var m2 := m1.(dataSubs := []);
    assert UnsubscribeData(m1, id) == Disconnect(m2);
    DisconnectTearsDown(m2);
  }

  // ---------------------------------------------------------------------------
  // Connecting

  lemma ConnectGuards(m: Manager, socketFails: bool, jitter: real)
    requires Valid(m) && 0.0 <= jitter < 1.0
    requires SocketLive(m) || |m.symbols| == 0
    ensures Connect(m, socketFails, jitter) == m
  {
  }

  /** A connection attempt clears every timer, reports `connecting`, and opens
      one new socket on the streams of the first (at most 100) symbols. */
  lemma ConnectOpensStream(m: Manager, jitter: real)
    requires Valid(m) && 0.0 <= jitter < 1.0
    requires !SocketLive(m) && |m.symbols| > 0
    ensures var r := Connect(m, false, jitter);
      && r.state == Connecting
      && r.ws == Some(|m.sockets|)
      && r.sockets == m.sockets + [Socket(WS_URL + "/" + Join(StreamNames(m.symbols), '/'), CONNECTING, true)]
      && |StreamNames(m.symbols)| == Min(|m.symbols|, MAX_STREAMS)
      && (forall i | 0 <= i < |StreamNames(m.symbols)| :: StreamNames(m.symbols)[i] == Lower(m.symbols[i]) + "usdt@ticker")
      && !r.reconnectTimer && !r.heartbeatTimer && !r.flushTimer
      && r.reconnectAttempts == m.reconnectAttempts
      && r.updateBuffer == m.updateBuffer && r.openPrices == m.openPrices
  {
  }

  /** When the socket constructor throws, the state stays `connecting` and a
      retry is scheduled with the backoff delay of the current attempt. */
  lemma ConnectFailureSchedulesReconnect(m: Manager, jitter: real)
    requires Valid(m) && 0.0 <= jitter < 1.0
    requires !SocketLive(m) && |m.symbols| > 0
    ensures var r := Connect(m, true, jitter);
      && r.state == Connecting
      && r.reconnectTimer
      && r.reconnectAttempts == m.reconnectAttempts + 1
      && r.reconnectDelay == ReconnectDelay(m.reconnectAttempts, jitter)
      && r.ws == m.ws && r.sockets == m.sockets
  {
  }

  /** `connect` does not wait for a closing socket: it opens a new one and
      leaves the closing one, close handler included, as it was. */
  lemma ConnectProceedsWhileClosing(m: Manager, jitter: real)
    requires Valid(m) && 0.0 <= jitter < 1.0
    requires m.ws.Some? && m.sockets[m.ws.value].readyState == CLOSING && |m.symbols| > 0
    ensures var r := Connect(m, false, jitter);
      && r.ws == Some(|m.sockets|)
      && r.sockets[m.ws.value] == m.sockets[m.ws.value]
      && r.sockets[m.ws.value].closeHandlerAttached
  {
  }

  // ---------------------------------------------------------------------------
  // Open, close, error and heartbeat

  /** The open event reports `connected`, resets the attempt counter,
      restarts the silence clock and starts the heartbeat. */
  lemma OnOpenConnects(m: Manager, sid: SocketId, now: int)
    requires Valid(m) && sid < |m.sockets| && m.sockets[sid].readyState == CONNECTING
    ensures var r := OnOpen(m, sid, now);
      && r.state == Connected
      && r.reconnectAttempts == 0
      && r.heartbeatTimer
      && r.lastMessage == now
      && r.sockets[sid].readyState == OPEN
      && r.ws == m.ws
      && r.strayHeartbeats == (if m.heartbeatTimer then m.strayHeartbeats + 1 else m.strayHeartbeats)
  {
  }

  /** The close event of a socket whose handler is attached forgets the
      socket, clears every timer, reports `disconnected`, and schedules a
      reconnect exactly when some subscriber remains. A detached socket's
      close changes nothing but that socket. */
  lemma OnCloseReconnectsIffDemand(m: Manager, sid: SocketId, jitter: real)
    requires Valid(m) && sid < |m.sockets| && m.sockets[sid].readyState != CLOSED
    requires 0.0 <= jitter < 1.0
    ensures var r := OnClose(m, sid, jitter);
      && r.sockets == m.sockets[sid := m.sockets[sid].(readyState := CLOSED)]
      && (m.sockets[sid].closeHandlerAttached ==>
            && r.ws.None? && r.state == Disconnected
            && !r.heartbeatTimer && !r.flushTimer
            && (r.reconnectTimer <==> HasSubscribers(m))
            && (HasSubscribers(m) ==>
                  r.reconnectAttempts == m.reconnectAttempts + 1
                  && r.reconnectDelay == ReconnectDelay(m.reconnectAttempts, jitter))
            && r.updateBuffer == m.updateBuffer && r.openPrices == m.openPrices)
      && (!m.sockets[sid].closeHandlerAttached ==> r == m.(sockets := r.sockets))
  {
  }

  /** The error handler closes the current socket, whichever socket erred. */
  lemma OnErrorClosesCurrentSocket(m: Manager, sid: SocketId, other: SocketId)
    requires Valid(m)
    requires sid < |m.sockets| && m.sockets[sid].readyState != CLOSED
    requires other < |m.sockets| && m.sockets[other].readyState != CLOSED
    ensures OnError(m, sid) == OnError(m, other)
    ensures m.ws.None? ==> OnError(m, sid) == m
    ensures SocketLive(m) ==>
      OnError(m, sid) == m.(sockets := m.sockets[m.ws.value := m.sockets[m.ws.value].(readyState := CLOSING)])
  {
  }

  /** A change of symbols with subscribers present is a `reconnect` on the new list. */
  lemma SetSymbolsWithDemandReconnects(m: Manager, syms: seq<string>, socketFails: bool, jitter: real)
    requires Valid(m) && 0.0 <= jitter < 1.0
    requires Join(syms, ',') != Join(m.symbols, ',') && HasSubscribers(m)
    ensures SetSymbols(m, syms, socketFails, jitter) == Reconnect(m.(symbols := syms), socketFails, jitter)
  {
  }

  /** `reconnect` on a manager with symbols replaces the current socket by a
      new one on the current streams, with the backoff reset. */
  lemma ReconnectOpensStream(m: Manager, jitter: real)
    requires Valid(m) && 0.0 <= jitter < 1.0 && |m.symbols| > 0
    ensures var r := Reconnect(m, false, jitter);
      && r.symbols == m.symbols
      && r.reconnectAttempts == 0
      && r.state == Connecting
      && r.ws == Some(|m.sockets|)
      && |r.sockets| == |m.sockets| + 1
      && r.sockets[|m.sockets|] == Socket(Url(m.symbols), CONNECTING, true)
      && (m.ws.Some? ==>
            r.sockets[m.ws.value] == m.sockets[m.ws.value].(closeHandlerAttached := false, readyState := CLOSING))
  {
    var m0 := m.(reconnectAttempts := 0);
    DisconnectTearsDown(m0);
    var d := Disconnect(m0);
    ConnectOpensStream(d, jitter);
    if m.ws.Some? {
      assert Reconnect(m, false, jitter).sockets[m.ws.value] == d.sockets[m.ws.value];
    }
  }

  /** After `setSymbols` replaces a connecting socket, an error on the old
      socket closes the new one. */
  lemma StaleErrorClosesReplacement(m: Manager, syms: seq<string>, jitter: real)
    requires Valid(m) && 0.0 <= jitter < 1.0
    requires m.ws.Some? && m.sockets[m.ws.value].readyState == CONNECTING
    requires HasSubscribers(m) && |syms| > 0 && Join(syms, ',') != Join(m.symbols, ',')
    ensures var m1 := SetSymbols(m, syms, false, jitter);
      && m1.ws == Some(|m.sockets|)
      && m1.sockets[m.ws.value].readyState == CLOSING
      && OnError(m1, m.ws.value).sockets[|m.sockets|].readyState == CLOSING
  {
    var m1 := SetSymbols(m, syms, false, jitter);
    SetSymbolsWithDemandReconnects(m, syms, false, jitter);
    ReconnectOpensStream(m.(symbols := syms), jitter);
    assert m1.ws == Some(|m.sockets|) && m1.sockets[|m.sockets|].readyState == CONNECTING;
    assert m1.sockets[m.ws.value].readyState == CLOSING;
    assert OnError(m1, m.ws.value) == CloseSocket(m1, |m.sockets|);
  }

  /** A heartbeat tick changes something exactly when the current socket is
      open and has been silent for more than 10 s, and then it only starts
      closing that socket. */
  lemma HeartbeatClosesOnlyStale(m: Manager, now: int)
    requires Valid(m) && (m.heartbeatTimer || m.strayHeartbeats > 0)
    ensures var r := HeartbeatTick(m, now);
      && (r != m <==> SocketLive(m) && m.sockets[m.ws.value].readyState == OPEN && now - m.lastMessage > 10000)
      && (r != m ==> r == m.(sockets := m.sockets[m.ws.value := m.sockets[m.ws.value].(readyState := CLOSING)]))
  {
    var r := HeartbeatTick(m, now);
    if m.ws.Some? && m.sockets[m.ws.value].readyState == OPEN && now - m.lastMessage > STALE_AFTER {
      assert r.sockets[m.ws.value].readyState == CLOSING;
    }
  }

  // ---------------------------------------------------------------------------
  // Reconnect backoff

  /** At most one reconnect timer is pending; scheduling one uses the capped,
      jittered exponential delay of the current attempt and counts it. */
  lemma ScheduleReconnectAtMostOne(m: Manager, jitter: real)
    requires Valid(m) && 0.0 <= jitter < 1.0
    ensures m.reconnectTimer ==> ScheduleReconnect(m, jitter) == m
    ensures !m.reconnectTimer ==>
      var r := ScheduleReconnect(m, jitter);
      && r.reconnectTimer
      && r.reconnectAttempts == m.reconnectAttempts + 1
      && 0.75 * BaseDelay(m.reconnectAttempts) as real <= r.reconnectDelay < 1.25 * BaseDelay(m.reconnectAttempts) as real
      && BaseDelay(m.reconnectAttempts) == Min(1000 * Pow2(m.reconnectAttempts), 30000)
    ensures ScheduleReconnect(ScheduleReconnect(m, jitter), jitter) == ScheduleReconnect(m, jitter)
  {
    ReconnectDelayBounds(m.reconnectAttempts, jitter);
  }

  /** `reconnect()` restarts the backoff: after it the counter is 0, or 1 when
      the new socket could not even be created. */
  lemma ReconnectResetsAttempts(m: Manager, socketFails: bool, jitter: real)
    requires Valid(m) && 0.0 <= jitter < 1.0
    ensures Reconnect(m, socketFails, jitter).reconnectAttempts
            == if socketFails && |m.symbols| > 0 then 1 else 0
    ensures |m.symbols| > 0 ==> Reconnect(m, socketFails, jitter).state == Connecting
  {
  }

  /** A retry timer that fires makes a fresh connection attempt. */
  lemma ReconnectTimerReconnects(m: Manager, jitter: real)
    requires Valid(m) && m.reconnectTimer && 0.0 <= jitter < 1.0
    requires !SocketLive(m) && |m.symbols| > 0
    ensures var r := ReconnectTimerFires(m, false, jitter);
      && r.ws == Some(|m.sockets|) && r.state == Connecting && !r.reconnectTimer
      && r.reconnectAttempts == m.reconnectAttempts
  {
  }

  // ---------------------------------------------------------------------------
  // Symbols and open prices

  lemma SetSymbolsSameJoinIsNoOp(m: Manager, syms: seq<string>, socketFails: bool, jitter: real)
    requires Valid(m) && 0.0 <= jitter < 1.0
    requires Join(syms, ',') == Join(m.symbols, ',')
    ensures SetSymbols(m, syms, socketFails, jitter) == m
  {
  }

  /** The comparison is on joined strings: a list whose element contains a
      comma, or the list holding one empty symbol, can be mistaken for a
      different list and the change is then ignored. */
  lemma SetSymbolsComparesJoinedStrings(m: Manager, socketFails: bool, jitter: real)
    requires Valid(m) && 0.0 <= jitter < 1.0
    ensures m.symbols == ["A", "B"] ==> SetSymbols(m, ["A,B"], socketFails, jitter) == m
    ensures m.symbols == [] ==> SetSymbols(m, [""], socketFails, jitter) == m
  {
    assert Join(["A", "B"], ',') == "A" + [','] + Join(["B"], ',');
  }

  /** On non-empty lists of comma-free symbols the comparison is exact: a
      different list is always taken. */
  lemma SetSymbolsTakesDifferentList(m: Manager, syms: seq<string>, socketFails: bool, jitter: real)
    requires Valid(m) && 0.0 <= jitter < 1.0
    requires |syms| >= 1 && |m.symbols| >= 1 && syms != m.symbols
    requires forall i | 0 <= i < |syms| :: ',' !in syms[i]
    requires forall i | 0 <= i < |m.symbols| :: ',' !in m.symbols[i]
    ensures SetSymbols(m, syms, socketFails, jitter).symbols == syms
  {
    JoinInjective(syms, m.symbols, ',');
    var m1 := m.(symbols := syms);
    if HasSubscribers(m1) {
      var d := Disconnect(m1.(reconnectAttempts := 0));
      assert d.symbols == syms;
    }
  }

  /** Without subscribers a change of symbols only stores the new list. */
  lemma SetSymbolsWithoutDemand(m: Manager, syms: seq<string>, socketFails: bool, jitter: real)
    requires Valid(m) && 0.0 <= jitter < 1.0
    requires Join(syms, ',') != Join(m.symbols, ',') && !HasSubscribers(m)
    ensures SetSymbols(m, syms, socketFails, jitter) == m.(symbols := syms)
  {
  }

  /** With subscribers a change of symbols resets the backoff, drops the old
      socket and opens one on the new streams. */
  lemma SetSymbolsRestartsStream(m: Manager, syms: seq<string>, jitter: real)
    requires Valid(m) && 0.0 <= jitter < 1.0
    requires Join(syms, ',') != Join(m.symbols, ',') && HasSubscribers(m) && |syms| > 0
    ensures var r := SetSymbols(m, syms, false, jitter);
      && r.symbols == syms
      && r.reconnectAttempts == 0
      && r.state == Connecting
      && r.ws == Some(|m.sockets|)
      && r.sockets[|m.sockets|] == Socket(Url(syms), CONNECTING, true)
      && (m.ws.Some? ==>
            !r.sockets[m.ws.value].closeHandlerAttached && r.sockets[m.ws.value].readyState != OPEN)
  {
    SetSymbolsWithDemandReconnects(m, syms, false, jitter);
    ReconnectOpensStream(m.(symbols := syms), jitter);
  }

  /** `setOpenPrices` merges: given keys take the new value, others keep theirs. */
  lemma SetOpenPricesMerges(m: Manager, prices: map<string, real>)
    requires Valid(m)
    ensures var r := SetOpenPrices(m, prices);
      && (forall k :: k in r.openPrices <==> k in m.openPrices || k in prices)
      && (forall k | k in prices :: r.openPrices[k] == prices[k])
      && (forall k | k in m.openPrices && k !in prices :: r.openPrices[k] == m.openPrices[k])
      && r == m.(openPrices := r.openPrices)
  {
  }

  // ---------------------------------------------------------------------------
  // Messages and the update buffer

  /** Every message restarts the silence clock; one that is malformed or is
      not a 24-hour ticker changes nothing else. */
  lemma OnMessageIgnoresOtherEvents(m: Manager, sid: SocketId, msg: Message, now: int)
    requires Valid(m) && sid < |m.sockets| && m.sockets[sid].readyState == OPEN
    ensures OnMessage(m, sid, msg, now).lastMessage == now
    ensures (msg.Malformed? || msg.e != "24hrTicker") ==> OnMessage(m, sid, msg, now) == m.(lastMessage := now)
  {
  }

  /** A ticker overwrites the buffer entry of its symbol (the pair with its
      first "USDT" removed), using the stored open price as baseline when
      there is one; a flush gets scheduled unless one is pending. Nothing is
      delivered yet. */
  lemma OnMessageBuffersTicker(m: Manager, sid: SocketId, s: string, c: real, o: real, h: real, l: real, q: real, now: int)
    requires Valid(m) && sid < |m.sockets| && m.sockets[sid].readyState == OPEN
    ensures var sym := ReplaceFirst(s, "USDT", "");
      var open := if sym in m.openPrices then m.openPrices[sym] else o;
      var r := OnMessage(m, sid, Event("24hrTicker", s, c, o, h, l, q), now);
      && r.updateBuffer == m.updateBuffer[sym := RealtimeData(c, PercentChange(c, open), q, h, l, now)]
      && r.bufferOrder == (if sym in m.updateBuffer then m.bufferOrder else m.bufferOrder + [sym])
      && r.flushTimer
      && r.dataLog == m.dataLog && r.openPrices == m.openPrices
      && r == m.(lastMessage := now, updateBuffer := r.updateBuffer, bufferOrder := r.bufferOrder, flushTimer := true)
  {
  }

  /** Last write wins: two tickers for the same pair before a flush leave the
      manager exactly as if only the second had arrived. */
  lemma TickersCoalesce(m: Manager, sid: SocketId, s: string,
                        c1: real, o1: real, h1: real, l1: real, q1: real, now1: int,
                        c2: real, o2: real, h2: real, l2: real, q2: real, now2: int)
    requires Valid(m) && sid < |m.sockets| && m.sockets[sid].readyState == OPEN
    ensures var m1 := OnMessage(m, sid, Event("24hrTicker", s, c1, o1, h1, l1, q1), now1);
      && m1.sockets == m.sockets
      && OnMessage(m1, sid, Event("24hrTicker", s, c2, o2, h2, l2, q2), now2)
         == OnMessage(m, sid, Event("24hrTicker", s, c2, o2, h2, l2, q2), now2)
  {
    var sym := BaseSymbol(s);
    var m1 := OnMessage(m, sid, Event("24hrTicker", s, c1, o1, h1, l1, q1), now1);
    var d2 := TickerData(m.openPrices, sym, c2, o2, h2, l2, q2, now2);
    assert m1.updateBuffer[sym := d2] == m.updateBuffer[sym := d2];
  }

  /** Flushing an empty buffer delivers nothing. */
  lemma FlushEmptyDeliversNothing(m: Manager)
    requires Valid(m) && m.flushTimer && |m.updateBuffer| == 0
    ensures FlushTimerFires(m) == m.(flushTimer := false)
  {
  }

  /** A flush hands every current data subscriber every buffered value exactly
      once, delivers nothing else, and empties the buffer. */
  lemma FlushDeliversEachOnce(m: Manager, d: Delivery)
    requires Valid(m) && m.flushTimer
    ensures var r := FlushTimerFires(m);
      && |r.dataLog| >= |m.dataLog|
      && r.dataLog[..|m.dataLog|] == m.dataLog
      && multiset(r.dataLog[|m.dataLog|..])[d]
         == (if d.sub in m.dataSubs && d.symbol in m.updateBuffer && d.data == m.updateBuffer[d.symbol] then 1 else 0)
      && r.updateBuffer == map[] && r.bufferOrder == []
      && !r.flushTimer
  {
    var m1 := m.(flushTimer := false);
    if |m.updateBuffer| != 0 {
      var r := Flush(m1);
      assert r.dataLog[|m.dataLog|..] == Deliveries(m.bufferOrder, m.updateBuffer, m.dataSubs);
      DeliveriesExactlyOnce(m.bufferOrder, m.updateBuffer, m.dataSubs, d);
    }
  }

  /** Clearing timers and disconnecting never touch the buffer or the open prices. */
  lemma TimersLeaveBufferAlone(m: Manager)
    requires Valid(m)
    ensures ClearTimers(m).updateBuffer == m.updateBuffer && ClearTimers(m).bufferOrder == m.bufferOrder
    ensures ClearTimers(m).openPrices == m.openPrices
    ensures Disconnect(m).updateBuffer == m.updateBuffer && Disconnect(m).bufferOrder == m.bufferOrder
    ensures Disconnect(m).openPrices == m.openPrices
  {
  }

  /** One ticker end to end: a "<base>USDT" ticker is buffered under `base`
      and reaches the subscriber at the next flush, with the change taken
      against the stored open price rather than the payload's own. */
  lemma TickerReachesSubscriber(m: Manager, sid: SocketId, sub: SubId, base: string,
                                c: real, o: real, h: real, l: real, q: real, now: int)
    requires Valid(m) && sid < |m.sockets| && m.sockets[sid].readyState == OPEN
    requires m.dataSubs == [sub] && base in m.openPrices
    requires forall j :: !OccursAt(base, QUOTE, j)
    requires m.updateBuffer == map[] && m.bufferOrder == []
    ensures var m1 := OnMessage(m, sid, Event(TICKER_EVENT, base + QUOTE, c, o, h, l, q), now);
      && m1.flushTimer
      && FlushTimerFires(m1).dataLog
         == m.dataLog + [Delivery(sub, base, RealtimeData(c, PercentChange(c, m.openPrices[base]), q, h, l, now))]
  {
    BaseSymbolRoundTrip(base);
    OnMessageBuffersTicker(m, sid, base + QUOTE, c, o, h, l, q, now);
    var data := RealtimeData(c, PercentChange(c, m.openPrices[base]), q, h, l, now);
    var m1 := OnMessage(m, sid, Event(TICKER_EVENT, base + QUOTE, c, o, h, l, q), now);
    assert m1.updateBuffer == map[base := data] && m1.bufferOrder == [base];
    assert Deliveries([base], m1.updateBuffer, [sub]) == Deliveries([], m1.updateBuffer, [sub]) + FanOut([sub], base, data);
    assert FanOut([sub], base, data) == FanOut([], base, data) + [Delivery(sub, base, data)];
  }
}
