/** The realtime manager as an object whose methods update its fields in
    place. Every method is proved to move the object's state exactly as the
    matching transition function of `RealtimeSpec` moves a `Manager` value,
    so the properties proved in `RealtimeProperties` hold of the object.

    The notifications handed to callbacks are recorded in `stateLog` and
    `dataLog`; the sockets the manager created are kept in `sockets`, indexed
    by creation order, and `ws` names the current one. */
module Realtime {
  import opened Common
  import opened Text
  import opened ApiHelpers
  import RealtimeSpec

  type SubId = RealtimeSpec.SubId
  type SocketId = RealtimeSpec.SocketId
  type Manager = RealtimeSpec.Manager
  type Socket = RealtimeSpec.Socket
  type ConnectionState = RealtimeSpec.ConnectionState
  type RealtimeData = RealtimeSpec.RealtimeData
  type Message = RealtimeSpec.Message

  /** `stateCallbacks.forEach(cb => cb(s))`: one notice per subscriber, in
      subscription order. */
  method NotifyAll(subs: seq<SubId>, s: ConnectionState) returns (notices: seq<RealtimeSpec.StateNotice>)
    ensures notices == RealtimeSpec.Notices(subs, s)
  {
    notices := [];
    var i := 0;
    while i < |subs|
      invariant 0 <= i <= |subs|
      invariant notices == RealtimeSpec.Notices(subs[..i], s)
    {
      assert subs[..i + 1][..i] == subs[..i];
      notices := notices + [RealtimeSpec.StateNotice(subs[i], s)];
      i := i + 1;
    }
    assert subs[..i] == subs;
  }

  /** The two nested `forEach` loops of `flush`: for each buffered symbol in
      buffer order, one delivery to each data subscriber in subscription order. */
  method DeliverAll(order: seq<string>, buffer: map<string, RealtimeData>, subs: seq<SubId>)
    returns (delivered: seq<RealtimeSpec.Delivery>)
    requires forall k | k in order :: k in buffer
    ensures delivered == RealtimeSpec.Deliveries(order, buffer, subs)
  {
    delivered := [];
    var i := 0;
    while i < |order|
      invariant 0 <= i <= |order|
      invariant forall k | k in order[..i] :: k in buffer
      invariant delivered == RealtimeSpec.Deliveries(order[..i], buffer, subs)
    {
      var symbol := order[i];
      var data := buffer[symbol];
      ghost var before := delivered;
      var j := 0;
      while j < |subs|
        invariant 0 <= j <= |subs|
        invariant delivered == before + RealtimeSpec.FanOut(subs[..j], symbol, data)
      {
        RealtimeSpec.FanOutStep(subs, symbol, data, j);
        delivered := delivered + [RealtimeSpec.Delivery(subs[j], symbol, data)];
        j := j + 1;
      }
      assert subs[..j] == subs;
      RealtimeSpec.DeliveriesStep(order, buffer, subs, i);
      i := i + 1;
    }
    assert order[..i] == order;
  }

  class RealtimeManager {
    var ws: Option<SocketId>
    var sockets: seq<Socket>
    var symbols: seq<string>
    var openPrices: map<string, real>
    var dataSubs: seq<SubId>
    var stateSubs: seq<SubId>
    var state: ConnectionState
    var reconnectAttempts: nat
    var reconnectTimer: bool
    var reconnectDelay: real
    var heartbeatTimer: bool
    var strayHeartbeats: nat
    var lastMessage: int
    var bufferOrder: seq<string>
    var updateBuffer: map<string, RealtimeData>
    var flushTimer: bool
    var stateLog: seq<RealtimeSpec.StateNotice>
    var dataLog: seq<RealtimeSpec.Delivery>

    /** The object's fields as a `Manager` value. */
    ghost function Model(): Manager
      reads this
    {
      RealtimeSpec.Manager(ws, sockets, symbols, openPrices, dataSubs, stateSubs, state,
                           reconnectAttempts, reconnectTimer, reconnectDelay, heartbeatTimer,
                           strayHeartbeats, lastMessage, bufferOrder, updateBuffer, flushTimer,
                           stateLog, dataLog)
    }

    ghost predicate Valid()
      reads this
    {
      RealtimeSpec.Valid(Model())
    }

    constructor ()
      ensures Model() == RealtimeSpec.Init()
      ensures Valid()
    {
      ws := None;
      sockets := [];
      symbols := [];
      openPrices := map[];
      dataSubs := [];
      stateSubs := [];
      state := RealtimeSpec.Disconnected;
      reconnectAttempts := 0;
      reconnectTimer := false;
      reconnectDelay := 0.0;
      heartbeatTimer := false;
      strayHeartbeats := 0;
      lastMessage := 0;
      bufferOrder := [];
      updateBuffer := map[];
      flushTimer := false;
      stateLog := [];
      dataLog := [];
    }

    // -------------------------------------------------------------------------
    // Public methods

    method Subscribe(id: SubId, socketFails: bool, jitter: real)
      requires Valid() && 0.0 <= jitter < 1.0
      modifies this
      ensures Model() == RealtimeSpec.Subscribe(old(Model()), id, socketFails, jitter)
      ensures Valid()
    {
      dataSubs := SetAdd(dataSubs, id);
      EnsureConnected(socketFails, jitter);
    }

    /** The unsubscribe function `subscribe` returns. */
    method UnsubscribeData(id: SubId)
      requires Valid()
      modifies this
      ensures Model() == RealtimeSpec.UnsubscribeData(old(Model()), id)
      ensures Valid()
    {
      dataSubs := SetDelete(dataSubs, id);
      CheckDisconnect();
    }

    method SubscribeState(id: SubId)
      requires Valid()
      modifies this
      ensures Model() == RealtimeSpec.SubscribeState(old(Model()), id)
      ensures Valid()
    {
      stateSubs := SetAdd(stateSubs, id);
      stateLog := stateLog + [RealtimeSpec.StateNotice(id, state)];
    }

    /** The unsubscribe function `subscribeState` returns. */
    method UnsubscribeState(id: SubId)
      requires Valid()
      modifies this
      ensures Model() == RealtimeSpec.UnsubscribeState(old(Model()), id)
      ensures Valid()
    {
      stateSubs := SetDelete(stateSubs, id);
      CheckDisconnect();
    }

    /** Copies every entry of `prices` into the open prices, one key at a time. */
    method SetOpenPrices(prices: map<string, real>)
      requires Valid()
      modifies this
      ensures Model() == RealtimeSpec.SetOpenPrices(old(Model()), prices)
      ensures Valid()
    {
      var merged := openPrices;
      var rest := prices.Keys;
      while rest != {}
        invariant rest <= prices.Keys
        invariant merged == openPrices + (prices - rest)
        decreases rest
      {
        var k :| k in rest;
        merged := merged[k := prices[k]];
        rest := rest - {k};
        assert merged == openPrices + (prices - rest);
      }
      assert prices - {} == prices;
      openPrices := merged;
    }

    method SetSymbols(syms: seq<string>, socketFails: bool, jitter: real)
      requires Valid() && 0.0 <= jitter < 1.0
      modifies this
      ensures Model() == RealtimeSpec.SetSymbols(old(Model()), syms, socketFails, jitter)
      ensures Valid()
    {
      if Join(syms, ',') != Join(symbols, ',') {
        symbols := syms;
        if |dataSubs| > 0 || |stateSubs| > 0 {
          reconnectAttempts := 0;
          Disconnect();
          Connect(socketFails, jitter);
        }
      }
    }

    method Reconnect(socketFails: bool, jitter: real)
      requires Valid() && 0.0 <= jitter < 1.0
      modifies this
      ensures Model() == RealtimeSpec.Reconnect(old(Model()), socketFails, jitter)
      ensures Valid()
    {
      reconnectAttempts := 0;
      Disconnect();
      Connect(socketFails, jitter);
    }

    // -------------------------------------------------------------------------
    // Private helpers

    /** Whether the current socket is open or connecting. */
    method IsSocketLive() returns (live: bool)
      requires Valid()
      ensures live == RealtimeSpec.SocketLive(Model())
    {
      live := ws.Some? && (sockets[ws.value].readyState == RealtimeSpec.OPEN
                           || sockets[ws.value].readyState == RealtimeSpec.CONNECTING);
    }

    method EnsureConnected(socketFails: bool, jitter: real)
      requires Valid() && 0.0 <= jitter < 1.0
      modifies this
      ensures Model() == RealtimeSpec.EnsureConnected(old(Model()), socketFails, jitter)
      ensures Valid()
    {
      var live := IsSocketLive();
      if !live {
        Connect(socketFails, jitter);
      }
    }

    method CheckDisconnect()
      requires Valid()
      modifies this
      ensures Model() == RealtimeSpec.CheckDisconnect(old(Model()))
      ensures Valid()
    {
      if |dataSubs| == 0 && |stateSubs| == 0 {
        Disconnect();
      }
    }

    /** Sets the state and, on a change, calls every state callback in order. */
    method SetState(s: ConnectionState)
      requires Valid()
      modifies this
      ensures Model() == RealtimeSpec.SetState(old(Model()), s)
      ensures Valid()
    {
      if state != s {
        var notices := NotifyAll(stateSubs, s);
        var log := stateLog + notices;
        state := s;
        stateLog := log;
      }
    }

    method ClearTimers()
      requires Valid()
      modifies this
      ensures Model() == RealtimeSpec.ClearTimers(old(Model()))
      ensures Valid()
    {
      reconnectTimer := false;
      heartbeatTimer := false;
      flushTimer := false;
    }

    /** `WebSocket.close()` on socket `sid`. */
    method CloseSocket(sid: SocketId)
      requires Valid() && sid < |sockets|
      modifies this
      ensures Model() == RealtimeSpec.CloseSocket(old(Model()), sid)
      ensures Valid()
    {
      var sk := sockets[sid];
      if sk.readyState == RealtimeSpec.CONNECTING || sk.readyState == RealtimeSpec.OPEN {
        sockets := sockets[sid := sk.(readyState := RealtimeSpec.CLOSING)];
      }
    }

    method Disconnect()
      requires Valid()
      modifies this
      ensures Model() == RealtimeSpec.Disconnect(old(Model()))
      ensures Valid()
    {
      ClearTimers();
      if ws.Some? {
        var sid := ws.value;
        sockets := sockets[sid := sockets[sid].(closeHandlerAttached := false)];
        ws := None;
        CloseSocket(sid);
      }
      SetState(RealtimeSpec.Disconnected);
    }

    method ScheduleReconnect(jitter: real)
      requires Valid() && 0.0 <= jitter < 1.0
      modifies this
      ensures Model() == RealtimeSpec.ScheduleReconnect(old(Model()), jitter)
      ensures Valid()
    {
      if !reconnectTimer {
        reconnectDelay := RealtimeSpec.ReconnectDelay(reconnectAttempts, jitter);
        reconnectAttempts := reconnectAttempts + 1;
        reconnectTimer := true;
      }
    }

    /** `connect`; `socketFails` says whether the WebSocket constructor throws. */
    method Connect(socketFails: bool, jitter: real)
      requires Valid() && 0.0 <= jitter < 1.0
      modifies this
      ensures Model() == RealtimeSpec.Connect(old(Model()), socketFails, jitter)
      ensures Valid()
    {
      var live := IsSocketLive();
      if live || |symbols| == 0 {
        return;
      }
      ClearTimers();
      SetState(RealtimeSpec.Connecting);
      if socketFails {
        ScheduleReconnect(jitter);
      } else {
        var url := RealtimeSpec.Url(symbols);
        ws := Some(|sockets|);
        sockets := sockets + [RealtimeSpec.Socket(url, RealtimeSpec.CONNECTING, true)];
      }
    }

    method ScheduleFlush()
      requires Valid()
      modifies this
      ensures Model() == RealtimeSpec.ScheduleFlush(old(Model()))
      ensures Valid()
    {
      if !flushTimer {
        flushTimer := true;
      }
    }

    /** Hands every buffered entry, in buffer order, to every data callback,
        in subscription order, then empties the buffer. */
    method Flush()
      requires Valid()
      modifies this
      ensures Model() == RealtimeSpec.Flush(old(Model()))
      ensures Valid()
    {
      if |updateBuffer| == 0 {
        return;
      }
      var delivered := DeliverAll(bufferOrder, updateBuffer, dataSubs);
      EmptyBuffer(delivered);
    }

    /** Appends the deliveries to the data log and empties the buffer. */
    method EmptyBuffer(delivered: seq<RealtimeSpec.Delivery>)
      modifies this
      ensures Model() == old(Model()).(dataLog := old(dataLog) + delivered, bufferOrder := [], updateBuffer := map[])
    {
      dataLog := dataLog + delivered;
      bufferOrder := [];
      updateBuffer := map[];
      assert unchanged(this`ws, this`sockets, this`symbols, this`openPrices, this`dataSubs, this`stateSubs, this`state);
      assert unchanged(this`reconnectAttempts, this`reconnectTimer, this`reconnectDelay, this`heartbeatTimer);
      assert unchanged(this`strayHeartbeats, this`lastMessage, this`flushTimer, this`stateLog);
    }

    // -------------------------------------------------------------------------
    // Events

    method OnOpen(sid: SocketId, now: int)
      requires Valid() && sid < |sockets| && sockets[sid].readyState == RealtimeSpec.CONNECTING
      modifies this
      ensures Model() == RealtimeSpec.OnOpen(old(Model()), sid, now)
      ensures Valid()
    {
      MarkSocket(sid, RealtimeSpec.OPEN);
      SetState(RealtimeSpec.Connected);
      MarkOpened(now);
    }

    /** Records a socket's new `readyState`. */
    method MarkSocket(sid: SocketId, rs: RealtimeSpec.ReadyState)
      requires Valid() && sid < |sockets| && rs != RealtimeSpec.CLOSED
      modifies this
      ensures Model() == old(Model()).(sockets := old(sockets)[sid := old(sockets)[sid].(readyState := rs)])
      ensures Valid()
    {
      sockets := sockets[sid := sockets[sid].(readyState := rs)];
    }

    /** The bookkeeping of `onopen` after the state change: attempts reset,
        the message clock restarted, the heartbeat interval started. */
    method MarkOpened(now: int)
      requires Valid()
      modifies this
      ensures Model() == old(Model()).(reconnectAttempts := 0, lastMessage := now, heartbeatTimer := true,
        strayHeartbeats := if old(heartbeatTimer) then old(strayHeartbeats) + 1 else old(strayHeartbeats))
      ensures Valid()
    {
      reconnectAttempts := 0;
      lastMessage := now;
      strayHeartbeats := if heartbeatTimer then strayHeartbeats + 1 else strayHeartbeats;
      heartbeatTimer := true;
      assert unchanged(this`ws, this`sockets, this`symbols, this`openPrices, this`dataSubs, this`stateSubs, this`state);
      assert unchanged(this`reconnectTimer, this`reconnectDelay, this`bufferOrder, this`updateBuffer, this`flushTimer);
      assert unchanged(this`stateLog, this`dataLog);
    }

    method OnMessage(sid: SocketId, msg: Message, now: int)
      requires Valid() && sid < |sockets| && sockets[sid].readyState == RealtimeSpec.OPEN
      modifies this
      ensures Model() == RealtimeSpec.OnMessage(old(Model()), sid, msg, now)
      ensures Valid()
    {
      lastMessage := now;
      if msg.Malformed? || msg.e != RealtimeSpec.TICKER_EVENT {
        return;
      }
      var symbol := BaseSymbol(msg.s);
      var data := RealtimeSpec.TickerData(openPrices, symbol, msg.c, msg.o, msg.h, msg.l, msg.q, now);
      BufferSet(symbol, data);
      ScheduleFlush();
    }

    /** `updateBuffer.set(symbol, data)` on the insertion-ordered buffer. */
    method BufferSet(symbol: string, data: RealtimeData)
      requires Valid()
      modifies this
      ensures Model() == RealtimeSpec.BufferSet(old(Model()), symbol, data)
      ensures Valid()
    {
      if symbol !in updateBuffer {
        bufferOrder := bufferOrder + [symbol];
      }
      updateBuffer := updateBuffer[symbol := data];
      assert unchanged(this`ws, this`sockets, this`symbols, this`openPrices, this`dataSubs, this`stateSubs, this`state);
      assert unchanged(this`reconnectAttempts, this`reconnectTimer, this`reconnectDelay, this`heartbeatTimer);
      assert unchanged(this`strayHeartbeats, this`lastMessage, this`flushTimer, this`stateLog, this`dataLog);
    }

    method OnClose(sid: SocketId, jitter: real)
      requires Valid() && sid < |sockets| && sockets[sid].readyState != RealtimeSpec.CLOSED
      requires 0.0 <= jitter < 1.0
      modifies this
      ensures Model() == RealtimeSpec.OnClose(old(Model()), sid, jitter)
      ensures Valid()
    {
      var attached := sockets[sid].closeHandlerAttached;
      sockets := sockets[sid := sockets[sid].(readyState := RealtimeSpec.CLOSED)];
      if attached {
        ws := None;
        ClearTimers();
        SetState(RealtimeSpec.Disconnected);
        if |dataSubs| > 0 || |stateSubs| > 0 {
          ScheduleReconnect(jitter);
        }
      }
    }

    method OnError(sid: SocketId)
      requires Valid() && sid < |sockets| && sockets[sid].readyState != RealtimeSpec.CLOSED
      modifies this
      ensures Model() == RealtimeSpec.OnError(old(Model()), sid)
      ensures Valid()
    {
      if ws.Some? {
        CloseSocket(ws.value);
      }
    }

    method ReconnectTimerFires(socketFails: bool, jitter: real)
      requires Valid() && reconnectTimer && 0.0 <= jitter < 1.0
      modifies this
      ensures Model() == RealtimeSpec.ReconnectTimerFires(old(Model()), socketFails, jitter)
      ensures Valid()
    {
      reconnectTimer := false;
      Connect(socketFails, jitter);
    }

    method FlushTimerFires()
      requires Valid() && flushTimer
      modifies this
      ensures Model() == RealtimeSpec.FlushTimerFires(old(Model()))
      ensures Valid()
    {
      flushTimer := false;
      Flush();
    }

    method HeartbeatTick(now: int)
      requires Valid() && (heartbeatTimer || strayHeartbeats > 0)
      modifies this
      ensures Model() == RealtimeSpec.HeartbeatTick(old(Model()), now)
      ensures Valid()
    {
      if ws.Some? && sockets[ws.value].readyState == RealtimeSpec.OPEN && now - lastMessage > RealtimeSpec.STALE_AFTER {
        CloseSocket(ws.value);
      }
    }
  }
}
