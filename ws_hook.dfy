/** The per-component WebSocket hook (frontend/cardano_frontend/hooks/websocket.ts):
    every component that calls `useWebsocket` owns one `Connection`, which
    opens its own socket, attaches handlers to every socket it opens, and
    schedules a new `connect()` three seconds after any of them closes.

    Each event is specified by a step function on the connection's state,
    which the connection's methods are proved to follow. `JSON.parse` is a
    parameter; timers are named by the order in which they were set and
    fire in the order the browser chooses. */
module WebsocketHook {
  import opened Wrappers
  import opened Json
  import opened Sockets

  /** The delay before `connect()` runs again, in milliseconds. */
  const RECONNECT_DELAY_MS: nat := 3000

  /** The two state cells and the two references of one hook. `timers`
      holds, for each timer ever set, whether it is still pending;
      `reconnectInterval` names the last one set. */
  datatype HookState = HookState(
    isConnected: bool,
    lastMessage: Option<Value>,
    wsRef: Option<nat>,
    sockets: seq<ReadyState>,
    timers: seq<bool>,
    reconnectInterval: Option<nat>)

  const INITIAL_HOOK: HookState := HookState(false, Some(Null), None, [], [], None)

  ghost predicate Valid(h: HookState) {
    && (h.wsRef.Some? ==> h.wsRef.value < |h.sockets|)
    && (h.reconnectInterval.Some? ==> h.reconnectInterval.value < |h.timers|)
  }

  predicate Pending(h: HookState, t: nat) {
    t < |h.timers| && h.timers[t]
  }

  /** `connect()`: a new socket, with handlers, becomes the current one. */
  function ConnectStep(h: HookState): (r: HookState)
    ensures r.sockets == h.sockets + [Connecting] && r.wsRef == Some(|h.sockets|)
    ensures r.(sockets := h.sockets, wsRef := h.wsRef) == h
  {
    h.(sockets := h.sockets + [Connecting], wsRef := Some(|h.sockets|))
  }

  /** An open event on any of the hook's sockets raises the flag. */
  function OpenStep(h: HookState, id: nat): (r: HookState)
    ensures r.isConnected <==> h.isConnected || CanOpen(h.sockets, id)
    ensures CanOpen(h.sockets, id) ==> CanReceive(r.sockets, id)
    ensures r.(sockets := h.sockets, isConnected := h.isConnected) == h
  {
    if CanOpen(h.sockets, id) then h.(sockets := h.sockets[id := Open], isConnected := true) else h
  }

  /** A frame on any of the hook's open sockets: when it parses, it becomes
      the last message; otherwise nothing changes. */
  function MessageStep(h: HookState, id: nat, data: string, parse: string -> Option<Value>): (r: HookState)
    ensures r.lastMessage == (if CanReceive(h.sockets, id) && parse(data).Some? then parse(data) else h.lastMessage)
    ensures r.(lastMessage := h.lastMessage) == h
  {
    if CanReceive(h.sockets, id) && parse(data).Some? then h.(lastMessage := parse(data)) else h
  }

  /** A close event on any of the hook's sockets: the flag drops and a new
      timer is set, which becomes `reconnectInterval`. */
  function CloseStep(h: HookState, id: nat): (r: HookState)
    ensures !CanClose(h.sockets, id) ==> r == h
    ensures CanClose(h.sockets, id) ==>
      && !r.isConnected && !CanClose(r.sockets, id) && r.sockets == h.sockets[id := Closed]
      && r.timers == h.timers + [true] && r.reconnectInterval == Some(|h.timers|)
    ensures r.(isConnected := h.isConnected, sockets := h.sockets, timers := h.timers,
               reconnectInterval := h.reconnectInterval) == h
  {
    if !CanClose(h.sockets, id) then h
    else
      h.(sockets := h.sockets[id := Closed], isConnected := false,
         timers := h.timers + [true], reconnectInterval := Some(|h.timers|))
  }

  /** A pending timer firing runs `connect()`. */
  function TimerStep(h: HookState, t: nat): (r: HookState)
    ensures !Pending(h, t) ==> r == h
    ensures Pending(h, t) ==> !Pending(r, t) && r == ConnectStep(h.(timers := h.timers[t := false]))
  {
    if Pending(h, t) then ConnectStep(h.(timers := h.timers[t := false])) else h
  }

  /** The effect's cleanup on unmount: clear the timer named by
      `reconnectInterval` and close the current socket. Handlers stay
      attached. */
  function UnmountStep(h: HookState): (r: HookState)
    ensures h.reconnectInterval.Some? ==> !Pending(r, h.reconnectInterval.value)
    ensures forall t: nat :: Pending(h, t) && h.reconnectInterval != Some(t) ==> Pending(r, t)
    ensures |r.timers| == |h.timers| && |r.sockets| == |h.sockets|
    ensures forall k :: 0 <= k < |h.sockets| && h.wsRef != Some(k) ==> r.sockets[k] == h.sockets[k]
    ensures h.wsRef.Some? && h.wsRef.value < |h.sockets| && h.sockets[h.wsRef.value] in {Connecting, Open} ==>
      r.sockets[h.wsRef.value] == Closing
    ensures r.(sockets := h.sockets, timers := h.timers) == h
  {
    var timers :=
      if h.reconnectInterval.Some? && h.reconnectInterval.value < |h.timers| then
        h.timers[h.reconnectInterval.value := false]
      else h.timers;
    var sockets := if h.wsRef.Some? then CloseCalled(h.sockets, h.wsRef.value) else h.sockets;
    h.(timers := timers, sockets := sockets)
  }

  lemma EventsKeepValid(h: HookState, id: nat, data: string, parse: string -> Option<Value>, t: nat)
    requires Valid(h)
    ensures Valid(ConnectStep(h)) && Valid(OpenStep(h, id)) && Valid(MessageStep(h, id, data, parse))
    ensures Valid(CloseStep(h, id)) && Valid(TimerStep(h, t)) && Valid(UnmountStep(h))
  {
  }

  /** There is no retry limit: whatever happened before, the close of a
      socket not yet closed sets a timer whose firing opens a new socket. */
  lemma EveryCloseReconnects(h: HookState, id: nat)
    requires CanClose(h.sockets, id)
    ensures var closed := CloseStep(h, id);
      var t := |h.timers|;
      && Pending(closed, t)
      && TimerStep(closed, t).sockets == closed.sockets + [Connecting]
      && TimerStep(closed, t).wsRef == Some(|h.sockets|)
  {
  }

  /** Unmounting does not stop the hook: the close it starts runs the
      still-attached handler, which sets a timer that the cleanup can no
      longer clear, and that timer opens another socket. */
  lemma UnmountStillReconnects(h: HookState)
    requires Valid(h) && h.wsRef.Some? && h.sockets[h.wsRef.value] in {Connecting, Open}
    ensures var closing := UnmountStep(h);
      var closed := CloseStep(closing, h.wsRef.value);
      && Pending(closed, |h.timers|)
      && |TimerStep(closed, |h.timers|).sockets| == |h.sockets| + 1
  {
    var closing := UnmountStep(h);
    assert CanClose(closing.sockets, h.wsRef.value);
    EveryCloseReconnects(closing, h.wsRef.value);
  }

  /** Only the last timer set is cleared on unmount: with two closes before
      it, the earlier timer still fires and opens a socket. */
  lemma EarlierTimerSurvivesUnmount(h: HookState, first: nat, second: nat)
    requires first != second && CanClose(h.sockets, first) && CanClose(h.sockets, second)
    ensures var twice := CloseStep(CloseStep(h, first), second);
      var unmounted := UnmountStep(twice);
      && Pending(unmounted, |h.timers|)
      && !Pending(unmounted, |h.timers| + 1)
      && |TimerStep(unmounted, |h.timers|).sockets| == |h.sockets| + 1
  {
    var once := CloseStep(h, first);
    assert CanClose(once.sockets, second);
    var twice := CloseStep(once, second);
    assert Pending(twice, |h.timers|) by { assert twice.timers[|h.timers|] == once.timers[|h.timers|]; }
  }

  class Connection {
    var isConnected: bool
    var lastMessage: Option<Value>
    var wsRef: Option<nat>
    var sockets: seq<ReadyState>
    var timers: seq<bool>
    var reconnectInterval: Option<nat>

    function State(): HookState
      reads this
    {
      HookState(isConnected, lastMessage, wsRef, sockets, timers, reconnectInterval)
    }

    /** `useWebsocket(url)` on first render: its own cells and references,
        shared with no other caller. */
    constructor()
      ensures State() == INITIAL_HOOK
    {
      isConnected := false;
      lastMessage := Some(Null);
      wsRef := None;
      sockets := [];
      timers := [];
      reconnectInterval := None;
    }

    /** The mount effect, and a timer's callback: `connect()`. */
    method Connect()
      modifies this
      ensures State() == ConnectStep(old(State()))
    {
      wsRef := Some(|sockets|);
      sockets := sockets + [Connecting];
    }

    method OnOpen(id: nat)
      modifies this
      ensures State() == OpenStep(old(State()), id)
    {
      if CanOpen(sockets, id) {
        sockets := sockets[id := Open];
        isConnected := true;
      }
    }

    method OnMessage(id: nat, data: string, parse: string -> Option<Value>)
      modifies this
      ensures State() == MessageStep(old(State()), id, data, parse)
    {
      if CanReceive(sockets, id) {
        var parsed := parse(data);
        if parsed.Some? {
          lastMessage := parsed;
        }
      }
    }

    method OnClose(id: nat)
      modifies this
      ensures State() == CloseStep(old(State()), id)
    {
      if CanClose(sockets, id) {
        sockets := sockets[id := Closed];
        isConnected := false;
        reconnectInterval := Some(|timers|);
        timers := timers + [true];
      }
    }

    method OnTimer(t: nat)
      modifies this
      ensures State() == TimerStep(old(State()), t)
    {
      if t < |timers| && timers[t] {
        timers := timers[t := false];
        Connect();
      }
    }

    method Unmount()
      modifies this
      ensures State() == UnmountStep(old(State()))
    {
      if reconnectInterval.Some? && reconnectInterval.value < |timers| {
        timers := timers[reconnectInterval.value := false];
      }
      if wsRef.Some? {
        sockets := CloseCalled(sockets, wsRef.value);
      }
    }
  }
}
