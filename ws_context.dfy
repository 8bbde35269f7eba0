/** The shared WebSocket provider (frontend/cardano_frontend/context/WebSocketContext.tsx):
    one socket per mounted provider, the connection flag, the last message
    and the session counters, a reconnect three seconds after a close, and
    `send`.

    Each event is specified by a step function on the provider's whole
    state, which the provider's methods are proved to follow. `JSON.parse`
    and `JSON.stringify` are parameters, and the three-second timers are
    events of their own, fired in the order the browser chooses. */
module WebsocketContext {
  import opened Wrappers
  import opened Json
  import opened LiveFeed
  import opened SessionStats
  import opened Sockets

  /** The delay before a reconnect, in milliseconds. */
  const RECONNECT_DELAY_MS: nat := 3000

  /** Everything the provider holds. `handled` are the sockets given
      handlers, `cleanup` the socket the mounted effect will close,
      `timers` the reconnect timers not yet fired, and `sent` the frames
      written, with the socket each went to. */
  datatype ProviderState = ProviderState(
    isConnected: bool,
    lastMessage: Option<Value>,
    counters: Counters,
    wsRef: Option<nat>,
    sockets: seq<ReadyState>,
    handled: set<nat>,
    cleanup: Option<nat>,
    timers: nat,
    sent: seq<(nat, string)>)

  const INITIAL_PROVIDER: ProviderState := ProviderState(false, Some(Null), INITIAL, None, [], {}, None, 0, [])

  /** The references the provider holds name sockets that exist, and the
      socket its cleanup closes is one it gave handlers to. */
  ghost predicate Valid(p: ProviderState) {
    && (p.wsRef.Some? ==> p.wsRef.value < |p.sockets|)
    && (forall id :: id in p.handled ==> id < |p.sockets|)
    && (p.cleanup.Some? ==> p.cleanup.value in p.handled)
  }

  /** `a ?? b`. */
  function Coalesce(a: Option<Value>, b: Option<Value>): (r: Option<Value>)
    ensures a.Some? && a.value != Null ==> r == a
    ensures !(a.Some? && a.value != Null) ==> r == b
  {
    if a.Some? && a.value != Null then a else b
  }

  /** The block number the provider reads from a first block: `number`,
      else `block_no`, else `block_number`. */
  function FirstBlockNumber(first: Value): Number {
    ToNumber(Coalesce(Coalesce(Get(first, "number"), Get(first, "block_no")), Get(first, "block_number")))
  }

  /** The counters after a frame whose parse gave `parsed` (nothing when
      the parse failed): only a non-empty `blocks` array counts blocks and
      moves the latest block, and only a non-empty `transactions` array
      counts transactions. */
  function ContextCounters(c: Counters, parsed: Option<Value>): (r: Counters)
    ensures !IsUpdate(parsed) ==> r == c
    ensures r.blockCount == c.blockCount + BlocksIn(parsed)
    ensures r.txCount == c.txCount + TransactionsIn(parsed)
    ensures BlocksIn(parsed) == 0 ==> r.latestBlock == c.latestBlock
    ensures BlocksIn(parsed) > 0 ==>
      var n := FirstBlockNumber(ArrayMember(parsed, "blocks").value[0]);
      r.latestBlock == (if n.Finite? then Some(n.n) else c.latestBlock)
  {
    if !IsUpdate(parsed) then c
    else
      var blocks := ArrayMember(parsed, "blocks");
      var afterBlocks :=
        if blocks.Some? && |blocks.value| > 0 then
          var n := FirstBlockNumber(blocks.value[0]);
          c.(latestBlock := if n.Finite? then Some(n.n) else c.latestBlock,
             blockCount := c.blockCount + |blocks.value|)
        else c;
      var txs := ArrayMember(parsed, "transactions");
      if txs.Some? && |txs.value| > 0 then afterBlocks.(txCount := afterBlocks.txCount + |txs.value|) else afterBlocks
  }

  /** The provider counts as the statistics panel does, and reads the same
      latest block whenever the first block has a `number`. */
  lemma CountersAgreeWithPanel(c: Counters, v: Value)
    ensures ContextCounters(c, Some(v)).blockCount == StatsStep(c, Some(v)).blockCount
    ensures ContextCounters(c, Some(v)).txCount == StatsStep(c, Some(v)).txCount
    ensures (BlocksIn(Some(v)) > 0 ==>
               var number := Get(ArrayMember(Some(v), "blocks").value[0], "number");
               number.Some? && number.value != Null ==>
                 ContextCounters(c, Some(v)).latestBlock == StatsStep(c, Some(v)).latestBlock)
  {
  }

  /** The provider's effect on mount: nothing when a socket is already
      referenced, else a new socket with handlers. */
  function MountStep(p: ProviderState): (r: ProviderState)
    ensures r.wsRef.Some?
    ensures p.wsRef.Some? ==> r.wsRef == p.wsRef && r.sockets == p.sockets && r.handled == p.handled && r.cleanup.None?
    ensures p.wsRef.None? ==>
      && r.wsRef == Some(|p.sockets|) && r.sockets == p.sockets + [Connecting]
      && r.handled == p.handled + {|p.sockets|} && r.cleanup == r.wsRef
    ensures r.(wsRef := p.wsRef, sockets := p.sockets, handled := p.handled, cleanup := p.cleanup) == p
  {
    if p.wsRef.Some? then p.(cleanup := None)
    else
      var id := |p.sockets|;
      p.(wsRef := Some(id), sockets := p.sockets + [Connecting], handled := p.handled + {id}, cleanup := Some(id))
  }

  /** An open event: a socket with handlers raises the flag. */
  function OpenStep(p: ProviderState, id: nat): (r: ProviderState)
    ensures r.isConnected <==> p.isConnected || (CanOpen(p.sockets, id) && id in p.handled)
    ensures CanOpen(p.sockets, id) ==> CanReceive(r.sockets, id)
    ensures r.(sockets := p.sockets, isConnected := p.isConnected) == p
  {
    if !CanOpen(p.sockets, id) then p
    else
      var ready := p.(sockets := p.sockets[id := Open]);
      if id in p.handled then ready.(isConnected := true) else ready
  }

  /** A frame arriving on a socket with handlers: the parsed message, or
      the raw text when it does not parse, becomes the last message, and
      the counters follow the parsed message. */
  function MessageStep(p: ProviderState, id: nat, data: string, parse: string -> Option<Value>): (r: ProviderState)
    ensures !(CanReceive(p.sockets, id) && id in p.handled) ==> r == p
    ensures CanReceive(p.sockets, id) && id in p.handled && parse(data).None? ==>
      r == p.(lastMessage := Some(Str(data)))
    ensures CanReceive(p.sockets, id) && id in p.handled && parse(data).Some? ==>
      && r.lastMessage == parse(data) && r.counters == ContextCounters(p.counters, parse(data))
      && r.counters.blockCount == p.counters.blockCount + BlocksIn(parse(data))
      && r.counters.txCount == p.counters.txCount + TransactionsIn(parse(data))
    ensures r.(lastMessage := p.lastMessage, counters := p.counters) == p
  {
    if !(CanReceive(p.sockets, id) && id in p.handled) then p
    else
      var parsed := parse(data);
      p.(lastMessage := if parsed.Some? then parsed else Some(Str(data)),
         counters := ContextCounters(p.counters, parsed))
  }

  /** A close event: a socket with handlers lowers the flag, forgets the
      reference (whichever socket it names) and starts a reconnect timer. */
  function CloseStep(p: ProviderState, id: nat): (r: ProviderState)
    ensures !CanClose(p.sockets, id) ==> r == p
    ensures CanClose(p.sockets, id) ==> !CanClose(r.sockets, id) && r.sockets == p.sockets[id := Closed]
    ensures r.timers == p.timers + 1 <==> CanClose(p.sockets, id) && id in p.handled
    ensures r.timers == p.timers + 1 ==> !r.isConnected && r.wsRef.None?
    ensures r.timers == p.timers + 1 ==>
      r.(sockets := p.sockets, isConnected := p.isConnected, wsRef := p.wsRef, timers := p.timers) == p
    ensures r.timers == p.timers ==> r.(sockets := p.sockets) == p
  {
    if !CanClose(p.sockets, id) then p
    else
      var closed := p.(sockets := p.sockets[id := Closed]);
      if id in p.handled then closed.(isConnected := false, wsRef := None, timers := p.timers + 1) else closed
  }

  /** A reconnect timer firing: a new socket, without handlers, when no
      socket is referenced. */
  function TimerStep(p: ProviderState): (r: ProviderState)
    ensures p.timers == 0 ==> r == p
    ensures |r.sockets| == |p.sockets| + (if p.timers > 0 && p.wsRef.None? then 1 else 0)
    ensures r.sockets[..|p.sockets|] == p.sockets
    ensures |r.sockets| > |p.sockets| ==> r.wsRef == Some(|p.sockets|) && r.sockets[|p.sockets|] == Connecting
    ensures p.timers > 0 ==> r.timers == p.timers - 1
    ensures p.wsRef.Some? ==> r.wsRef == p.wsRef
    ensures r.(timers := p.timers, wsRef := p.wsRef, sockets := p.sockets) == p
  {
    if p.timers == 0 then p
    else if p.wsRef.Some? then p.(timers := p.timers - 1)
    else p.(timers := p.timers - 1, wsRef := Some(|p.sockets|), sockets := p.sockets + [Connecting])
  }

  /** The effect's cleanup on unmount: close the socket the effect made and
      forget the reference. */
  function UnmountStep(p: ProviderState): (r: ProviderState)
    ensures p.cleanup.None? ==> r == p
    ensures p.cleanup.Some? ==> r.wsRef.None? && r.cleanup.None?
    ensures |r.sockets| == |p.sockets|
    ensures forall k :: 0 <= k < |p.sockets| && p.cleanup != Some(k) ==> r.sockets[k] == p.sockets[k]
    ensures p.cleanup.Some? ==> r.sockets == CloseCalled(p.sockets, p.cleanup.value)
    ensures p.cleanup.Some? && p.cleanup.value < |p.sockets| && p.sockets[p.cleanup.value] in {Connecting, Open} ==>
      r.sockets[p.cleanup.value] == Closing
    ensures r.(sockets := p.sockets, wsRef := p.wsRef, cleanup := p.cleanup) == p
  {
    match p.cleanup
    case None => p
    case Some(ws) => p.(sockets := CloseCalled(p.sockets, ws), wsRef := None, cleanup := None)
  }

  /** `send(data)`: written to the referenced socket only when it is open,
      a string as it is and anything else as JSON; otherwise dropped. */
  function SendStep(p: ProviderState, data: Value, stringify: Value -> string): (r: ProviderState)
    ensures |r.sent| == |p.sent| + 1 <==> p.wsRef.Some? && CanReceive(p.sockets, p.wsRef.value)
    ensures |r.sent| == |p.sent| ==> r == p
    ensures |r.sent| == |p.sent| + 1 ==>
      && r.sent[..|p.sent|] == p.sent
      && r.sent[|p.sent|].0 == p.wsRef.value
      && (data.Str? ==> r.sent[|p.sent|].1 == data.s)
      && (!data.Str? ==> r.sent[|p.sent|].1 == stringify(data))
    ensures r.(sent := p.sent) == p
  {
    if p.wsRef.Some? && CanReceive(p.sockets, p.wsRef.value) then
      p.(sent := p.sent + [(p.wsRef.value, if data.Str? then data.s else stringify(data))])
    else p
  }

  /** Every event keeps the references valid. */
  lemma EventsKeepValid(p: ProviderState, id: nat, data: string, parse: string -> Option<Value>, v: Value,
                        stringify: Value -> string)
    requires Valid(p)
    ensures Valid(MountStep(p)) && Valid(OpenStep(p, id)) && Valid(MessageStep(p, id, data, parse))
    ensures Valid(CloseStep(p, id)) && Valid(TimerStep(p)) && Valid(UnmountStep(p))
    ensures Valid(SendStep(p, v, stringify))
  {
  }

  /** Running the mount effect again while its socket is referenced opens
      no second socket. */
  lemma OneSocketPerMount(p: ProviderState)
    ensures |MountStep(p).sockets| <= |p.sockets| + 1
    ensures MountStep(MountStep(p)).sockets == MountStep(p).sockets
    ensures MountStep(MountStep(p)).wsRef == MountStep(p).wsRef
  {
  }

  /** Events of a socket without handlers change nothing the page sees. */
  lemma UnhandledSocketUnseen(p: ProviderState, id: nat, data: string, parse: string -> Option<Value>)
    requires id !in p.handled
    ensures var q := CloseStep(MessageStep(OpenStep(p, id), id, data, parse), id);
      && q.isConnected == p.isConnected && q.lastMessage == p.lastMessage && q.counters == p.counters
      && q.wsRef == p.wsRef && q.timers == p.timers
  {
  }

  /** The socket a reconnect timer creates has no handlers: once the first
      socket has closed, opening, receiving on and closing the new one
      leaves the provider disconnected, with its last message and counters
      as they were and no further reconnect. */
  lemma ReconnectIsUnseen(p: ProviderState, first: nat, data: string, parse: string -> Option<Value>)
    requires Valid(p) && first in p.handled && CanClose(p.sockets, first)
    ensures var closed := CloseStep(p, first);
      var reconnected := TimerStep(closed);
      var next := |p.sockets|;
      && reconnected.wsRef == Some(next)
      && next !in reconnected.handled
      && var after := CloseStep(MessageStep(OpenStep(reconnected, next), next, data, parse), next);
      && !after.isConnected && after.lastMessage == p.lastMessage && after.counters == p.counters
      && after.timers == p.timers
  {
    var reconnected := TimerStep(CloseStep(p, first));
    UnhandledSocketUnseen(reconnected, |p.sockets|, data, parse);
  }

  class WebsocketProvider {
    var isConnected: bool
    var lastMessage: Option<Value>
    var counters: Counters
    var wsRef: Option<nat>
    var sockets: seq<ReadyState>
    var handled: set<nat>
    var cleanup: Option<nat>
    var timers: nat
    var sent: seq<(nat, string)>

    function State(): ProviderState
      reads this
    {
      ProviderState(isConnected, lastMessage, counters, wsRef, sockets, handled, cleanup, timers, sent)
    }

    /** The cells and references before the provider's effect first runs. */
    constructor()
      ensures State() == INITIAL_PROVIDER
    {
      isConnected := false;
      lastMessage := Some(Null);
      counters := INITIAL;
      wsRef := None;
      sockets := [];
      handled := {};
      cleanup := None;
      timers := 0;
      sent := [];
    }

    method Mount()
      modifies this
      ensures State() == MountStep(old(State()))
    {
      if wsRef.Some? {
        cleanup := None;
        return;
      }
      var ws := |sockets|;
      sockets := sockets + [Connecting];
      wsRef := Some(ws);
      handled := handled + {ws};
      cleanup := Some(ws);
    }

    method OnOpen(id: nat)
      modifies this
      ensures State() == OpenStep(old(State()), id)
    {
      if CanOpen(sockets, id) {
        sockets := sockets[id := Open];
        if id in handled {
          isConnected := true;
        }
      }
    }

    method OnMessage(id: nat, data: string, parse: string -> Option<Value>)
      modifies this
      ensures State() == MessageStep(old(State()), id, data, parse)
    {
      if CanReceive(sockets, id) && id in handled {
        var parsed := parse(data);
        if parsed.Some? {
          lastMessage := parsed;
        } else {
          lastMessage := Some(Str(data));
        }
        counters := ContextCounters(counters, parsed);
      }
    }

    method OnClose(id: nat)
      modifies this
      ensures State() == CloseStep(old(State()), id)
    {
      if CanClose(sockets, id) {
        sockets := sockets[id := Closed];
        if id in handled {
          isConnected := false;
          wsRef := None;
          timers := timers + 1;
        }
      }
    }

    method OnTimer()
      modifies this
      ensures State() == TimerStep(old(State()))
    {
      if timers > 0 {
        timers := timers - 1;
        if wsRef.None? {
          var reconnect := |sockets|;
          sockets := sockets + [Connecting];
          wsRef := Some(reconnect);
        }
      }
    }

    method Unmount()
      modifies this
      ensures State() == UnmountStep(old(State()))
    {
      if cleanup.Some? {
        sockets := CloseCalled(sockets, cleanup.value);
        wsRef := None;
        cleanup := None;
      }
    }

    method Send(data: Value, stringify: Value -> string)
      modifies this
      ensures State() == SendStep(old(State()), data, stringify)
    {
      var ws := wsRef;
      if ws.Some? && CanReceive(sockets, ws.value) {
        sent := sent + [(ws.value, if data.Str? then data.s else stringify(data))];
      }
    }
  }
}
