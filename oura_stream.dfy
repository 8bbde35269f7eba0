/** The in-memory chain state fed by the Oura event stream (src/oura_stream.rs).

    `BlockChainState` keeps the newest blocks and transactions first, in two
    windows of at most 100 and 500 entries. `process_event` turns one Oura
    "apply" event, already parsed as JSON, into a transaction record and, the
    first time its block is seen, a block record. Spawning the `oura`
    process and reading its output are not part of this model, nor are the
    locks around the two windows. Integer widths follow a release build:
    `as u32` keeps the low 32 bits and a `u64` sum wraps. */
module OuraStream {
  import opened Wrappers
  import opened Strings
  import opened Json

  /** `Block`, with the fields in the order `Block::new` takes them. */
  datatype Block = Block(hash: string, number: nat, slot: nat, epoch: nat, timestamp: nat, txCount: nat, size: nat)

  /** `Transaction`, with the fields in the order `Transaction::new` takes them. */
  datatype Transaction = Transaction(
    hash: string,
    blockNumber: nat,
    timestamp: nat,
    fee: nat,
    inputCount: nat,
    outputCount: nat,
    totalOutput: nat)

  const MAX_BLOCKS: nat := 100
  const MAX_TRANSACTIONS: nat := 500

  // ---------------------------------------------------------------------------
  // The two windows
  // ---------------------------------------------------------------------------

  /** `insert(0, x)` followed by `truncate(cap)` when the vector has grown
      past `cap`: `x` first, then the earlier entries in their order, as many
      as fit. */
  function Prepend<T>(window: seq<T>, x: T, cap: nat): (r: seq<T>)
    requires cap >= 1
    ensures |r| == Min(|window| + 1, cap)
    ensures r[0] == x
    ensures forall i :: 1 <= i < |r| ==> r[i] == window[i - 1]
  {
    var grown := [x] + window;
    if |grown| > cap then grown[..cap] else grown
  }

  /** Each insertion moves an entry one place back: after `k` more
      insertions it sits `k` places further back, as long as that place is
      within the cap. */
  lemma {:induction false} PrependShifts<T>(window: seq<T>, xs: seq<T>, cap: nat, i: nat)
    requires cap >= 1
    requires i < |window|
    requires i + |xs| < cap
    ensures var w := PrependAll(window, xs, cap); i + |xs| < |w| && w[i + |xs|] == window[i]
    decreases |xs|
  {
    if |xs| > 0 {
      PrependShifts(Prepend(window, xs[0], cap), xs[1..], cap, i + 1);
    }
  }

  /** Several insertions in order. */
  function PrependAll<T>(window: seq<T>, xs: seq<T>, cap: nat): seq<T>
    requires cap >= 1
    decreases |xs|
  {
    if |xs| == 0 then window else PrependAll(Prepend(window, xs[0], cap), xs[1..], cap)
  }

  // ---------------------------------------------------------------------------
  // Decoding an event
  // ---------------------------------------------------------------------------

  /** `s.parse::<u64>().ok()` on an optional string. */
  function ParsedU64(s: Option<string>): Option<nat> {
    if s.Some? then ParseU64(s.value) else None
  }

  /** The coins the `filter_map` keeps, added up without a bound. */
  function CoinTotal(outputs: seq<Value>): nat
    decreases |outputs|
  {
    if |outputs| == 0 then 0
    else CoinTotal(outputs[..|outputs| - 1]) + ParsedU64(AsStr(Get(outputs[|outputs| - 1], "coin"))).GetOr(0)
  }

  /** The total is additive over the outputs; an output whose coin is
      missing or not a decimal string adds nothing. */
  lemma {:induction false} CoinTotalAppend(a: seq<Value>, b: seq<Value>)
    ensures CoinTotal(a + b) == CoinTotal(a) + CoinTotal(b)
    decreases |b|
  {
    if |b| > 0 {
      assert (a + b)[..|a + b| - 1] == a + b[..|b| - 1];
      assert (a + b)[|a + b| - 1] == b[|b| - 1];
      CoinTotalAppend(a, b[..|b| - 1]);
    } else {
      assert a + b == a;
    }
  }

  const U32_MOD: nat := 0x1_0000_0000
  const U64_MOD: nat := 0x1_0000_0000_0000_0000

  /** What `process_event` reads from an event it acts on. */
  datatype Decoded = Decoded(tx: Transaction, blockHash: string, slot: nat)

  /** The field extraction of `process_event`: nothing for an event other
      than "apply", without "point" or "record", or with a record that has no
      "hash" (a block-level record); otherwise the transaction, with zero
      for every missing or unreadable number. */
  function DecodeEvent(event: Value): (r: Option<Decoded>)
    ensures r.Some? <==>
      AsStr(Get(event, "event")) == Some("apply") && Get(event, "point").Some? && Get(event, "record").Some?
      && Get(Get(event, "record").value, "hash").Some?
    ensures r.Some? ==>
      var point := Get(event, "point").value;
      var record := Get(event, "record").value;
      && r.value.blockHash == AsStr(Get(point, "hash")).GetOr("")
      && r.value.slot == AsU64(Get(point, "slot")).GetOr(0)
      && r.value.tx.hash == AsStr(Get(record, "hash")).GetOr("")
      && r.value.tx.blockNumber == 0 && r.value.tx.timestamp == 0
      && r.value.tx.fee == ParsedU64(AsStr(Get(record, "fee"))).GetOr(0)
      && r.value.tx.inputCount == (if AsArray(Get(record, "inputs")).Some? then |AsArray(Get(record, "inputs")).value| % U32_MOD else 0)
      && r.value.tx.outputCount == (if AsArray(Get(record, "outputs")).Some? then |AsArray(Get(record, "outputs")).value| % U32_MOD else 0)
      && r.value.tx.totalOutput == (if AsArray(Get(record, "outputs")).Some? then CoinTotal(AsArray(Get(record, "outputs")).value) % U64_MOD else 0)
  {
    if AsStr(Get(event, "event")) != Some("apply") then None
    else
      match Get(event, "point")
      case None => None
      case Some(point) =>
        match Get(event, "record")
        case None => None
        case Some(record) =>
          var blockHash := AsStr(Get(point, "hash")).GetOr("");
          var slot := AsU64(Get(point, "slot")).GetOr(0);
          match Get(record, "hash")
          case None => None
          case Some(hashValue) =>
            var txHash := AsStr(Some(hashValue)).GetOr("");
            var fee := ParsedU64(AsStr(Get(record, "fee"))).GetOr(0);
            var inputs := match AsArray(Get(record, "inputs")) case Some(a) => |a| % U32_MOD case None => 0;
            var outputsArray := AsArray(Get(record, "outputs"));
            var outputs := match outputsArray case Some(a) => |a| % U32_MOD case None => 0;
            var total := match outputsArray case Some(a) => CoinTotal(a) % U64_MOD case None => 0;
            Some(Decoded(Transaction(txHash, 0, 0, fee, inputs, outputs, total), blockHash, slot))
  }

  // ---------------------------------------------------------------------------
  // The state and one event
  // ---------------------------------------------------------------------------

  datatype ChainState = ChainState(blocks: seq<Block>, transactions: seq<Transaction>)

  predicate WithinCaps(st: ChainState) {
    |st.blocks| <= MAX_BLOCKS && |st.transactions| <= MAX_TRANSACTIONS
  }

  /** Whether a stored block has this hash and slot (`iter().find`). */
  predicate HasBlock(blocks: seq<Block>, hash: string, slot: nat) {
    exists i :: 0 <= i < |blocks| && blocks[i].hash == hash && blocks[i].slot == slot
  }

  /** The block entry a transaction event creates: number 0 and one transaction. */
  function PlaceholderBlock(hash: string, slot: nat): Block {
    Block(hash, 0, slot, 0, 0, 1, 0)
  }

  /** `process_event` on the state as a value, without its log lines. */
  function Apply(st: ChainState, event: Value): (r: ChainState)
    ensures DecodeEvent(event).None? ==> r == st
    ensures DecodeEvent(event).Some? ==>
      var d := DecodeEvent(event).value;
      && r.transactions == Prepend(st.transactions, d.tx, MAX_TRANSACTIONS)
      && (HasBlock(st.blocks, d.blockHash, d.slot) ==> r.blocks == st.blocks)
      && (!HasBlock(st.blocks, d.blockHash, d.slot) ==>
            r.blocks == Prepend(st.blocks, PlaceholderBlock(d.blockHash, d.slot), MAX_BLOCKS))
  {
    match DecodeEvent(event)
    case None => st
    case Some(d) =>
      var transactions := Prepend(st.transactions, d.tx, MAX_TRANSACTIONS);
      if HasBlock(st.blocks, d.blockHash, d.slot) then ChainState(st.blocks, transactions)
      else ChainState(Prepend(st.blocks, PlaceholderBlock(d.blockHash, d.slot), MAX_BLOCKS), transactions)
  }

  /** Both windows stay within their caps. */
  lemma ApplyKeepsCaps(st: ChainState, event: Value)
    requires WithinCaps(st)
    ensures WithinCaps(Apply(st, event))
  {
  }

  /** After a transaction event the state holds a block with the event's
      hash and slot. */
  lemma BlockPresentAfterEvent(st: ChainState, event: Value)
    requires DecodeEvent(event).Some?
    ensures var d := DecodeEvent(event).value;
      HasBlock(Apply(st, event).blocks, d.blockHash, d.slot)
  {
    var d := DecodeEvent(event).value;
    var r := Apply(st, event);
    if !HasBlock(st.blocks, d.blockHash, d.slot) {
      assert r.blocks[0] == PlaceholderBlock(d.blockHash, d.slot);
    }
  }

  /** No (hash, slot) pair ever gets a second block entry: an event whose
      block is already stored leaves the blocks as they are, and a new entry
      is only made for a pair not yet stored. */
  predicate UniqueBlocks(blocks: seq<Block>) {
    forall i, j :: 0 <= i < j < |blocks| ==> blocks[i].hash != blocks[j].hash || blocks[i].slot != blocks[j].slot
  }

  lemma ApplyKeepsUniqueBlocks(st: ChainState, event: Value)
    requires UniqueBlocks(st.blocks)
    ensures UniqueBlocks(Apply(st, event).blocks)
  {
    var r := Apply(st, event);
    if DecodeEvent(event).Some? {
      var d := DecodeEvent(event).value;
      if !HasBlock(st.blocks, d.blockHash, d.slot) {
        forall i, j | 0 <= i < j < |r.blocks|
          ensures r.blocks[i].hash != r.blocks[j].hash || r.blocks[i].slot != r.blocks[j].slot
        {
          assert r.blocks[j] == st.blocks[j - 1];
          if i > 0 {
            assert r.blocks[i] == st.blocks[i - 1];
          }
        }
      }
    }
  }

  /** Stored blocks are never updated in place: every block after an event
      is one that was stored before, or the new placeholder. */
  lemma ApplyNeverUpdatesBlocks(st: ChainState, event: Value, i: nat)
    requires i < |Apply(st, event).blocks|
    ensures var b := Apply(st, event).blocks[i];
      b in st.blocks || (DecodeEvent(event).Some? && i == 0
        && b == PlaceholderBlock(DecodeEvent(event).value.blockHash, DecodeEvent(event).value.slot))
  {
    var r := Apply(st, event);
    if DecodeEvent(event).Some? && i > 0 && !HasBlock(st.blocks, DecodeEvent(event).value.blockHash, DecodeEvent(event).value.slot) {
      assert r.blocks[i] == st.blocks[i - 1];
    }
  }

  // ---------------------------------------------------------------------------
  // The log lines as written
  // ---------------------------------------------------------------------------

  /** Whether `n` bytes into the UTF-8 form of `s` fall on a character
      boundary, so that `&s[..n]` does not panic. */
  predicate IsCharBoundary(s: string, n: nat) {
    exists k :: 0 <= k <= |s| && |Utf8(s[..k])| == n
  }

  /** How a call of `process_event` ends: normally, or in a panic that
      leaves the state as it was at that point. */
  datatype Run = Finished(state: ChainState) | Panicked(state: ChainState)

  /** `process_event` with its two log lines: the transaction line slices
      `16.min(len)` bytes of the transaction hash, and the block line slices
      16 bytes of the block hash, which panics on a hash shorter than 16
      bytes after the transaction has been stored and before the block is. */
  function ApplyAsWritten(st: ChainState, event: Value): (r: Run)
    ensures DecodeEvent(event).None? ==> r == Finished(st)
    ensures r.Panicked? && r.state != st ==>
      var d := DecodeEvent(event).value;
      !IsCharBoundary(d.blockHash, 16) && r.state == st.(transactions := Apply(st, event).transactions)
  {
    match DecodeEvent(event)
    case None => Finished(st)
    case Some(d) =>
      if !IsCharBoundary(d.tx.hash, Min(16, |Utf8(d.tx.hash)|)) then Panicked(st)
      else
        var withTx := st.(transactions := Prepend(st.transactions, d.tx, MAX_TRANSACTIONS));
        if HasBlock(st.blocks, d.blockHash, d.slot) then Finished(withTx)
        else if !IsCharBoundary(d.blockHash, 16) then Panicked(withTx)
        else Finished(withTx.(blocks := Prepend(st.blocks, PlaceholderBlock(d.blockHash, d.slot), MAX_BLOCKS)))
  }

  /** An ASCII prefix of `k` characters is `k` bytes long. */
  lemma AsciiPrefixBoundary(s: string, k: nat)
    requires k <= |s|
    requires forall i :: 0 <= i < |s| ==> s[i] as int < 0x80
    ensures IsCharBoundary(s, k)
  {
    Utf8Ascii(s[..k]);
  }

  /** An "apply" event whose point carries no hash: the transaction is
      stored, then the block's log line panics, so no block entry is made;
      the intended behaviour stores the block entry with an empty hash. */
  lemma MissingBlockHashPanics()
    ensures var event := Obj(map["event" := Str("apply"), "point" := Obj(map["slot" := Num(7)]),
                                 "record" := Obj(map["hash" := Str("ab")])]);
      && ApplyAsWritten(ChainState([], []), event) == Panicked(ChainState([], [Transaction("ab", 0, 0, 0, 0, 0, 0)]))
      && Apply(ChainState([], []), event) == ChainState([PlaceholderBlock("", 7)], [Transaction("ab", 0, 0, 0, 0, 0, 0)])
  {
    var event := Obj(map["event" := Str("apply"), "point" := Obj(map["slot" := Num(7)]),
                         "record" := Obj(map["hash" := Str("ab")])]);
    assert DecodeEvent(event) == Some(Decoded(Transaction("ab", 0, 0, 0, 0, 0, 0), "", 7));
    AsciiPrefixBoundary("ab", 2);
    assert |Utf8("ab")| == 2 by { Utf8Ascii("ab"); }
    assert !IsCharBoundary("", 16) by {
      forall k | 0 <= k <= 0 ensures |Utf8(""[..k])| != 16 {
        assert ""[..k] == "";
      }
    }
  }

  /** For ASCII hashes with a block hash of at least 16 characters, the log
      lines do not panic and the source does what `Apply` says. */
  lemma AsWrittenAgreesOnLongAsciiHashes(st: ChainState, event: Value)
    requires DecodeEvent(event).Some?
    requires var d := DecodeEvent(event).value;
      |d.blockHash| >= 16
      && (forall i :: 0 <= i < |d.blockHash| ==> d.blockHash[i] as int < 0x80)
      && (forall i :: 0 <= i < |d.tx.hash| ==> d.tx.hash[i] as int < 0x80)
    ensures ApplyAsWritten(st, event) == Finished(Apply(st, event))
  {
    var d := DecodeEvent(event).value;
    Utf8Ascii(d.tx.hash);
    AsciiPrefixBoundary(d.tx.hash, Min(16, |d.tx.hash|));
    AsciiPrefixBoundary(d.blockHash, 16);
  }

  // ---------------------------------------------------------------------------
  // The shared state object
  // ---------------------------------------------------------------------------

  /** `BlockChainState`: the two windows, newest first, updated in place. */
  class BlockChainState {
    var blocks: seq<Block>
    var transactions: seq<Transaction>

    function Snapshot(): ChainState
      reads this
    {
      ChainState(blocks, transactions)
    }

    predicate Valid()
      reads this
    {
      WithinCaps(Snapshot())
    }

    /** `BlockChainState::new`: both windows empty. */
    constructor()
      ensures blocks == [] && transactions == []
      ensures Valid()
    {
      blocks := [];
      transactions := [];
    }

    /** `add_block`: the block goes first; past 100 the oldest is dropped. */
    method AddBlock(block: Block)
      requires Valid()
      modifies this
      ensures Valid()
      ensures blocks == Prepend(old(blocks), block, MAX_BLOCKS)
      ensures transactions == old(transactions)
    {
      blocks := [block] + blocks;
      if |blocks| > MAX_BLOCKS {
        blocks := blocks[..MAX_BLOCKS];
      }
    }

    /** `add_transactions`: the same with a cap of 500. */
    method AddTransactions(tx: Transaction)
      requires Valid()
      modifies this
      ensures Valid()
      ensures transactions == Prepend(old(transactions), tx, MAX_TRANSACTIONS)
      ensures blocks == old(blocks)
    {
      transactions := [tx] + transactions;
      if |transactions| > MAX_TRANSACTIONS {
        transactions := transactions[..MAX_TRANSACTIONS];
      }
    }

    /** `get_blocks(limit)`: the newest `limit` blocks, newest first. */
    method GetBlocks(limit: nat) returns (r: seq<Block>)
      ensures r == Take(blocks, limit)
    {
      r := blocks[..Min(limit, |blocks|)];
    }

    /** `get_transactions(limit)`: the newest `limit` transactions. */
    method GetTransactions(limit: nat) returns (r: seq<Transaction>)
      ensures r == Take(transactions, limit)
    {
      r := transactions[..Min(limit, |transactions|)];
    }

    /** `process_event`: decode, store the transaction, then add a block
        entry unless one with the same hash and slot is stored. */
    method ProcessEvent(event: Value)
      requires Valid()
      modifies this
      ensures Valid()
      ensures Snapshot() == Apply(old(Snapshot()), event)
    {
      var decoded := DecodeEvent(event);
      if decoded.None? {
        return;
      }
      var d := decoded.value;
      AddTransactions(d.tx);
      if !HasBlock(blocks, d.blockHash, d.slot) {
        AddBlock(PlaceholderBlock(d.blockHash, d.slot));
      }
    }
  }
}
