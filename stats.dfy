/** The session statistics panel (frontend/cardano_frontend/components/Stats.tsx):
    the latest block number and the numbers of blocks and transactions seen
    since the page opened, updated on every message the panel's own socket
    delivers. Counters are kept exactly; JavaScript numbers lose precision
    above 2^53, which is not modelled. */
module SessionStats {
  import opened Wrappers
  import opened Strings
  import opened Json
  import opened LiveFeed

  /** A JavaScript number as `Number.isFinite` sees it: a finite integral
      value, or one it rejects (`NaN`). */
  datatype Number = Finite(n: int) | NotFinite

  /** `Number(s)` of a string: white space around it is ignored, the empty
      string is 0, and otherwise an optional sign and decimal digits are
      read. */
  function StringToNumber(s: string): (r: Number)
    ensures JsTrim(s) == "" ==> r == Finite(0)
    ensures r.Finite? && JsTrim(s) != "" ==>
      var t := JsTrim(s);
      && (IsDigit(t[0]) || t[0] == '-' || t[0] == '+')
      && forall k :: 1 <= k < |t| ==> IsDigit(t[k])
  {
    var t := JsTrim(s);
    if t == "" then Finite(0)
    else
      var digits := if t[0] == '-' || t[0] == '+' then t[1..] else t;
      match ParseDigits(digits)
      case Some(d) => Finite(if t[0] == '-' then 0 - d else d)
      case None => NotFinite
  }

  /** `Number(v)`: `undefined` is `NaN`, `null` is 0, booleans are 0 and 1,
      and arrays and objects go through their string form. */
  function ToNumber(v: Option<Value>): (r: Number)
    ensures v == None ==> r == NotFinite
    ensures v == Some(Null) ==> r == Finite(0)
    ensures v.Some? && v.value.Num? ==> r == Finite(v.value.n)
    ensures v.Some? && v.value.Str? ==> r == StringToNumber(v.value.s)
  {
    match v
    case None => NotFinite
    case Some(Null) => Finite(0)
    case Some(Bool(b)) => Finite(if b then 1 else 0)
    case Some(Num(n)) => Finite(n)
    case Some(x) => StringToNumber(ValueToJsString(x))
  }

  /** A block number sent as decimal text reads as that number. */
  lemma DecimalTextIsItsNumber(i: int)
    ensures ToNumber(Some(Str(IntToString(i)))) == Finite(i)
  {
    var s := IntToString(i);
    JsTrimNoop(s);
    if i < 0 {
      assert s[1..] == NatToString(-i);
      DigitsParse(-i);
      NegativeTextNumber(s, -i);
    } else {
      DigitsParse(i);
      UnsignedTextNumber(s, i);
    }
  }

  lemma UnsignedTextNumber(t: string, n: nat)
    requires JsTrim(t) == t && ParseDigits(t) == Some(n)
    ensures StringToNumber(t) == Finite(n)
  {
    assert IsDigit(t[0]);
  }

  lemma NegativeTextNumber(t: string, n: nat)
    requires JsTrim(t) == t && |t| > 0 && t[0] == '-' && ParseDigits(t[1..]) == Some(n)
    ensures StringToNumber(t) == Finite(0 - n)
  {
  }

  lemma DigitsParse(n: nat)
    ensures ParseDigits(NatToString(n)) == Some(n)
  {
    DigitsOfNat(n);
  }

  /** Text that is not a number gives `NaN`. */
  lemma WordIsNotFinite()
    ensures ToNumber(Some(Str("pending"))) == NotFinite
  {
    var s := "pending";
    JsTrimNoop(s);
    assert !IsDigit(s[0]);
  }

  /** The three state cells of the panel. */
  datatype Counters = Counters(latestBlock: Option<int>, blockCount: nat, txCount: nat)

  const INITIAL: Counters := Counters(None, 0, 0)

  /** The blocks a message adds to the count. */
  function BlocksIn(lastMessage: Option<Value>): nat {
    if IsUpdate(lastMessage) && ArrayMember(lastMessage, "blocks").Some? then |ArrayMember(lastMessage, "blocks").value|
    else 0
  }

  /** The transactions a message adds to the count. */
  function TransactionsIn(lastMessage: Option<Value>): nat {
    if IsUpdate(lastMessage) && ArrayMember(lastMessage, "transactions").Some? then
      |ArrayMember(lastMessage, "transactions").value|
    else 0
  }

  /** The latest block number a message carries: its first block's
      `number`, when that is finite. */
  function CarriedNumber(lastMessage: Option<Value>): Option<int> {
    if BlocksIn(lastMessage) > 0 then
      var n := ToNumber(Get(ArrayMember(lastMessage, "blocks").value[0], "number"));
      if n.Finite? then Some(n.n) else None
    else None
  }

  /** The panel's `lastMessage` effect. */
  function StatsStep(c: Counters, lastMessage: Option<Value>): (r: Counters)
    ensures !IsUpdate(lastMessage) ==> r == c
    ensures r.blockCount == c.blockCount + BlocksIn(lastMessage)
    ensures r.txCount == c.txCount + TransactionsIn(lastMessage)
    ensures r.latestBlock == (if CarriedNumber(lastMessage).Some? then CarriedNumber(lastMessage) else c.latestBlock)
  {
    if !IsUpdate(lastMessage) then c
    else
      var blocks := ArrayMember(lastMessage, "blocks");
      var afterBlocks :=
        if blocks.Some? && |blocks.value| > 0 then
          var n := ToNumber(Get(blocks.value[0], "number"));
          c.(latestBlock := if n.Finite? then Some(n.n) else c.latestBlock,
             blockCount := c.blockCount + |blocks.value|)
        else c;
      var txs := ArrayMember(lastMessage, "transactions");
      if txs.Some? then afterBlocks.(txCount := afterBlocks.txCount + |txs.value|) else afterBlocks
  }

  /** The panel after a sequence of messages, oldest first. */
  function Run(c: Counters, messages: seq<Option<Value>>): Counters {
    if |messages| == 0 then c else StatsStep(Run(c, messages[..|messages| - 1]), messages[|messages| - 1])
  }

  function SumBlocks(messages: seq<Option<Value>>): nat {
    if |messages| == 0 then 0 else SumBlocks(messages[..|messages| - 1]) + BlocksIn(messages[|messages| - 1])
  }

  function SumTransactions(messages: seq<Option<Value>>): nat {
    if |messages| == 0 then 0 else SumTransactions(messages[..|messages| - 1]) + TransactionsIn(messages[|messages| - 1])
  }

  /** The number carried by the most recent message that carried one. */
  function LastCarried(messages: seq<Option<Value>>, before: Option<int>): Option<int> {
    if |messages| == 0 then before
    else if CarriedNumber(messages[|messages| - 1]).Some? then CarriedNumber(messages[|messages| - 1])
    else LastCarried(messages[..|messages| - 1], before)
  }

  /** The counters count every block and transaction of every message,
      repeats included. */
  lemma {:induction false} RunCounts(c: Counters, messages: seq<Option<Value>>)
    ensures Run(c, messages).blockCount == c.blockCount + SumBlocks(messages)
    ensures Run(c, messages).txCount == c.txCount + SumTransactions(messages)
  {
    if |messages| > 0 {
      RunCounts(c, messages[..|messages| - 1]);
    }
  }

  /** The latest block is the one from the most recent message that carried
      a finite number. */
  lemma {:induction false} RunLatest(c: Counters, messages: seq<Option<Value>>)
    ensures Run(c, messages).latestBlock == LastCarried(messages, c.latestBlock)
  {
    if |messages| > 0 {
      RunLatest(c, messages[..|messages| - 1]);
    }
  }

  /** The counters never go down. */
  lemma {:induction false} CountersNeverDecrease(c: Counters, messages: seq<Option<Value>>, i: nat)
    requires i <= |messages|
    ensures Run(c, messages[..i]).blockCount <= Run(c, messages).blockCount
    ensures Run(c, messages[..i]).txCount <= Run(c, messages).txCount
    decreases |messages|
  {
    if i < |messages| {
      var init := messages[..|messages| - 1];
      assert init[..i] == messages[..i];
      CountersNeverDecrease(c, init, i);
    } else {
      assert messages[..i] == messages;
    }
  }

  /** An update carrying one block numbered `n`. */
  function OneBlockUpdate(n: int): Value {
    Obj(map["type" := Str("update"), "blocks" := Arr([Obj(map["number" := Num(n)])])])
  }

  /** The latest block is not a running maximum: block 10 followed by
      block 5 shows 5. */
  lemma LatestIsNotTheMaximum()
    ensures Run(INITIAL, [Some(OneBlockUpdate(10)), Some(OneBlockUpdate(5))]).latestBlock == Some(5)
  {
    var messages := [Some(OneBlockUpdate(10)), Some(OneBlockUpdate(5))];
    assert messages[..1] == [Some(OneBlockUpdate(10))];
    assert messages[..1][..0] == [];
    assert IsUpdate(Some(OneBlockUpdate(5)));
    assert Get(Obj(map["number" := Num(5)]), "number") == Some(Num(5));
  }

  class StatsPanel {
    var latestBlock: Option<int>
    var blockCount: nat
    var txCount: nat

    function Counts(): Counters
      reads this
    {
      Counters(latestBlock, blockCount, txCount)
    }

    /** The cells when the panel mounts. */
    constructor()
      ensures Counts() == INITIAL
    {
      latestBlock := None;
      blockCount := 0;
      txCount := 0;
    }

    /** The `lastMessage` effect, run for each message the socket delivers. */
    method OnMessage(lastMessage: Option<Value>)
      modifies this
      ensures Counts() == StatsStep(old(Counts()), lastMessage)
    {
      if IsUpdate(lastMessage) {
        var blocks := ArrayMember(lastMessage, "blocks");
        if blocks.Some? && |blocks.value| > 0 {
          var n := ToNumber(Get(blocks.value[0], "number"));
          if n.Finite? {
            latestBlock := Some(n.n);
          }
          blockCount := blockCount + |blocks.value|;
        }
        var txs := ArrayMember(lastMessage, "transactions");
        if txs.Some? {
          txCount := txCount + |txs.value|;
        }
      }
    }
  }
}
