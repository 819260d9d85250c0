/**
 * The root-chain event synchronizer: a poll loop that queries the root chain
 * for one named contract event from a watermark block on, hands every event
 * returned to the handler registered under that name, and moves the
 * watermark past the last event; and the deposit handler, which turns each
 * deposit into one mint-style transaction for the operator.
 */
module Core {
  import opened Results
  import opened Types
  import opened Signing

  const DEPOSIT_EVENT_NAME: string := "Deposit"
  /** The exit event's name, spelled as rootchain.go spells it. */
  const EXITED_START_EVENT_NAME: string := "ExistedStart"

  /** The handler table `NewRootChain` fills: the deposit and the exit-started handlers under their event names. */
  const INITIAL_HANDLERS: map<string, Handler> :=
    map[DEPOSIT_EVENT_NAME := DepositHandler, EXITED_START_EVENT_NAME := ExitStartedHandler]

  /** Every run of the poll loop starts querying at this root-chain block. */
  const INITIAL_BLOCK: int := 100
  /** The fixed fee of a deposit transaction. */
  const DEPOSIT_FEE: int := 1

  const TWO_TO_64: int := 0x1_0000_0000_0000_0000
  const MAX_INT64: int := 0x7FFF_FFFF_FFFF_FFFF
  const MIN_INT64: int := -0x8000_0000_0000_0000

  type Uint64 = x: int | 0 <= x < TWO_TO_64

  /** The value a Go `int64` conversion, or `int64` addition, leaves: two's complement wrap-around. */
  function ToInt64(x: int): (r: int)
    ensures MIN_INT64 <= r <= MAX_INT64
    ensures (r - x) % TWO_TO_64 == 0
  {
    var m := x % TWO_TO_64;
    if m <= MAX_INT64 then m else m - TWO_TO_64
  }

  /** A decoded `Deposit` event of the root-chain contract. */
  datatype DepositEvent = DepositEvent(depositor: Address, depositBlock: int, token: Address, amount: int)

  /** The decoded value an event carries: a deposit, or anything else. */
  datatype EventValue = DepositValue(deposit: DepositEvent) | OtherValue

  datatype ContractEvent = ContractEvent(blockNum: Uint64, v: EventValue)

  /**
   * One call of the event source: the poll round, the contract address,
   * the first block to search and the event name; the upper bound is open.
   */
  datatype Query = Query(round: nat, cxAddr: string, fromBlock: int, eventName: string)

  datatype SourceError = SourceError(message: string)

  /** The root-chain event source: any answer, in any round, including failure. */
  type EventSource = Query -> Result<seq<ContractEvent>, SourceError>

  /** The handlers the handler table can hold. */
  datatype Handler = DepositHandler | ExitStartedHandler

  /** What one handler call does: hand the operator one batch, nothing, or panic. */
  datatype HandlerEffect = Submit(batch: seq<TxData>) | NoEffect | Panic

  predicate IsHexDigit(c: char) {
    '0' <= c <= '9' || 'a' <= c <= 'f' || 'A' <= c <= 'F'
  }

  /** `hex.DecodeString` fails exactly on an odd length or a character that is not a hex digit. */
  predicate ValidHex(s: string) {
    |s| % 2 == 0 && forall i | 0 <= i < |s| :: IsHexDigit(s[i])
  }

  /** Why `hex.DecodeString` failed: a character that is not a hex digit, or a valid but unpaired last one. */
  datatype HexError = InvalidByte(c: char) | OddLength

  function HexValue(c: char): (v: nat)
    requires IsHexDigit(c)
    ensures v < 16
  {
    if '0' <= c <= '9' then c as int - '0' as int
    else if 'a' <= c <= 'f' then c as int - 'a' as int + 10
    else c as int - 'A' as int + 10
  }

  /**
   * `hex.DecodeString`: the digits are read in pairs from the left, each pair
   * giving one byte; the first character that is not a hex digit is
   * reported, and a valid last character without a partner is a length error.
   */
  function HexDecode(s: string): (r: Result<seq<int>, HexError>)
    ensures r.Ok? ==> |r.value| == |s| / 2 && forall i | 0 <= i < |r.value| :: 0 <= r.value[i] < 256
    ensures r.Err? && r.error.InvalidByte? ==> !IsHexDigit(r.error.c)
    decreases |s|
  {
    if |s| == 0 then Ok([])
    else if !IsHexDigit(s[0]) then Err(InvalidByte(s[0]))
    else if |s| == 1 then Err(OddLength)
    else if !IsHexDigit(s[1]) then Err(InvalidByte(s[1]))
    else
      match HexDecode(s[2..])
      case Err(e) => Err(e)
      case Ok(bytes) => Ok([HexValue(s[0]) * 16 + HexValue(s[1])] + bytes)
  }

  /** Decoding succeeds exactly on an even number of hex digits. */
  lemma {:induction false} HexDecodeSucceeds(s: string)
    ensures HexDecode(s).Ok? <==> ValidHex(s)
    decreases |s|
  {
    if |s| >= 2 && IsHexDigit(s[0]) && IsHexDigit(s[1]) {
      var tail := s[2..];
      HexDecodeSucceeds(tail);
      assert forall i | 2 <= i < |s| :: s[i] == tail[i - 2];
      if ValidHex(tail) {
        assert forall i | 0 <= i < |s| :: IsHexDigit(s[i]) by {
          forall i | 0 <= i < |s| ensures IsHexDigit(s[i]) {
            if i >= 2 { assert IsHexDigit(tail[i - 2]); }
          }
        }
      }
    }
  }

  /**
   * The transaction the deposit handler builds for a deposit: output 1
   * credits the depositor, output 2 and both inputs are padding, the fee is
   * fixed, nothing is signed. No value is spent, so it needs no signature.
   */
  function DepositTx(e: DepositEvent): (t: TxData)
    ensures t.outs[0].owner == e.depositor && t.outs[0].amount == e.amount
    ensures IsPaddingOut(t.outs[1])
    ensures forall i | 0 <= i < 2 :: t.ins[i].id == ZERO_UTXOID && IsPaddingOut(t.ins[i].txOut) && t.sigs[i].None?
    ensures t.fee == DEPOSIT_FEE
    ensures TotalIn(t) == 0 && TotalOut(t) == e.amount
  {
    Unsigned(UTXO(UTXOID(0, 0, 0), TxOut(ZERO_ADDRESS, 0)), UTXO(UTXOID(0, 0, 0), TxOut(ZERO_ADDRESS, 0)),
             TxOut(e.depositor, e.amount), TxOut(ZERO_ADDRESS, 0), DEPOSIT_FEE)
  }

  /** A deposit transaction is authorized without any signature, under every chain identifier. */
  lemma DepositTxNeedsNoSignature(e: DepositEvent, s: Signer)
    ensures VerifyTx(DepositTx(e), s).Ok?
    ensures SignTx(DepositTx(e), s, None, None) == Ok(DepositTx(e))
  {
  }

  /** What calling handler `h` on event `e` does. */
  function Effect(h: Handler, e: ContractEvent): (r: HandlerEffect)
    ensures h == ExitStartedHandler ==> r == NoEffect
    ensures h == DepositHandler ==> (r.Panic? <==> !e.v.DepositValue?)
    ensures h == DepositHandler && e.v.DepositValue? ==> r == Submit([DepositTx(e.v.deposit)])
  {
    match h
    case DepositHandler =>
      (match e.v
       case DepositValue(d) => Submit([DepositTx(d)])
       case OtherValue => Panic)
    case ExitStartedHandler => NoEffect
  }

  /** `rc.sub[eventName](event)`: a name with no handler yields a nil function, and calling it panics. */
  function HandleEvent(sub: map<string, Handler>, name: string, e: ContractEvent): (r: HandlerEffect)
    ensures r.Panic? <==> name !in sub || (sub[name] == DepositHandler && !e.v.DepositValue?)
    ensures r.Submit? <==> name in sub && sub[name] == DepositHandler && e.v.DepositValue?
    ensures r.Submit? ==> r.batch == [DepositTx(e.v.deposit)]
  {
    if name in sub then Effect(sub[name], e) else Panic
  }

  /** The batches the operator receives from dispatching a list of events, and whether dispatch panicked. */
  datatype DispatchResult = DispatchResult(batches: seq<seq<TxData>>, panicked: bool)

  /** Dispatches `events` in order; after a panic nothing further is dispatched. */
  function Dispatch(sub: map<string, Handler>, name: string, events: seq<ContractEvent>): (r: DispatchResult)
    ensures |r.batches| <= |events|
    decreases |events|
  {
    if events == [] then DispatchResult([], false)
    else
      var prev := Dispatch(sub, name, events[..|events| - 1]);
      if prev.panicked then prev
      else match HandleEvent(sub, name, events[|events| - 1])
        case Panic => DispatchResult(prev.batches, true)
        case NoEffect => prev
        case Submit(b) => DispatchResult(prev.batches + [b], false)
  }

  /** Dispatch panics exactly when handling one of the events panics. */
  lemma {:induction false} DispatchPanicsIff(sub: map<string, Handler>, name: string, events: seq<ContractEvent>)
    ensures Dispatch(sub, name, events).panicked <==>
            exists i | 0 <= i < |events| :: HandleEvent(sub, name, events[i]).Panic?
    decreases |events|
  {
    if events != [] {
      var init := events[..|events| - 1];
      DispatchPanicsIff(sub, name, init);
      assert forall i | 0 <= i < |init| :: init[i] == events[i];
    }
  }

  /** Once a prefix of the events has panicked, the rest of them change nothing. */
  lemma {:induction false} DispatchPanicSticks(sub: map<string, Handler>, name: string, events: seq<ContractEvent>, k: nat)
    requires k <= |events|
    requires Dispatch(sub, name, events[..k]).panicked
    ensures Dispatch(sub, name, events) == Dispatch(sub, name, events[..k])
    decreases |events|
  {
    if k < |events| {
      assert events[..|events| - 1][..k] == events[..k];
      DispatchPanicSticks(sub, name, events[..|events| - 1], k);
    } else {
      assert events[..k] == events;
    }
  }

  /**
   * Under the deposit handler, a list of deposit events is dispatched without
   * panicking, each event exactly once and in the order returned: the i-th
   * batch holds exactly the transaction for the i-th deposit.
   */
  lemma {:induction false} DispatchDeposits(sub: map<string, Handler>, name: string, events: seq<ContractEvent>)
    requires name in sub && sub[name] == DepositHandler
    requires forall i | 0 <= i < |events| :: events[i].v.DepositValue?
    ensures var r := Dispatch(sub, name, events);
      && !r.panicked
      && |r.batches| == |events|
      && forall i | 0 <= i < |events| :: r.batches[i] == [DepositTx(events[i].v.deposit)]
    decreases |events|
  {
    if events != [] {
      var prefix := events[..|events| - 1];
      assert forall i | 0 <= i < |prefix| :: prefix[i] == events[i];
      DispatchDeposits(sub, name, prefix);
    }
  }

  /** Under the exit-started handler nothing reaches the operator and nothing panics. */
  lemma {:induction false} DispatchExitStarted(sub: map<string, Handler>, name: string, events: seq<ContractEvent>)
    requires name in sub && sub[name] == ExitStartedHandler
    ensures Dispatch(sub, name, events) == DispatchResult([], false)
    decreases |events|
  {
    if events != [] {
      DispatchExitStarted(sub, name, events[..|events| - 1]);
    }
  }

  /** A name with no handler panics on the first event, before anything reaches the operator. */
  lemma {:induction false} DispatchUnregistered(sub: map<string, Handler>, name: string, events: seq<ContractEvent>)
    requires name !in sub
    ensures Dispatch(sub, name, events) == DispatchResult([], events != [])
    decreases |events|
  {
    if events != [] {
      DispatchUnregistered(sub, name, events[..|events| - 1]);
    }
  }

  /**
   * The next watermark after a successful query: `int64(last.BlockNum) + 1`
   * in `int64` arithmetic when the batch is non-empty, the old one otherwise.
   */
  function NextWatermark(fromBlock: int, events: seq<ContractEvent>): (r: int)
    ensures events == [] ==> r == fromBlock
    ensures events != [] ==> MIN_INT64 <= r <= MAX_INT64
    ensures events != [] ==> (r - (events[|events| - 1].blockNum + 1)) % TWO_TO_64 == 0
  {
    if |events| > 0 then ToInt64(ToInt64(events[|events| - 1].blockNum) + 1) else fromBlock
  }

  /** The exact advance rule: past the last event when there is one, unchanged otherwise. */
  lemma NextWatermarkAdvance(fromBlock: int, events: seq<ContractEvent>)
    requires events != [] ==> events[|events| - 1].blockNum < MAX_INT64
    ensures events == [] ==> NextWatermark(fromBlock, events) == fromBlock
    ensures events != [] ==> NextWatermark(fromBlock, events) == events[|events| - 1].blockNum + 1
  {
  }

  /** At block number 2^63 - 1 the `int64` addition wraps, and the watermark falls to -2^63. */
  lemma NextWatermarkWraps(fromBlock: int, events: seq<ContractEvent>)
    requires events != [] && events[|events| - 1].blockNum == MAX_INT64
    ensures NextWatermark(fromBlock, events) == MIN_INT64
  {
  }

  /** How a run of the poll loop ends. */
  datatype LoopOutcome =
    | BadAddress                 // the contract address is not hex; nothing was queried
    | QueryFailed(err: SourceError)  // the source failed; the loop returned
    | HandlerPanicked            // a handler panicked during dispatch
    | Suspended                  // the rounds this model runs are used up; the loop would go on

  /** A run of the poll loop: how it ended, its last watermark, the operator's batches and the queries made. */
  datatype RunResult = RunResult(outcome: LoopOutcome, fromBlock: int, batches: seq<seq<TxData>>, queries: seq<Query>)

  /** How one round of the poll loop ends: the loop stops, or goes on from a new watermark. */
  datatype RoundResult = Stop(outcome: LoopOutcome, batches: seq<seq<TxData>>) | Continue(next: int, batches: seq<seq<TxData>>)

  /** One round: query from `fromBlock`; on success dispatch every event, then compute the next watermark. */
  function Round(sub: map<string, Handler>, name: string, cxAddr: string, source: EventSource,
                 fromBlock: int, round: nat): (r: RoundResult)
    ensures var answer := source(Query(round, cxAddr, fromBlock, name));
      && (r.Stop? ==> r.outcome.QueryFailed? || r.outcome == HandlerPanicked)
      && (r.Stop? && r.outcome.QueryFailed? <==> answer.Err?)
      && (r.Stop? && r.outcome.QueryFailed? ==> answer == Err(r.outcome.err) && r.batches == [])
      && (r.Continue? ==> answer.Ok? && (answer.value == [] ==> r.next == fromBlock))
      && (answer.Ok? ==> |r.batches| <= |answer.value|)
  {
    match source(Query(round, cxAddr, fromBlock, name))
    case Err(e) => Stop(QueryFailed(e), [])
    case Ok(events) =>
      var d := Dispatch(sub, name, events);
      if d.panicked then Stop(HandlerPanicked, d.batches)
      else Continue(NextWatermark(fromBlock, events), d.batches)
  }

  /** Up to `fuel` rounds of the poll loop, from watermark `fromBlock` in round `round`. */
  function Run(sub: map<string, Handler>, name: string, cxAddr: string, source: EventSource,
               fromBlock: int, round: nat, fuel: nat): (r: RunResult)
    ensures |r.queries| <= fuel
    ensures r.outcome != BadAddress
    ensures r.outcome == Suspended ==> |r.queries| == fuel
    decreases fuel
  {
    if fuel == 0 then RunResult(Suspended, fromBlock, [], [])
    else
      var q := Query(round, cxAddr, fromBlock, name);
      match Round(sub, name, cxAddr, source, fromBlock, round)
      case Stop(outcome, batches) => RunResult(outcome, fromBlock, batches, [q])
      case Continue(next, batches) =>
        var rest := Run(sub, name, cxAddr, source, next, round + 1, fuel - 1);
        RunResult(rest.outcome, rest.fromBlock, batches + rest.batches, [q] + rest.queries)
  }

  /** A run whose first round stops ends with that round's outcome and batches, at its starting watermark. */
  lemma RunStop(sub: map<string, Handler>, name: string, cxAddr: string, source: EventSource,
                fromBlock: int, round: nat, fuel: nat)
    requires fuel > 0 && Round(sub, name, cxAddr, source, fromBlock, round).Stop?
    ensures var r := Run(sub, name, cxAddr, source, fromBlock, round, fuel);
      && r.outcome == Round(sub, name, cxAddr, source, fromBlock, round).outcome
      && r.fromBlock == fromBlock
      && r.batches == Round(sub, name, cxAddr, source, fromBlock, round).batches
      && r.queries == [Query(round, cxAddr, fromBlock, name)]
  {
  }

  /** A run whose first round goes on to `next` is that round's batches followed by the run from `next`. */
  lemma RunContinue(sub: map<string, Handler>, name: string, cxAddr: string, source: EventSource,
                    fromBlock: int, round: nat, fuel: nat, next: int)
    requires fuel > 0 && Round(sub, name, cxAddr, source, fromBlock, round) == Continue(next, Round(sub, name, cxAddr, source, fromBlock, round).batches)
    ensures var r := Run(sub, name, cxAddr, source, fromBlock, round, fuel);
      var rest := Run(sub, name, cxAddr, source, next, round + 1, fuel - 1);
      && r.outcome == rest.outcome
      && r.fromBlock == rest.fromBlock
      && r.batches == Round(sub, name, cxAddr, source, fromBlock, round).batches + rest.batches
      && r.queries == [Query(round, cxAddr, fromBlock, name)] + rest.queries
  {
  }

  /** `loopEvent`: a bad address ends it at once, otherwise it runs from the initial block in round 0. */
  function LoopSpec(sub: map<string, Handler>, name: string, cxAddr: string, source: EventSource, fuel: nat): (r: RunResult)
    ensures !ValidHex(cxAddr) ==> r == RunResult(BadAddress, INITIAL_BLOCK, [], [])
    ensures ValidHex(cxAddr) && fuel > 0 ==> r.queries != [] && r.queries[0] == Query(0, cxAddr, INITIAL_BLOCK, name)
  {
    if !ValidHex(cxAddr) then RunResult(BadAddress, INITIAL_BLOCK, [], [])
    else Run(sub, name, cxAddr, source, INITIAL_BLOCK, 0, fuel)
  }

  /**
   * The queries a run makes: at most one per round, the first at the starting
   * watermark, all with the loop's address and event name.
   */
  lemma {:induction false} RunQueryShape(sub: map<string, Handler>, name: string, cxAddr: string, source: EventSource,
                                         fromBlock: int, round: nat, fuel: nat)
    ensures var r := Run(sub, name, cxAddr, source, fromBlock, round, fuel);
      && |r.queries| <= fuel
      && (fuel > 0 ==> r.queries != [] && r.queries[0] == Query(round, cxAddr, fromBlock, name))
      && (forall i | 0 <= i < |r.queries| :: r.queries[i].cxAddr == cxAddr && r.queries[i].eventName == name)
    decreases fuel
  {
    if fuel > 0 {
      var q := Query(round, cxAddr, fromBlock, name);
      if source(q).Ok? && !Dispatch(sub, name, source(q).value).panicked {
        var next := NextWatermark(fromBlock, source(q).value);
        RunQueryShape(sub, name, cxAddr, source, next, round + 1, fuel - 1);
      }
    }
  }

  /** Query `b` follows query `a`: `a` succeeded, and `b` is the next round at the watermark that success computed. */
  predicate FollowsFrom(source: EventSource, a: Query, b: Query) {
    && source(a).Ok?
    && b.round == a.round + 1
    && b.fromBlock == NextWatermark(a.fromBlock, source(a).value)
  }

  /** Every query of `qs` after the first follows from the one before it. */
  predicate Chained(source: EventSource, qs: seq<Query>) {
    forall i | 0 <= i < |qs| - 1 :: FollowsFrom(source, qs[i], qs[i + 1])
  }

  /**
   * Each query after the first comes only after the one before succeeded,
   * one round on, at the watermark that success computed.
   */
  lemma {:induction false} RunQueryChain(sub: map<string, Handler>, name: string, cxAddr: string, source: EventSource,
                                         fromBlock: int, round: nat, fuel: nat)
    ensures Chained(source, Run(sub, name, cxAddr, source, fromBlock, round, fuel).queries)
    decreases fuel
  {
    if fuel > 0 && Round(sub, name, cxAddr, source, fromBlock, round).Continue? {
      var q := Query(round, cxAddr, fromBlock, name);
      var next := Round(sub, name, cxAddr, source, fromBlock, round).next;
      var qs := Run(sub, name, cxAddr, source, fromBlock, round, fuel).queries;
      var rest := Run(sub, name, cxAddr, source, next, round + 1, fuel - 1).queries;
      assert qs == [q] + rest;
      RunQueryChain(sub, name, cxAddr, source, next, round + 1, fuel - 1);
      forall i | 0 <= i < |qs| - 1
        ensures FollowsFrom(source, qs[i], qs[i + 1])
      {
        if i == 0 {
          RunQueryShape(sub, name, cxAddr, source, next, round + 1, fuel - 1);
        } else {
          assert FollowsFrom(source, rest[i - 1], rest[i]);
        }
      }
    }
  }

  /** A failed query is the last one, and a run ends with `QueryFailed(e)` exactly when its last query failed with e. */
  lemma {:induction false} RunStopsAtQueryError(sub: map<string, Handler>, name: string, cxAddr: string, source: EventSource,
                                                fromBlock: int, round: nat, fuel: nat)
    ensures var r := Run(sub, name, cxAddr, source, fromBlock, round, fuel);
      && (r.outcome.QueryFailed? <==> r.queries != [] && source(r.queries[|r.queries| - 1]).Err?)
      && (r.outcome.QueryFailed? ==> source(r.queries[|r.queries| - 1]) == Err(r.outcome.err))
    decreases fuel
  {
    if fuel > 0 {
      var step := Round(sub, name, cxAddr, source, fromBlock, round);
      if step.Stop? {
        RunStop(sub, name, cxAddr, source, fromBlock, round, fuel);
      } else {
        RunContinue(sub, name, cxAddr, source, fromBlock, round, fuel, step.next);
        RunStopsAtQueryError(sub, name, cxAddr, source, step.next, round + 1, fuel - 1);
        var rest := Run(sub, name, cxAddr, source, step.next, round + 1, fuel - 1);
        var r := Run(sub, name, cxAddr, source, fromBlock, round, fuel);
        if rest.queries != [] {
          assert r.queries[|r.queries| - 1] == rest.queries[|rest.queries| - 1];
        }
      }
    }
  }

  /** The source answers each query with events at or after its watermark and below 2^63 - 1. */
  ghost predicate InRangeSource(source: EventSource) {
    forall q :: source(q).Ok? ==>
      forall i | 0 <= i < |source(q).value| :: q.fromBlock <= source(q).value[i].blockNum < MAX_INT64
  }

  /** With a source that keeps to the queried range, a round that goes on never moves the watermark back. */
  lemma RoundAdvances(sub: map<string, Handler>, name: string, cxAddr: string, source: EventSource,
                      fromBlock: int, round: nat)
    requires InRangeSource(source)
    requires Round(sub, name, cxAddr, source, fromBlock, round).Continue?
    ensures fromBlock <= Round(sub, name, cxAddr, source, fromBlock, round).next
  {
    var q := Query(round, cxAddr, fromBlock, name);
    var events := source(q).value;
    if events != [] {
      assert q.fromBlock <= events[|events| - 1].blockNum < MAX_INT64;
      NextWatermarkAdvance(fromBlock, events);
    }
  }

  /** Every query of `qs` starts at a watermark in `[lo, hi]`. */
  predicate WatermarksWithin(qs: seq<Query>, lo: int, hi: int) {
    forall i | 0 <= i < |qs| :: lo <= qs[i].fromBlock <= hi
  }

  /** The queries' watermarks never decrease. */
  predicate WatermarksAscending(qs: seq<Query>) {
    forall i, j | 0 <= i <= j < |qs| :: qs[i].fromBlock <= qs[j].fromBlock
  }

  /** Putting a query at or below all the others in front keeps the watermarks ascending and in range. */
  lemma PrependQuery(q: Query, qs: seq<Query>, next: int, hi: int)
    requires q.fromBlock <= next <= hi
    requires WatermarksWithin(qs, next, hi) && WatermarksAscending(qs)
    ensures WatermarksWithin([q] + qs, q.fromBlock, hi) && WatermarksAscending([q] + qs)
  {
    var all := [q] + qs;
    assert forall i | 1 <= i < |all| :: all[i] == qs[i - 1];
  }

  /**
   * With a source that keeps to the queried range, the watermark never moves
   * back: each query starts at or after the one before, and the run ends at
   * or after every watermark it queried from.
   */
  lemma {:induction false} RunWatermarkMonotone(sub: map<string, Handler>, name: string, cxAddr: string, source: EventSource,
                                                fromBlock: int, round: nat, fuel: nat)
    requires InRangeSource(source)
    ensures fromBlock <= Run(sub, name, cxAddr, source, fromBlock, round, fuel).fromBlock
    ensures WatermarksWithin(Run(sub, name, cxAddr, source, fromBlock, round, fuel).queries,
                             fromBlock, Run(sub, name, cxAddr, source, fromBlock, round, fuel).fromBlock)
    ensures WatermarksAscending(Run(sub, name, cxAddr, source, fromBlock, round, fuel).queries)
    decreases fuel
  {
    if fuel > 0 {
      var step := Round(sub, name, cxAddr, source, fromBlock, round);
      if step.Stop? {
        RunStop(sub, name, cxAddr, source, fromBlock, round, fuel);
      } else {
        RoundAdvances(sub, name, cxAddr, source, fromBlock, round);
        RunContinue(sub, name, cxAddr, source, fromBlock, round, fuel, step.next);
        RunWatermarkMonotone(sub, name, cxAddr, source, step.next, round + 1, fuel - 1);
        var rest := Run(sub, name, cxAddr, source, step.next, round + 1, fuel - 1);
        PrependQuery(Query(round, cxAddr, fromBlock, name), rest.queries, step.next, rest.fromBlock);
      }
    }
  }

  /**
   * One round of the deposit loop over the handler table `NewRootChain` fills:
   * deposits at blocks 101 and 103 reach the operator as two batches, 101's
   * first, and the watermark ends at 104.
   */
  lemma DepositRoundScenario(cxAddr: string, source: EventSource, d1: DepositEvent, d2: DepositEvent)
    requires ValidHex(cxAddr)
    requires source(Query(0, cxAddr, INITIAL_BLOCK, DEPOSIT_EVENT_NAME))
             == Ok([ContractEvent(101, DepositValue(d1)), ContractEvent(103, DepositValue(d2))])
    ensures var r := LoopSpec(INITIAL_HANDLERS, DEPOSIT_EVENT_NAME, cxAddr, source, 1);
      && r.outcome == Suspended
      && r.fromBlock == 104
      && r.batches == [[DepositTx(d1)], [DepositTx(d2)]]
  {
    var events := [ContractEvent(101, DepositValue(d1)), ContractEvent(103, DepositValue(d2))];
    DispatchDeposits(INITIAL_HANDLERS, DEPOSIT_EVENT_NAME, events);
  }

  /** A round that returns no events leaves the watermark where it was and hands the operator nothing. */
  lemma EmptyRoundScenario(cxAddr: string, source: EventSource)
    requires ValidHex(cxAddr)
    requires source(Query(0, cxAddr, INITIAL_BLOCK, DEPOSIT_EVENT_NAME)) == Ok([])
    ensures var r := LoopSpec(INITIAL_HANDLERS, DEPOSIT_EVENT_NAME, cxAddr, source, 1);
      r.outcome == Suspended && r.fromBlock == INITIAL_BLOCK && r.batches == []
  {
  }

  /** A failed first query ends the loop, however long it could have run: one query, no batch. */
  lemma FailedQueryScenario(cxAddr: string, source: EventSource, fuel: nat, e: SourceError)
    requires ValidHex(cxAddr) && fuel > 0
    requires source(Query(0, cxAddr, INITIAL_BLOCK, DEPOSIT_EVENT_NAME)) == Err(e)
    ensures var r := LoopSpec(INITIAL_HANDLERS, DEPOSIT_EVENT_NAME, cxAddr, source, fuel);
      r.outcome == QueryFailed(e) && r.batches == [] && |r.queries| == 1 && r.fromBlock == INITIAL_BLOCK
  {
  }

  /** The chain operator's acceptance entry point; it keeps every batch it is handed, in order. */
  class Operator {
    var received: seq<seq<TxData>>

    constructor ()
      ensures received == []
    {
      received := [];
    }

    /** `AddTxs(txs)` */
    method AddTxs(txs: seq<Transaction>)
      requires forall t | t in txs :: t.Valid()
      modifies this
      ensures received == old(received) + [Snapshot(txs)]
    {
      received := received + [Snapshot(txs)];
    }
  }

  /** The records a batch of transactions holds. */
  function Snapshot(txs: seq<Transaction>): (r: seq<TxData>)
    requires forall t | t in txs :: t.Valid()
    reads set t | t in txs, set t | t in txs :: t.fee
    ensures |r| == |txs| && forall i | 0 <= i < |txs| :: r[i] == txs[i].Data()
  {
    if txs == [] then [] else [txs[0].Data()] + Snapshot(txs[1..])
  }

  /** The synchronizer: the handler table, the contract's address and interface, and the operator it feeds. */
  class RootChain {
    var sub: map<string, Handler>
    const abiStr: string
    const cxAddr: string
    const operator: Operator
    /** The event names for which construction launched a poll-loop goroutine; it records the launch and nothing more. */
    ghost var started: seq<string>

    /** The part of `NewRootChain` after the client connected: fills the handler table, starts the deposit loop. */
    constructor (abiStr: string, cxAddr: string, operator: Operator)
      ensures sub == INITIAL_HANDLERS
      ensures this.abiStr == abiStr && this.cxAddr == cxAddr && this.operator == operator
      ensures started == [DEPOSIT_EVENT_NAME]
    {
      this.abiStr := abiStr;
      this.cxAddr := cxAddr;
      this.operator := operator;
      sub := map[];
      new;
      sub := sub[DEPOSIT_EVENT_NAME := DepositHandler];
      sub := sub[EXITED_START_EVENT_NAME := ExitStartedHandler];
      started := [DEPOSIT_EVENT_NAME];
    }

    /** `dealWithDepositEvent`: builds the deposit's transaction and hands the operator a batch of one. */
    method DealWithDepositEvent(event: ContractEvent) returns (panicked: bool)
      modifies operator
      ensures panicked <==> !event.v.DepositValue?
      ensures !panicked ==> operator.received == old(operator.received) + [[DepositTx(event.v.deposit)]]
      ensures panicked ==> operator.received == old(operator.received)
    {
      if !event.v.DepositValue? {
        // the type assertion `event.V.(*DepositEvent)` fails
        return true;
      }
      var out := event.v.deposit;
      var txOut1 := TxOut(out.depositor, out.amount);
      var txOut2 := TxOut(ZERO_ADDRESS, 0);
      var txIn1 := UTXO(UTXOID(0, 0, 0), TxOut(ZERO_ADDRESS, 0));
      var txIn2 := UTXO(UTXOID(0, 0, 0), TxOut(ZERO_ADDRESS, 0));
      var fee := new BigInt.NewInt(DEPOSIT_FEE);
      var tx := new Transaction.NewTransaction(txIn1, txIn2, txOut1, txOut2, fee);
      var txs: seq<Transaction> := [];
      txs := txs + [tx];
      assert Snapshot(txs) == [DepositTx(out)];
      operator.AddTxs(txs);
      panicked := false;
    }

    /** `dealWithExitStartedEvent`: does nothing. */
    method DealWithExitStartedEvent(event: ContractEvent) returns (panicked: bool)
      ensures !panicked
    {
      panicked := false;
    }

    /** Calls handler `h` on `event`; the operator receives exactly what `Effect` says. */
    method Call(h: Handler, event: ContractEvent) returns (panicked: bool)
      modifies operator
      ensures panicked == Effect(h, event).Panic?
      ensures operator.received == old(operator.received) +
        (if Effect(h, event).Submit? then [Effect(h, event).batch] else [])
    {
      match h
      case DepositHandler =>
        panicked := DealWithDepositEvent(event);
      case ExitStartedHandler =>
        panicked := DealWithExitStartedEvent(event);
    }

    /** The `for _, event := range events` loop: each event, in order, to `sub[eventName]`. */
    method DispatchAll(eventName: string, events: seq<ContractEvent>) returns (panicked: bool)
      modifies operator
      ensures panicked == Dispatch(sub, eventName, events).panicked
      ensures operator.received == old(operator.received) + Dispatch(sub, eventName, events).batches
    {
      var i := 0;
      while i < |events|
        invariant i <= |events|
        invariant !Dispatch(sub, eventName, events[..i]).panicked
        invariant operator.received == old(operator.received) + Dispatch(sub, eventName, events[..i]).batches
      {
        assert events[..i + 1][..i] == events[..i];
        if eventName !in sub {
          DispatchPanicSticks(sub, eventName, events, i + 1);
          return true;
        }
        panicked := Call(sub[eventName], events[i]);
        if panicked {
          DispatchPanicSticks(sub, eventName, events, i + 1);
          return;
        }
        i := i + 1;
      }
      assert events[..i] == events;
      panicked := false;
    }

    /** One pass of the loop body: the query, the dispatch of its events, and the watermark update. */
    method PollRound(eventName: string, source: EventSource, fromBlock: int, round: nat)
      returns (stopped: Option<LoopOutcome>, next: int)
      modifies operator
      ensures var r := Round(sub, eventName, cxAddr, source, fromBlock, round);
        && (stopped.Some? <==> r.Stop?)
        && (r.Stop? ==> stopped.value == r.outcome)
        && (r.Continue? ==> next == r.next)
        && operator.received == old(operator.received) + r.batches
    {
      next := fromBlock;
      var answer := source(Query(round, cxAddr, fromBlock, eventName));
      if answer.Err? {
        return Some(QueryFailed(answer.error)), next;
      }
      var events := answer.value;
      var panicked := DispatchAll(eventName, events);
      if panicked {
        return Some(HandlerPanicked), next;
      }
      if |events| > 0 {
        next := ToInt64(ToInt64(events[|events| - 1].blockNum) + 1);
      }
      stopped := None;
    }

    /**
     * `loopEvent(eventName, event)`, for at most `fuel` rounds: the watermark
     * starts at the initial block; a bad address returns before any query; a
     * failed query returns; otherwise each event goes, in order, to
     * `sub[eventName]`, and the watermark moves past the last one.
     */
    method LoopEvent(eventName: string, source: EventSource, fuel: nat) returns (outcome: LoopOutcome, fromBlock: int)
      modifies operator
      ensures var r := LoopSpec(sub, eventName, cxAddr, source, fuel);
        outcome == r.outcome && fromBlock == r.fromBlock && operator.received == old(operator.received) + r.batches
    {
      fromBlock := INITIAL_BLOCK;
      var decoded := HexDecode(cxAddr);
      HexDecodeSucceeds(cxAddr);
      if decoded.Err? {
        return BadAddress, fromBlock;
      }
      ghost var total := Run(sub, eventName, cxAddr, source, INITIAL_BLOCK, 0, fuel);
      ghost var table := sub;
      var round: nat, left: nat := 0, fuel;
      ghost var here := total;
      while left > 0
        invariant sub == table
        invariant here == Run(table, eventName, cxAddr, source, fromBlock, round, left)
        invariant here.outcome == total.outcome && here.fromBlock == total.fromBlock
        invariant operator.received + here.batches == old(operator.received) + total.batches
      {
        var stopped, next := PollRound(eventName, source, fromBlock, round);
        if stopped.Some? {
          RunStop(table, eventName, cxAddr, source, fromBlock, round, left);
          return stopped.value, fromBlock;
        }
        RunContinue(table, eventName, cxAddr, source, fromBlock, round, left, next);
        fromBlock, round, left := next, round + 1, left - 1;
        here := Run(table, eventName, cxAddr, source, fromBlock, round, left);
      }
      outcome := Suspended;
    }
  }

  /** `NewRootChain(url, abiStr, cxAddr, operator)`, with the outcome of dialling the endpoint as a parameter. */
  method NewRootChain(url: string, dialError: Option<string>, abiStr: string, cxAddr: string, operator: Operator)
    returns (rc: RootChain?, err: Option<string>)
    ensures dialError.Some? ==> rc == null
    ensures dialError.Some? ==> err == Some("failed to connect eth rpc endpoint {" + url + "}, err is:" + dialError.value)
    ensures dialError.None? ==> err.None? && rc != null && fresh(rc) && rc.operator == operator
    ensures dialError.None? ==> rc != null && rc.started == [DEPOSIT_EVENT_NAME]
    ensures dialError.None? ==> rc != null && rc.sub == INITIAL_HANDLERS
    ensures dialError.None? ==> rc != null && rc.cxAddr == cxAddr && rc.abiStr == abiStr
  {
    if dialError.Some? {
      return null, Some("failed to connect eth rpc endpoint {" + url + "}, err is:" + dialError.value);
    }
    rc := new RootChain(abiStr, cxAddr, operator);
    err := None;
  }
}
