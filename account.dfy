/** Account reads: the settlement-currency balance and the open positions,
    each normalised from the exchange's reply into the canonical record. */
module Account {
  import opened Text
  import opened Wire
  import opened Transport

  const BalancesPath: string := "/v2/wallet/balances"
  const PositionsPath: string := "/v2/positions"
  const SettlementAsset: string := "USDT"

  // ---------------------------------------------------------------------
  // Balance

  datatype BalanceSnapshot = BalanceSnapshot(totalWalletBalance: real, availableBalance: real, totalMarginBalance: real)

  const ZeroSnapshot: BalanceSnapshot := BalanceSnapshot(0.0, 0.0, 0.0)

  /** The snapshot built from one balance entry: wallet and margin balance
      are both the entry's balance. */
  function SnapshotOf(e: BalanceEntry): BalanceSnapshot {
    BalanceSnapshot(e.balance, e.availableBalance, e.balance)
  }

  /** The snapshot of the first USDT entry, or the zero snapshot. */
  function UsdtSnapshot(balances: seq<BalanceEntry>): BalanceSnapshot {
    if |balances| == 0 then ZeroSnapshot
    else if balances[0].asset == SettlementAsset then SnapshotOf(balances[0])
    else UsdtSnapshot(balances[1..])
  }

  /** The search loop of `GetBalance`, returning at the first USDT entry. */
  method FindUsdtBalance(balances: seq<BalanceEntry>) returns (snap: BalanceSnapshot)
    ensures snap == UsdtSnapshot(balances)
  {
    for i := 0 to |balances|
      invariant UsdtSnapshot(balances[i..]) == UsdtSnapshot(balances)
    {
      if balances[i].asset == SettlementAsset {
        return SnapshotOf(balances[i]);
      }
      assert balances[i..][1..] == balances[i + 1..];
    }
    return ZeroSnapshot;
  }

  /** When entry `k` is the first USDT entry, the snapshot is built from it. */
  lemma {:induction false} UsdtSnapshotIsFirstUsdt(balances: seq<BalanceEntry>, k: nat)
    requires k < |balances| && balances[k].asset == SettlementAsset
    requires forall j :: 0 <= j < k ==> balances[j].asset != SettlementAsset
    ensures UsdtSnapshot(balances) == SnapshotOf(balances[k])
  {
    if k > 0 {
      UsdtSnapshotIsFirstUsdt(balances[1..], k - 1);
    }
  }

  /** With no USDT entry the snapshot is all zeros. */
  lemma {:induction false} NoUsdtIsZero(balances: seq<BalanceEntry>)
    requires forall i :: 0 <= i < |balances| ==> balances[i].asset != SettlementAsset
    ensures UsdtSnapshot(balances) == ZeroSnapshot
  {
    if |balances| > 0 {
      NoUsdtIsZero(balances[1..]);
    }
  }

  /** The outcome of `GetBalance` for a given reply to its request. */
  function BalanceReply(o: Outcome): Result<BalanceSnapshot> {
    match ReplyResult(o)
    case Failure(e) => Failure(e)
    case Success(payload) =>
      match payload.doc
      case BalancesDoc(success, balances) =>
        if !success then Failure(ApiReturnedError) else Success(UsdtSnapshot(balances))
      case _ => Failure(UnmarshalFailed)
  }

  /** `GetBalance` fails only on a transport, status or decode error or an
      explicit `success=false`; a missing USDT entry is never an error, and a
      transport or status error reaches the caller unchanged. */
  lemma BalanceFailsOnlyForBadReply(o: Outcome)
    ensures BalanceReply(o).Failure?
            <==> ReplyResult(o).Failure? || !o.payload.doc.BalancesDoc? || !o.payload.doc.success
    ensures BalanceReply(o).Failure? && ReplyResult(o).Success? && o.payload.doc.BalancesDoc?
            ==> BalanceReply(o).error == ApiReturnedError
    ensures ReplyResult(o).Failure? ==> BalanceReply(o) == Failure(ReplyResult(o).error)
  {
  }

  // ---------------------------------------------------------------------
  // Positions

  datatype PositionRecord = PositionRecord(
    symbol: string,
    positionAmt: real,
    entryPrice: real,
    markPrice: real,
    unrealizedProfit: real,
    percentage: real,
    positionSide: string,
    leverage: int)

  /** A position entry with zero size is a closed position. */
  predicate IsOpen(e: PositionEntry) {
    e.size != 0.0
  }

  /** One entry mapped field by field, with the side upper-cased. */
  function RecordOf(e: PositionEntry): PositionRecord {
    PositionRecord(e.symbol, e.size, e.entryPrice, e.markPrice, e.unrealizedPnl,
                   e.unrealizedPnlPercent, Upper(e.side), e.leverage)
  }

  /** The records of the open entries, in the reply's order. */
  function OpenPositions(entries: seq<PositionEntry>): (r: seq<PositionRecord>)
    ensures |r| <= |entries|
    ensures forall k :: 0 <= k < |r| ==> r[k].positionAmt != 0.0
    ensures forall k, c :: 0 <= k < |r| && 0 <= c < |r[k].positionSide| ==> !IsLower(r[k].positionSide[c])
  {
    if |entries| == 0 then []
    else
      var last := entries[|entries| - 1];
      OpenPositions(entries[..|entries| - 1]) + if IsOpen(last) then [RecordOf(last)] else []
  }

  /** The collecting loop of `GetPositions`, appending each open entry. */
  method CollectOpenPositions(entries: seq<PositionEntry>) returns (positions: seq<PositionRecord>)
    ensures positions == OpenPositions(entries)
  {
    positions := [];
    for i := 0 to |entries|
      invariant positions == OpenPositions(entries[..i])
    {
      assert entries[..i + 1][..i] == entries[..i];
      if entries[i].size != 0.0 {
        positions := positions + [RecordOf(entries[i])];
      }
    }
    assert entries[..|entries|] == entries;
  }

  /** The positions in `entries` of its open entries, in increasing order. */
  function OpenIndices(entries: seq<PositionEntry>): seq<nat> {
    if |entries| == 0 then []
    else
      var n := |entries| - 1;
      OpenIndices(entries[..n]) + if IsOpen(entries[n]) then [n] else []
  }

  /** The listing is exactly the open entries, in their original relative
      order: output `k` is the record of input `idx[k]`, the indices strictly
      increase, and every open input appears. */
  lemma {:induction false} OpenPositionsAreOrderedSubsequence(entries: seq<PositionEntry>)
    ensures var idx := OpenIndices(entries);
            var r := OpenPositions(entries);
            && |idx| == |r|
            && (forall k :: 0 <= k < |idx| ==> idx[k] < |entries| && IsOpen(entries[idx[k]])
                                               && r[k] == RecordOf(entries[idx[k]]))
            && (forall k, l :: 0 <= k < l < |idx| ==> idx[k] < idx[l])
            && (forall i :: 0 <= i < |entries| && IsOpen(entries[i]) ==> i in idx)
  {
    if |entries| > 0 {
      var n := |entries| - 1;
      var front := entries[..n];
      OpenPositionsAreOrderedSubsequence(front);
      assert forall i :: 0 <= i < n ==> front[i] == entries[i];
    }
  }

  /** The outcome of `GetPositions` for a given reply to its request. */
  function PositionsReply(o: Outcome): Result<seq<PositionRecord>> {
    match ReplyResult(o)
    case Failure(e) => Failure(e)
    case Success(payload) =>
      match payload.doc
      case PositionsDoc(success, entries) =>
        if !success then Failure(ApiReturnedError) else Success(OpenPositions(entries))
      case _ => Failure(UnmarshalFailed)
  }

  /** `GetPositions` fails only on a transport, status or decode error or an
      explicit `success=false`, passing a transport or status error through
      unchanged; otherwise it lists the open positions. */
  lemma PositionsFailOnlyForBadReply(o: Outcome)
    ensures PositionsReply(o).Failure?
            <==> ReplyResult(o).Failure? || !o.payload.doc.PositionsDoc? || !o.payload.doc.success
    ensures PositionsReply(o).Success? ==> PositionsReply(o).value == OpenPositions(o.payload.doc.positions)
    ensures ReplyResult(o).Failure? ==> PositionsReply(o) == Failure(ReplyResult(o).error)
  {
  }
}
