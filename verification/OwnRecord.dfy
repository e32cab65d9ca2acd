/** Order records that are not shared: the OMS over a broker that keeps its own, and that broker. */
module OwnRecord {
  import opened Core
  import opened SimModel
  import opened OmsModel
  import opened OrderTheorems
  import opened BacktestOrders

  /** The OMS's bookkeeping of an order's fills, on a record of its own. */
  function OmsExecutedAll(r: OrderRec, fills: seq<Fill>): OrderRec {
    if fills == [] then r else OmsExecuted(OmsExecutedAll(r, fills[..|fills| - 1]), fills[|fills| - 1])
  }

  predicate Positive(fills: seq<Fill>) {
    forall i :: 0 <= i < |fills| ==> fills[i].qty > 0.0
  }

  /** A record nothing has been booked on. */
  predicate Blank(r: OrderRec) {
    r.filledQty == 0.0 && r.avgFillPrice.None?
  }

  /** Two bookkeepers with a record each, `_apply_fill` and `on_fill`, agree after any list of fills. */
  lemma {:induction false} BookkeepersAgree(r: OrderRec, fills: seq<Fill>)
    ensures OmsExecutedAll(r, fills) == ExecutedAll(r, fills)
  {
    hide Executed, OmsExecuted;
    if fills != [] {
      var n := |fills| - 1;
      BookkeepersAgree(r, fills[..n]);
      BothBookAlike(ExecutedAll(r, fills[..n]), fills[n]);
    }
  }

  /** After any list of positive fills the record holds their quantity and their true average: the
      average times the filled quantity is the sum of price times quantity. It reads FILLED exactly
      when they add up to the order. */
  lemma {:induction false} OwnRecordIsTrue(r: OrderRec, fills: seq<Fill>)
    requires Blank(r) && Positive(fills)
    ensures var r' := OmsExecutedAll(r, fills);
            && r'.ticket == r.ticket && r'.filledQty == QtyOf(fills) && TrueAverage(r', fills)
            && (fills == [] ==> r' == r)
            && (fills != [] ==>
                  r'.filledQty > 0.0 && r'.status == if QtyOf(fills) == r.ticket.qty then Filled else PartiallyFilled)
  {
    hide OmsExecuted;
    if fills != [] {
      var n := |fills| - 1;
      OwnRecordIsTrue(r, fills[..n]);
      var before := OmsExecutedAll(r, fills[..n]);
      BothBookAlike(before, fills[n]);
      ExecutedAverage(before, fills[..n], fills[n]);
      assert fills[..n] + [fills[n]] == fills;
    }
  }
}
