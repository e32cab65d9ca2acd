/** A dictionary of positions, as the simulated broker, the OMS and the portfolio tracker each
    keep one, and what is conserved when fills are posted to it. */
module Ledgers {
  import opened Core
  import opened Totals
  import opened Positions

  type Book = map<string, Pos>

  /** The position a fill is applied to: the recorded one, or a fresh flat one. */
  function Held(b: Book, i: Instrument): Pos {
    if i.key in b then b[i.key] else Flat(i)
  }

  function QtyAt(b: Book, key: string): real {
    if key in b then b[key].qty else 0.0
  }

  ghost function Posted(b: Book, f: Fill): Book {
    b[f.instrument.key := Traded(Held(b, f.instrument), f.Signed(), f.price)]
  }

  ghost function PostedAll(b: Book, fills: seq<Fill>): Book {
    if fills == [] then b else Posted(PostedAll(b, fills[..|fills| - 1]), fills[|fills| - 1])
  }

  lemma PostedAllSnoc(b: Book, fills: seq<Fill>, f: Fill)
    ensures PostedAll(b, fills + [f]) == Posted(PostedAll(b, fills), f)
  {
    assert (fills + [f])[..|fills|] == fills;
  }

  lemma {:induction false} PostedAllConcat(b: Book, fs: seq<Fill>, gs: seq<Fill>)
    ensures PostedAll(b, fs + gs) == PostedAll(PostedAll(b, fs), gs)
  {
    if gs == [] {
      assert fs + gs == fs;
    } else {
      var hs := gs[..|gs| - 1];
      assert fs + gs == (fs + hs) + [gs[|gs| - 1]];
      PostedAllSnoc(b, fs + hs, gs[|gs| - 1]);
      PostedAllConcat(b, fs, hs);
    }
  }

  /** The signed quantity that fills trade on one instrument. */
  function TradedOn(fills: seq<Fill>, key: string): real {
    if fills == [] then 0.0
    else
      var f := fills[|fills| - 1];
      TradedOn(fills[..|fills| - 1], key) + if f.instrument.key == key then f.Signed() else 0.0
  }

  /** Net quantity: a position moves by the signed quantities of its fills. */
  lemma {:induction false} QtyMoves(b: Book, fills: seq<Fill>, key: string)
    ensures QtyAt(PostedAll(b, fills), key) == QtyAt(b, key) + TradedOn(fills, key)
  {
    if fills != [] {
      QtyMoves(b, fills[..|fills| - 1], key);
    }
  }

  // ---- The dictionary of position objects ----

  /** The objects, all among `cells`, hold the book's values. Each is filed under its own
      instrument's key, so no two keys share an object. */
  ghost predicate Mirrors(h: map<string, Position>, b: Book, cells: set<Position>)
    reads cells
  {
    && h.Keys == b.Keys
    && forall k :: k in h ==>
         && h[k] in cells && h[k].instrument.key == k
         && Pos(h[k].instrument, h[k].qty, h[k].avgPrice, h[k].realisedPnl) == b[k]
  }

  /** `setdefault`, then `apply`: the posting step the three ledgers have in common. */
  method Post(h: map<string, Position>, f: Fill, ghost b: Book, ghost cells: set<Position>)
    returns (h': map<string, Position>, ghost cells': set<Position>)
    requires Mirrors(h, b, cells)
    modifies cells
    ensures Mirrors(h', Posted(b, f), cells') && cells <= cells' && fresh(cells' - cells)
  {
    var k := f.instrument.key;
    h', cells' := h, cells;
    if k !in h {
      var p := new Position(f.instrument);
      h', cells' := h[k := p], cells + {p};
    }
    h'[k].Apply(f);
  }

  // ---- Conservation ----

  /** What a fill does to cash: pay for a purchase, collect for a sale, and always pay the fees. */
  function CashFlow(f: Fill): real {
    (if f.side.Buy? then -(f.price * f.qty) else f.price * f.qty) - f.fees
  }

  function CashFlows(fills: seq<Fill>): seq<real> {
    seq(|fills|, i requires 0 <= i < |fills| => CashFlow(fills[i]))
  }

  function Fees(fills: seq<Fill>): seq<real> {
    seq(|fills|, i requires 0 <= i < |fills| => fills[i].fees)
  }

  /** Profit taken less the cost of what is still held. */
  function Carry(p: Pos): real {
    p.pnl - p.qty * p.avg
  }

  function Carries(b: Book): map<string, real> {
    map k | k in b :: Carry(b[k])
  }

  function RealisedPnls(b: Book): map<string, real> {
    map k | k in b :: b[k].pnl
  }

  function MarketValues(b: Book, marks: map<string, real>): map<string, real> {
    map k | k in b && k in marks :: b[k].MarketValue(marks[k])
  }

  function Pnls(b: Book, marks: map<string, real>): map<string, real> {
    map k | k in b && k in marks :: b[k].pnl + b[k].UnrealisedPnl(marks[k])
  }

  /** Signed notional, with the sign the cash ledgers give it. */
  lemma CashFlowBeforeFees(f: Fill)
    ensures CashFlow(f) + f.fees == -(f.Signed() * f.price)
  {
  }

  lemma CarryMoves(p: Pos, s: real, price: real, p': Pos)
    requires Accounts(p, s, price, p')
    ensures Carry(p') == Carry(p) - s * price
  {
  }

  lemma ReplacedCarry(b: Book, k: string, p: Pos, p': Pos, flow: real)
    requires p == (if k in b then b[k] else p) && (k !in b ==> Carry(p) == 0.0)
    requires Carry(p') == Carry(p) + flow
    ensures Total(Carries(b[k := p'])) == Total(Carries(b)) + flow
  {
    assert Carries(b[k := p']) == Carries(b)[k := Carry(p')];
    TotalUpdate(Carries(b), k, Carry(p'));
  }

  lemma TradedCarry(p: Pos, f: Fill)
    ensures Carry(Traded(p, f.Signed(), f.price)) == Carry(p) - f.Signed() * f.price
  {
    CarryMoves(p, f.Signed(), f.price, Traded(p, f.Signed(), f.price));
  }

  /** A fill moves the carry of its own position by exactly its cash flow before fees. */
  lemma PostedCarry(b: Book, f: Fill)
    ensures Total(Carries(Posted(b, f))) == Total(Carries(b)) + CashFlow(f) + f.fees
  {
    var p := Held(b, f.instrument);
    TradedCarry(p, f);
    CashFlowBeforeFees(f);
    ReplacedCarry(b, f.instrument.key, p, Traded(p, f.Signed(), f.price), CashFlow(f) + f.fees);
  }

  lemma {:induction false} PostedAllCarry(b: Book, fills: seq<Fill>)
    ensures Total(Carries(PostedAll(b, fills))) == Total(Carries(b)) + Sum(CashFlows(fills)) + Sum(Fees(fills))
  {
    if fills != [] {
      var n := |fills| - 1;
      PostedAllCarry(b, fills[..n]);
      PostedCarry(PostedAll(b, fills[..n]), fills[n]);
      assert CashFlows(fills)[..n] == CashFlows(fills[..n]);
      assert Fees(fills)[..n] == Fees(fills[..n]);
    }
  }

  /** The realised profit moves by that of the one position a fill changes. */
  lemma PostedPnl(b: Book, f: Fill)
    ensures var p := Held(b, f.instrument);
            Total(RealisedPnls(Posted(b, f))) == Total(RealisedPnls(b)) + Traded(p, f.Signed(), f.price).pnl - p.pnl
  {
    var k, p := f.instrument.key, Held(b, f.instrument);
    var p' := Traded(p, f.Signed(), f.price);
    TotalUpdate(RealisedPnls(b), k, p'.pnl);
    assert RealisedPnls(Posted(b, f)) == RealisedPnls(b)[k := p'.pnl];
  }

  /** The signed notional of the fills of one instrument. */
  function NotionalOf(fills: seq<Fill>, key: string): real {
    if fills == [] then 0.0
    else
      var f := fills[|fills| - 1];
      NotionalOf(fills[..|fills| - 1], key) + NotionalAt(f, key)
  }

  function NotionalAt(f: Fill, key: string): real {
    if f.instrument.key == key then f.Signed() * f.price else 0.0
  }

  function CarryAt(b: Book, key: string): real {
    if key in b then Carry(b[key]) else 0.0
  }

  lemma PostedCarryAt(b: Book, f: Fill, key: string)
    ensures CarryAt(Posted(b, f), key) == CarryAt(b, key) - NotionalAt(f, key)
  {
    if f.instrument.key == key {
      TradedCarry(Held(b, f.instrument), f);
      if key !in b {
        assert Carry(Flat(f.instrument)) == 0.0;
      }
    }
  }

  /** Per position, through opens, adds, reductions, closes and flips: carry is minus the signed
      notional of that instrument's fills. */
  lemma {:induction false} CarryIsMinusNotional(fills: seq<Fill>, key: string)
    ensures CarryAt(PostedAll(map[], fills), key) == -NotionalOf(fills, key)
  {
    if fills != [] {
      var n := |fills| - 1;
      CarryIsMinusNotional(fills[..n], key);
      PostedCarryAt(PostedAll(map[], fills[..n]), fills[n], key);
    }
  }

  /** The whole-run accounting identity: whatever was traded and wherever it is marked, cash plus
      market value is starting cash less fees plus realised and unrealised profit. */
  lemma AccountingIdentity(fills: seq<Fill>, marks: map<string, real>, startingCash: real)
    requires PostedAll(map[], fills).Keys <= marks.Keys
    ensures var b := PostedAll(map[], fills);
            startingCash + Sum(CashFlows(fills)) + Total(MarketValues(b, marks))
            == startingCash - Sum(Fees(fills)) + Total(Pnls(b, marks))
  {
    var b := PostedAll(map[], fills);
    PostedAllCarry(map[], fills);
    assert Carries(map[]) == map[];
    forall k | k in b
      ensures Pnls(b, marks)[k] == MarketValues(b, marks)[k] + Carries(b)[k]
    {
    }
    TotalAdd(MarketValues(b, marks), Carries(b), Pnls(b, marks));
  }
}
