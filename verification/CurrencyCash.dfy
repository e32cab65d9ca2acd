/** The broker's cash, currency by currency: each fill is paid and collected in its own. */
module CurrencyCash {
  import opened Core
  import opened Ledgers
  import opened SimModel
  import opened Risk
  import opened OmsModel
  import opened OrderLife
  import opened OrderTheorems
  import opened BacktestModel
  import opened LedgerTheorems

  function CashIn(cash: map<string, real>, currency: string): real {
    if currency in cash then cash[currency] else 0.0
  }

  /** What fills bring in one currency: sales less purchases less fees. */
  function FlowIn(fills: seq<Fill>, currency: string): real {
    if fills == [] then 0.0
    else
      var f := fills[|fills| - 1];
      FlowIn(fills[..|fills| - 1], currency)
      + if f.instrument.currency == currency then -(f.Signed() * f.price) - f.fees else 0.0
  }

  function Currencies(fills: seq<Fill>): set<string> {
    set f | f in fills :: f.instrument.currency
  }

  /** Each currency's cash moved by the flows of its own fills, and the currencies there are now are
      those there were and those of the fills. */
  ghost predicate PaidInOwn(cash: map<string, real>, fills: seq<Fill>, cash': map<string, real>) {
    && cash'.Keys == cash.Keys + Currencies(fills)
    && forall currency :: CashIn(cash', currency) == CashIn(cash, currency) + FlowIn(fills, currency)
  }

  lemma OnePaid(cash: map<string, real>, f: Fill, currency: string)
    ensures CashPosted(cash, f).Keys == cash.Keys + {f.instrument.currency}
    ensures CashIn(CashPosted(cash, f), currency)
            == CashIn(cash, currency) + if f.instrument.currency == currency then -(f.Signed() * f.price) - f.fees else 0.0
  {
    CashFlowBeforeFees(f);
  }

  lemma CurrenciesSnoc(fills: seq<Fill>, f: Fill)
    ensures Currencies(fills + [f]) == Currencies(fills) + {f.instrument.currency}
  {
  }

  lemma NoCurrencies()
    ensures Currencies([]) == {}
  {
  }

  lemma {:induction false} CashByCurrency(cash: map<string, real>, fills: seq<Fill>)
    ensures PaidInOwn(cash, fills, CashPostedAll(cash, fills))
  {
    hide Currencies, CashIn, CashPosted;
    if fills == [] {
      NoCurrencies();
    } else {
      var n := |fills| - 1;
      CashByCurrency(cash, fills[..n]);
      assert fills == fills[..n] + [fills[n]];
      CurrenciesSnoc(fills[..n], fills[n]);
      forall currency
        ensures CashIn(CashPostedAll(cash, fills), currency) == CashIn(cash, currency) + FlowIn(fills, currency)
      {
        OnePaid(CashPostedAll(cash, fills[..n]), fills[n], currency);
      }
      OnePaid(CashPostedAll(cash, fills[..n]), fills[n], "");
    }
  }

  /** Over any run of the broker, from any state. */
  lemma RunsPayInOwn(cfg: SimConfig, mode: string, s: SimState, es: seq<Event>)
    requires Known(s.orders, s.pending)
    ensures PaidInOwn(s.cash, Emissions(cfg, mode, s, es), Run(cfg, mode, s, es).cash)
    ensures Run(cfg, mode, s, es).queue == s.queue + Emissions(cfg, mode, s, es)
  {
    LedgersFollow(cfg, mode, s, es);
    CashByCurrency(s.cash, Emissions(cfg, mode, s, es));
  }

  /** The broker's positions and cash are those of all it ever emitted. */
  ghost predicate FollowsQueue(cfg: SimConfig, s: SimState) {
    Follows(NewSim(cfg), s.queue, s)
  }

  lemma TickFollowsQueue(cfg: SimConfig, w: World, bar: Bar)
    requires Coherent(w) && FollowsQueue(cfg, w.oms.sim)
    ensures FollowsQueue(cfg, BarTicked(cfg, w, bar).oms.sim)
  {
    hide Follows;
    var s, out := w.oms.sim, Emitted(cfg, w.oms.sim, bar.Quote());
    TickedFollows(cfg, s, bar.Quote());
    FollowsOn(NewSim(cfg), s.queue, s, out, Ticked(cfg, s, bar.Quote()));
    ForwardedAllParts(w.(oms := w.oms.(sim := Ticked(cfg, s, bar.Quote()))), out);
    FollowsLedgers(NewSim(cfg), s.queue + out, Ticked(cfg, s, bar.Quote()), BarTicked(cfg, w, bar).oms.sim);
    QueueFollows(s, out, Ticked(cfg, s, bar.Quote()));
  }

  lemma QueueFollows(s: SimState, out: seq<Fill>, s': SimState)
    requires Follows(s, out, s')
    ensures s'.queue == s.queue + out
  {
  }

  lemma FollowsLedgers(s: SimState, out: seq<Fill>, s': SimState, s'': SimState)
    requires Follows(s, out, s') && s''.queue == s'.queue && s''.positions == s'.positions && s''.cash == s'.cash
    ensures Follows(s, out, s'')
  {
  }

  lemma {:induction false} CuesFollowQueue(cfg: SimConfig, limits: RiskLimits, w: World, cues: seq<Cue>)
    requires Coherent(w) && FollowsQueue(cfg, w.oms.sim)
    ensures FollowsQueue(cfg, CuedAll(cfg, limits, w, cues).oms.sim)
  {
    hide VerdictOn, Checked;
    if cues != [] {
      CuesFollowQueue(cfg, limits, w, cues[..|cues| - 1]);
    }
  }

  lemma {:induction false} BacktestsFollowQueue(cfg: SimConfig, limits: RiskLimits, steps: seq<Step>)
    ensures FollowsQueue(cfg, Backtest(cfg, limits, steps).oms.sim)
  {
    hide FollowsQueue, BarTicked, CuedAll;
    if steps == [] {
      NothingToFollow(cfg);
    } else {
      var n := |steps| - 1;
      var w := Backtest(cfg, limits, steps[..n]);
      BacktestsFollowQueue(cfg, limits, steps[..n]);
      TickFollowsQueue(cfg, w, steps[n].bar);
      CuesFollowQueue(cfg, limits, BarTicked(cfg, w, steps[n].bar), steps[n].cues);
    }
  }

  lemma NothingToFollow(cfg: SimConfig)
    ensures FollowsQueue(cfg, NewSim(cfg))
  {
    assert NewSim(cfg).queue + [] == NewSim(cfg).queue;
  }

  /** After every backtest, over any instruments and currencies: the starting cash is in the base
      currency, and each currency has what the fills of its own instruments have brought. */
  lemma BacktestsPayInOwn(cfg: SimConfig, limits: RiskLimits, steps: seq<Step>)
    ensures var s := Backtest(cfg, limits, steps).oms.sim;
            PaidInOwn(map[cfg.baseCurrency := cfg.startingCash], s.queue, s.cash)
  {
    BacktestsFollowQueue(cfg, limits, steps);
    CashByCurrency(map[cfg.baseCurrency := cfg.startingCash], Backtest(cfg, limits, steps).oms.sim.queue);
  }
}
