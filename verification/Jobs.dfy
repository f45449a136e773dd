/** The scheduled jobs as functions: exactly which calls a scan, a round and a whole job make, in which market, and
    where an exception cuts them off. `Contexts.TradingContext` makes the same calls on the heap. */
module Jobs {
  import opened Backtests
  import opened Domain
  import opened Ledgers
  import opened Restart
  import opened Restarts
  import opened Runs
  import opened Safety
  import opened Stores
  import opened Trading

  /** What a context trades with; `bars` is the provider's history of a symbol at a batch, `None` raising. */
  datatype Setup = Setup(config: Config, market: Market, bars: (nat, Symbol) -> Option<Window>,
                         strategy: (Symbol, Window) -> SignalType)

  /** The calls made, and where they leave the account and the batch counter. */
  datatype Round = Round(evs: seq<Event>, desk: Desk, moment: nat, raised: bool)

  function Nothing(d: Desk, k: nat): Round {
    Round([], d, k, false)
  }

  function Once(p: Setup, d: Desk, ev: Event): Round {
    var step := Call(p.config, d, ev);
    Round([ev], step.desk, step.moment, step.raised)
  }

  /** One round after another; the second starts where the first ended. */
  function Joined(first: Round, second: Round): Round {
    Round(first.evs + second.evs, second.desk, second.moment, second.raised)
  }

  /** The signal on a symbol at a batch; none where its history raises or is empty. */
  function SignalOn(p: Setup, k: nat, s: Symbol): Option<Signal> {
    match p.bars(k, s)
    case None => None
    case Some(bars) => if bars == [] then None else Some(Signal(s, p.strategy(s, bars), p.config.terms.strategyName))
  }

  function ScanSymbol(p: Setup, d: Desk, k: nat, s: Symbol): Round {
    match SignalOn(p, k, s)
    case None => Nothing(d, k + 1)
    case Some(sig) => Once(p, d, OnSignal(p.market, k + 1, sig))
  }

  function ScanSymbols(p: Setup, d: Desk, k: nat, symbols: seq<Symbol>): Round {
    if symbols == [] then Nothing(d, k)
    else
      var before := ScanSymbols(p, d, k, symbols[..|symbols| - 1]);
      if before.raised then before
      else Joined(before, ScanSymbol(p, before.desk, before.moment, symbols[|symbols| - 1]))
  }

  /** Forced exits first, then the watchlist in its order. */
  function TradingScan(p: Setup, d: Desk, k: nat, watchlist: seq<Symbol>): Round {
    var exits := Once(p, d, ExitChecks(p.market, k));
    if exits.raised then exits else Joined(exits, ScanSymbols(p, exits.desk, exits.moment, watchlist))
  }

  function Snapshotted(p: Setup, before: Round): Round {
    if before.raised then before
    else Joined(before, Once(p, before.desk, SnapshotNow(p.market, before.moment)))
  }

  function ScanRound(p: Setup, d: Desk, k: nat, watchlist: seq<Symbol>, startsDay: bool): Round {
    var morning := if startsDay then Once(p, d, NewDay(p.market, k)) else Nothing(d, k);
    if morning.raised then morning
    else Snapshotted(p, Joined(morning, TradingScan(p, morning.desk, morning.moment, watchlist)))
  }

  function EveningRound(p: Setup, d: Desk, k: nat): Round {
    Snapshotted(p, Once(p, d, ExitChecks(p.market, k)))
  }

  datatype Job = Morning | Hourly | Evening

  function JobRound(p: Setup, d: Desk, k: nat, watchlist: seq<Symbol>, job: Job): Round {
    if job.Evening? then EveningRound(p, d, k) else ScanRound(p, d, k, watchlist, job.Morning?)
  }

  /** A job as the source lists its steps. */
  datatype Stage = Baseline | ForceExits | Look(symbol: Symbol) | Mark

  function Looks(watchlist: seq<Symbol>): seq<Stage> {
    seq(|watchlist|, i requires 0 <= i < |watchlist| => Look(watchlist[i]))
  }

  function Stages(watchlist: seq<Symbol>, job: Job): seq<Stage> {
    match job
    case Morning => [Baseline, ForceExits] + Looks(watchlist) + [Mark]
    case Hourly => [ForceExits] + Looks(watchlist) + [Mark]
    case Evening => [ForceExits, Mark]
  }

  /** The call a stage makes at a batch: for a symbol one on the strategy's signal, or none where its history raises or
      is empty. */
  function CallOf(p: Setup, k: nat, stage: Stage): Option<Event> {
    match stage
    case Baseline => Some(NewDay(p.market, k))
    case ForceExits => Some(ExitChecks(p.market, k))
    case Mark => Some(SnapshotNow(p.market, k))
    case Look(s) =>
      if p.bars(k, s).None? || p.bars(k, s).value == [] then None
      else
        Some(OnSignal(p.market, k + 1,
                      Signal(s, p.strategy(s, p.bars(k, s).value), p.config.terms.strategyName)))
  }

  /** Stages one after another, each from the account and the batch where the one before it ended, until one raises. */
  function InTurn(p: Setup, d: Desk, k: nat, stages: seq<Stage>): Round {
    if stages == [] then Round([], d, k, false)
    else
      var before := InTurn(p, d, k, stages[..|stages| - 1]);
      if before.raised then before
      else
        match CallOf(p, before.moment, stages[|stages| - 1])
        case None => before.(moment := before.moment + 1)
        case Some(ev) =>
          var step := Call(p.config, before.desk, ev);
          Round(before.evs + [ev], step.desk, step.moment, step.raised)
  }

  lemma OneStage(p: Setup, d: Desk, k: nat, stage: Stage)
    ensures InTurn(p, d, k, [stage])
         == match CallOf(p, k, stage) case Some(ev) => Once(p, d, ev) case None => Nothing(d, k + 1)
  {
    hide Call, CallOf;
    assert [stage][..0] == [];
  }

  lemma {:induction false} InTurnAppend(p: Setup, d: Desk, k: nat, a: seq<Stage>, b: seq<Stage>)
    ensures var first := InTurn(p, d, k, a);
      InTurn(p, d, k, a + b)
      == if first.raised then first else Joined(first, InTurn(p, first.desk, first.moment, b))
  {
    hide Call, CallOf;
    if b == [] {
      assert a + b == a;
    } else {
      InTurnAppend(p, d, k, a, b[..|b| - 1]);
      assert (a + b)[..|a + b| - 1] == a + b[..|b| - 1];
    }
  }

  lemma {:induction false} ScansAreInTurn(p: Setup, d: Desk, k: nat, symbols: seq<Symbol>)
    ensures ScanSymbols(p, d, k, symbols) == InTurn(p, d, k, Looks(symbols))
  {
    hide Call;
    if symbols != [] {
      var init, s := symbols[..|symbols| - 1], symbols[|symbols| - 1];
      ScansAreInTurn(p, d, k, init);
      assert Looks(symbols)[..|symbols| - 1] == Looks(init);
    }
  }

  lemma ScanIsInTurn(p: Setup, d: Desk, k: nat, watchlist: seq<Symbol>)
    ensures TradingScan(p, d, k, watchlist) == InTurn(p, d, k, [ForceExits] + Looks(watchlist))
  {
    hide Call, ScanSymbols, InTurn, Looks;
    InTurnAppend(p, d, k, [ForceExits], Looks(watchlist));
    OneStage(p, d, k, ForceExits);
    var exits := Once(p, d, ExitChecks(p.market, k));
    ScansAreInTurn(p, exits.desk, exits.moment, watchlist);
  }

  lemma MarkIsLast(p: Setup, d: Desk, k: nat, stages: seq<Stage>)
    ensures Snapshotted(p, InTurn(p, d, k, stages)) == InTurn(p, d, k, stages + [Mark])
  {
    hide Call, InTurn;
    var before := InTurn(p, d, k, stages);
    InTurnAppend(p, d, k, stages, [Mark]);
    OneStage(p, before.desk, before.moment, Mark);
  }

  /** Every job performs the steps of the source, all of them and in their order, until one raises: the baseline first
      in the morning only, then the forced exits, then every symbol of the watchlist except in the evening, and last
      the snapshot. */
  lemma JobIsItsStages(p: Setup, d: Desk, k: nat, watchlist: seq<Symbol>, job: Job)
    ensures JobRound(p, d, k, watchlist, job) == InTurn(p, d, k, Stages(watchlist, job))
  {
    hide Call, InTurn, Looks, TradingScan, Snapshotted;
    if job.Evening? {
      OneStage(p, d, k, ForceExits);
      MarkIsLast(p, d, k, [ForceExits]);
      assert [ForceExits] + [Mark] == [ForceExits, Mark];
    } else {
      var scan := [ForceExits] + Looks(watchlist);
      ScanIsInTurn(p, d, k, watchlist);
      if job.Hourly? {
        MarkIsLast(p, d, k, scan);
        JoinedToNothing(d, k, TradingScan(p, d, k, watchlist));
      } else {
        var morning := Once(p, d, NewDay(p.market, k));
        OneStage(p, d, k, Baseline);
        InTurnAppend(p, d, k, [Baseline], scan);
        ScanIsInTurn(p, morning.desk, morning.moment, watchlist);
        MarkIsLast(p, d, k, [Baseline] + scan);
        RaisedIsNotMarked(p, morning);
        assert [Baseline] + scan + [Mark] == [Baseline, ForceExits] + Looks(watchlist) + [Mark];
      }
    }
  }

  lemma JoinedToNothing(d: Desk, k: nat, r: Round)
    ensures Joined(Nothing(d, k), r) == r
  {
    assert [] + r.evs == r.evs;
  }

  lemma RaisedIsNotMarked(p: Setup, r: Round)
    ensures r.raised ==> Snapshotted(p, r) == r
  {
  }

  /** The signals of a scan that asks for the history of the `i`-th symbol at batch `ks[i]`. */
  function SignalCalls(p: Setup, symbols: seq<Symbol>, ks: seq<nat>): seq<Event>
    requires |ks| == |symbols|
  {
    if symbols == [] then []
    else
      var n := |symbols| - 1;
      var s, bars := symbols[n], p.bars(ks[n], symbols[n]);
      SignalCalls(p, symbols[..n], ks[..n])
      + (if bars.Some? && bars.value != [] then
           [OnSignal(p.market, ks[n] + 1, Signal(s, p.strategy(s, bars.value), p.config.terms.strategyName))]
         else [])
  }

  lemma {:induction false} LooksAreSignals(p: Setup, d: Desk, k: nat, symbols: seq<Symbol>) returns (ks: seq<nat>)
    ensures |ks| == |symbols| && InTurn(p, d, k, Looks(symbols)).evs <= SignalCalls(p, symbols, ks)
    ensures !InTurn(p, d, k, Looks(symbols)).raised ==>
              InTurn(p, d, k, Looks(symbols)).evs == SignalCalls(p, symbols, ks)
  {
    hide Call;
    ks := [];
    if symbols != [] {
      var init, s := symbols[..|symbols| - 1], symbols[|symbols| - 1];
      var earlier := LooksAreSignals(p, d, k, init);
      assert Looks(symbols)[..|symbols| - 1] == Looks(init);
      ks := earlier + [InTurn(p, d, k, Looks(init)).moment];
      assert ks[..|init|] == earlier;
    }
  }

  /** So what a job calls is a prefix of one list, and all of it unless it raises: new day (mornings), exit check, one
      signal for each watchlist symbol that has a history when it is asked for (not evenings), snapshot. */
  lemma JobShape(p: Setup, d: Desk, k: nat, watchlist: seq<Symbol>, job: Job)
    returns (exits: nat, ks: seq<nat>, mark: nat)
    ensures |ks| == |watchlist|
    ensures var round := JobRound(p, d, k, watchlist, job);
      var shape := (if job.Morning? then [NewDay(p.market, k)] else []) + [ExitChecks(p.market, exits)]
                   + (if job.Evening? then [] else SignalCalls(p, watchlist, ks)) + [SnapshotNow(p.market, mark)];
      && round.evs <= shape && (!round.raised ==> round.evs == shape)
      && (!job.Morning? ==> exits == k)
  {
    hide Call, JobRound, InTurn, Looks, SignalCalls;
    JobIsItsStages(p, d, k, watchlist, job);
    var opening := if job.Morning? then [Baseline] else [];
    var looks := if job.Evening? then [] else Looks(watchlist);
    assert Stages(watchlist, job) == opening + [ForceExits] + looks + [Mark];
    var a := InTurn(p, d, k, opening);
    OpeningRound(p, d, k, job);
    exits := a.moment;
    OneStage(p, a.desk, a.moment, ForceExits);
    InTurnAppend(p, d, k, opening, [ForceExits]);
    var b := InTurn(p, d, k, opening + [ForceExits]);
    InTurnAppend(p, d, k, opening + [ForceExits], looks);
    ks := LooksAreSignals(p, b.desk, b.moment, watchlist);
    NoStage(p, b.desk, b.moment);
    var c := InTurn(p, d, k, opening + [ForceExits] + looks);
    mark := c.moment;
    OneStage(p, c.desk, c.moment, Mark);
    InTurnAppend(p, d, k, opening + [ForceExits] + looks, [Mark]);
  }

  lemma NoStage(p: Setup, d: Desk, k: nat)
    ensures InTurn(p, d, k, []) == Nothing(d, k)
  {
  }

  lemma OpeningRound(p: Setup, d: Desk, k: nat, job: Job)
    ensures var opening := InTurn(p, d, k, if job.Morning? then [Baseline] else []);
      && (job.Morning? ==> opening == Once(p, d, NewDay(p.market, k)))
      && (!job.Morning? ==> opening == Nothing(d, k))
  {
    OneStage(p, d, k, Baseline);
    NoStage(p, d, k);
  }

  function SignalsOf(evs: seq<Event>): seq<Signal> {
    if evs == [] then []
    else
      SignalsOf(evs[..|evs| - 1]) + (if evs[|evs| - 1].OnSignal? then [evs[|evs| - 1].sig] else [])
  }

  /** The signals of a scan are those of its calls, HOLDs included. */
  lemma {:induction false} EverySignalIsReturned(evs: seq<Event>)
    ensures forall sig :: sig in SignalsOf(evs) <==> exists i :: 0 <= i < |evs| && SignalIs(evs[i], sig)
  {
    if evs != [] {
      var init, last := evs[..|evs| - 1], evs[|evs| - 1];
      EverySignalIsReturned(init);
      assert evs == init + [last];
      forall sig ensures sig in SignalsOf(evs) <==> exists i :: 0 <= i < |evs| && SignalIs(evs[i], sig) {
        if i :| 0 <= i < |init| && SignalIs(init[i], sig) {
          assert SignalIs(evs[i], sig);
        }
        if i :| 0 <= i < |evs| && SignalIs(evs[i], sig) && i < |init| {
          assert SignalIs(init[i], sig);
        }
      }
    }
  }

  predicate SignalIs(ev: Event, sig: Signal) {
    ev.OnSignal? && ev.sig == sig
  }

  lemma SignalsSnoc(evs: seq<Event>, ev: Event)
    ensures SignalsOf(evs + [ev]) == SignalsOf(evs) + (if ev.OnSignal? then [ev.sig] else [])
  {
    assert (evs + [ev])[..|evs|] == evs;
  }

  lemma {:induction false} SignalsAppend(a: seq<Event>, b: seq<Event>)
    ensures SignalsOf(a + b) == SignalsOf(a) + SignalsOf(b)
  {
    if b == [] {
      assert a + b == a;
    } else {
      SignalsAppend(a, b[..|b| - 1]);
      assert a + b == a + b[..|b| - 1] + [b[|b| - 1]];
      SignalsSnoc(a + b[..|b| - 1], b[|b| - 1]);
    }
  }

  lemma RunNothing(c: Config, d: Desk, st: Store)
    ensures Run(c, d, st, []) == Outcome(d, st, [], false)
  {
  }

  lemma RunOne(c: Config, d: Desk, st: Store, ev: Event)
    ensures var step := Call(c, d, ev);
      Run(c, d, st, [ev]) == Outcome(step.desk, Stored(c, d, st, ev), step.log, step.raised)
  {
    hide Call, Stored;
    assert [ev][..0] == [];
  }

  /** A run can be continued from where its first part left the account and the database. */
  lemma {:induction false} RunAppend(c: Config, d: Desk, st: Store, a: seq<Event>, b: seq<Event>)
    ensures var first := Run(c, d, st, a);
      var second := Run(c, first.desk, first.store, b);
      Run(c, d, st, a + b) == Outcome(second.desk, second.store, first.log + second.log, first.raised || second.raised)
  {
    hide Call, Stored;
    if b == [] {
      assert a + b == a;
    } else {
      RunAppend(c, d, st, a, b[..|b| - 1]);
      assert (a + b)[..|a + b| - 1] == a + b[..|b| - 1];
    }
  }

  /** Calls on one engine between two restarts, all in one market, each signal under the strategy's own name. */
  ghost predicate Calls(p: Setup, evs: seq<Event>) {
    forall i | 0 <= i < |evs| ::
      && !evs[i].Rebuild? && evs[i].m == p.market
      && (evs[i].OnSignal? ==> evs[i].sig.strategyName == p.config.terms.strategyName)
  }

  /** A round is what it says: the run of its calls ends where the round does, and only its last call can raise. */
  ghost predicate Faithful(p: Setup, d: Desk, r: Round) {
    && Calls(p, r.evs)
    && (forall st :: Run(p.config, d, st, r.evs).desk == r.desk && Run(p.config, d, st, r.evs).raised == r.raised)
    && (forall st, n | 0 <= n < |r.evs| :: !Run(p.config, d, st, r.evs[..n]).raised)
  }

  lemma NothingRuns(p: Setup, d: Desk, k: nat)
    ensures Faithful(p, d, Nothing(d, k))
  {
  }

  lemma OnceRuns(p: Setup, d: Desk, ev: Event)
    requires Calls(p, [ev])
    ensures Faithful(p, d, Once(p, d, ev))
  {
    hide Call;
    forall st ensures Run(p.config, d, st, [ev]).desk == Once(p, d, ev).desk
              ensures Run(p.config, d, st, [ev]).raised == Once(p, d, ev).raised {
      RunOne(p.config, d, st, ev);
    }
    assert [ev][..0] == [];
  }

  lemma JoinedRuns(p: Setup, d: Desk, first: Round, second: Round)
    requires Faithful(p, d, first) && !first.raised && Faithful(p, first.desk, second)
    ensures Faithful(p, d, Joined(first, second))
  {
    hide Run;
    var c, evs := p.config, first.evs + second.evs;
    forall st ensures Run(c, d, st, evs).desk == second.desk && Run(c, d, st, evs).raised == second.raised {
      RunAppend(c, d, st, first.evs, second.evs);
    }
    forall st, n | 0 <= n < |evs| ensures !Run(c, d, st, evs[..n]).raised {
      if n < |first.evs| {
        assert evs[..n] == first.evs[..n];
      } else {
        assert evs[..n] == first.evs + second.evs[..n - |first.evs|];
        RunAppend(c, d, st, first.evs, second.evs[..n - |first.evs|]);
      }
    }
  }

  lemma ScanSymbolRuns(p: Setup, d: Desk, k: nat, s: Symbol)
    ensures Faithful(p, d, ScanSymbol(p, d, k, s))
  {
    hide Faithful, Call;
    match SignalOn(p, k, s) {
      case None => NothingRuns(p, d, k + 1);
      case Some(sig) => OnceRuns(p, d, OnSignal(p.market, k + 1, sig));
    }
  }

  lemma {:induction false} ScanSymbolsRun(p: Setup, d: Desk, k: nat, symbols: seq<Symbol>)
    ensures Faithful(p, d, ScanSymbols(p, d, k, symbols))
  {
    hide Faithful, ScanSymbol;
    if symbols == [] {
      NothingRuns(p, d, k);
    } else {
      var before := ScanSymbols(p, d, k, symbols[..|symbols| - 1]);
      ScanSymbolsRun(p, d, k, symbols[..|symbols| - 1]);
      if !before.raised {
        ScanSymbolRuns(p, before.desk, before.moment, symbols[|symbols| - 1]);
        JoinedRuns(p, d, before, ScanSymbol(p, before.desk, before.moment, symbols[|symbols| - 1]));
      }
    }
  }

  lemma TradingScanRuns(p: Setup, d: Desk, k: nat, watchlist: seq<Symbol>)
    ensures Faithful(p, d, TradingScan(p, d, k, watchlist))
  {
    hide Faithful, ScanSymbols, Call;
    var exits := Once(p, d, ExitChecks(p.market, k));
    OnceRuns(p, d, ExitChecks(p.market, k));
    if !exits.raised {
      ScanSymbolsRun(p, exits.desk, exits.moment, watchlist);
      JoinedRuns(p, d, exits, ScanSymbols(p, exits.desk, exits.moment, watchlist));
    }
  }

  lemma SnapshottedRuns(p: Setup, d: Desk, before: Round)
    requires Faithful(p, d, before)
    ensures Faithful(p, d, Snapshotted(p, before))
  {
    hide Faithful, Call;
    if !before.raised {
      OnceRuns(p, before.desk, SnapshotNow(p.market, before.moment));
      JoinedRuns(p, d, before, Once(p, before.desk, SnapshotNow(p.market, before.moment)));
    }
  }

  /** Every job is a run of engine calls, all in the market it is given, cut off at its first exception. */
  lemma JobRuns(p: Setup, d: Desk, k: nat, watchlist: seq<Symbol>, job: Job)
    ensures Faithful(p, d, JobRound(p, d, k, watchlist, job))
  {
    hide Faithful, TradingScan, Snapshotted, Call;
    if job.Evening? {
      OnceRuns(p, d, ExitChecks(p.market, k));
      SnapshottedRuns(p, d, Once(p, d, ExitChecks(p.market, k)));
    } else {
      var morning := if job.Morning? then Once(p, d, NewDay(p.market, k)) else Nothing(d, k);
      if job.Morning? {
        OnceRuns(p, d, NewDay(p.market, k));
      } else {
        NothingRuns(p, d, k);
      }
      if !morning.raised {
        var scan := TradingScan(p, morning.desk, morning.moment, watchlist);
        TradingScanRuns(p, morning.desk, morning.moment, watchlist);
        JoinedRuns(p, d, morning, scan);
        SnapshottedRuns(p, d, Joined(morning, scan));
      }
    }
  }

  /** Such calls are lawful whatever the database holds, and contain no restart. */
  lemma CallsAreLawful(p: Setup, initial: real, d: Desk, st: Store, evs: seq<Event>)
    requires Calls(p, evs)
    ensures Lawful(p.config, initial, d, st, evs) && Uninterrupted(evs) && Seamless(p.config, d, st, evs)
  {
  }

  /** What the theorems about runs say of one job: it keeps the cash floor and the position limit. */
  lemma JobKeepsSafe(p: Setup, initial: real, d: Desk, st: Store, k: nat, watchlist: seq<Symbol>, job: Job)
    requires Safe(p.config, d.ledger) && p.config.terms.commission >= 0.0 && NonNegative(p.market)
    ensures Safe(p.config, JobRound(p, d, k, watchlist, job).desk.ledger)
  {
    hide Safe, JobRound, Lawful, Seamless, NonNegative;
    var round := JobRound(p, d, k, watchlist, job);
    JobRuns(p, d, k, watchlist, job);
    CallsAreLawful(p, initial, d, st, round.evs);
    SafeOverRuns(p.config, initial, d, st, round.evs);
    assert Run(p.config, d, st, round.evs).desk == round.desk;
  }

  /** A whole schedule is one run: a job rebuilds the account from the database that the jobs before it left, so it
      extends their run by a restart and its own calls, and lawfully so. */
  lemma JobExtendsRun(p: Setup, initial: real, d: Desk, st: Store, past: seq<Event>, r: Ledger, k: nat,
                      watchlist: seq<Symbol>, job: Job)
    requires Lawful(p.config, initial, d, st, past)
    requires RebuiltFrom(Run(p.config, d, st, past).store, p.config.terms.strategyName, initial, r)
    ensures var round := JobRound(p, Desk(r, None), k, watchlist, job);
      var all, before := past + [Rebuild(r)] + round.evs, Run(p.config, d, st, past);
      && Lawful(p.config, initial, d, st, all)
      && Run(p.config, d, st, all).desk == round.desk
      && Run(p.config, d, st, all).store == Run(p.config, Desk(r, None), before.store, round.evs).store
      && Run(p.config, d, st, all).raised == (before.raised || round.raised)
  {
    hide JobRound, Run, LawfulEvent, RebuiltFrom;
    var c, round, before := p.config, JobRound(p, Desk(r, None), k, watchlist, job), Run(p.config, d, st, past);
    JobRuns(p, Desk(r, None), k, watchlist, job);
    RestartOnly(c, before.desk, before.store, r);
    RunAppend(c, d, st, past, [Rebuild(r)]);
    RunAppend(c, d, st, past + [Rebuild(r)], round.evs);
    LawfulRestart(c, initial, before.store, r);
    RunNothing(c, before.desk, before.store);
    assert [Rebuild(r)][..0] == [];
    LawfulAppend(c, initial, d, st, past, [Rebuild(r)]);
    CallsAreLawful(p, initial, Desk(r, None), before.store, round.evs);
    LawfulAppend(c, initial, d, st, past + [Rebuild(r)], round.evs);
    assert Run(c, Desk(r, None), before.store, round.evs).raised == round.raised;
  }

  lemma RestartOnly(c: Config, d: Desk, st: Store, r: Ledger)
    ensures Run(c, d, st, [Rebuild(r)]) == Outcome(Desk(r, None), st, [], false)
  {
    RunOne(c, d, st, Rebuild(r));
    assert Persist(st, c.terms.strategyName, []) == st;
  }

  lemma LawfulRestart(c: Config, initial: real, st: Store, r: Ledger)
    requires RebuiltFrom(st, c.terms.strategyName, initial, r)
    ensures LawfulEvent(c, initial, st, Rebuild(r))
  {
  }

  lemma LawfulAppend(c: Config, initial: real, d: Desk, st: Store, a: seq<Event>, b: seq<Event>)
    requires Lawful(c, initial, d, st, a)
    requires forall i | 0 <= i < |b| ::
               LawfulEvent(c, initial, Run(c, Run(c, d, st, a).desk, Run(c, d, st, a).store, b[..i]).store, b[i])
    ensures Lawful(c, initial, d, st, a + b)
  {
    hide LawfulEvent, Run;
    forall i | 0 <= i < |a + b| ensures LawfulEvent(c, initial, Run(c, d, st, (a + b)[..i]).store, (a + b)[i]) {
      if i < |a| {
        assert (a + b)[..i] == a[..i];
      } else {
        assert (a + b)[..i] == a + b[..i - |a|];
        RunAppend(c, d, st, a, b[..i - |a|]);
      }
    }
  }

  /** One scheduled job, with what its context was rebuilt to. */
  datatype Shift = Shift(setup: Setup, k: nat, watchlist: seq<Symbol>, job: Job, rebuilt: Ledger)

  function ShiftRound(x: Shift): Round {
    JobRound(x.setup, Desk(x.rebuilt, None), x.k, x.watchlist, x.job)
  }

  function ShiftEvents(x: Shift): seq<Event> {
    [Rebuild(x.rebuilt)] + ShiftRound(x).evs
  }

  /** The events of a whole schedule of jobs. */
  function ScheduleEvents(shifts: seq<Shift>): seq<Event> {
    if shifts == [] then [] else ScheduleEvents(shifts[..|shifts| - 1]) + ShiftEvents(shifts[|shifts| - 1])
  }

  /** Each job is for this strategy, and rebuilds its context from what the jobs before it stored. */
  ghost predicate Scheduled(c: Config, initial: real, d: Desk, st: Store, shifts: seq<Shift>) {
    forall i | 0 <= i < |shifts| ::
      && shifts[i].setup.config == c
      && RebuiltFrom(Run(c, d, st, ScheduleEvents(shifts[..i])).store, c.terms.strategyName, initial, shifts[i].rebuilt)
  }

  lemma ScheduledInit(c: Config, initial: real, d: Desk, st: Store, shifts: seq<Shift>)
    requires Scheduled(c, initial, d, st, shifts) && shifts != []
    ensures Scheduled(c, initial, d, st, shifts[..|shifts| - 1])
  {
    hide ScheduleEvents, Run, RebuiltFrom;
    var init := shifts[..|shifts| - 1];
    forall i | 0 <= i < |init|
      ensures init[i].setup.config == c
      ensures RebuiltFrom(Run(c, d, st, ScheduleEvents(init[..i])).store, c.terms.strategyName, initial,
                          init[i].rebuilt) {
      assert init[..i] == shifts[..i];
    }
  }

  /** Within a round no call but the last can raise. */
  lemma RoundStops(p: Setup, d: Desk, st: Store, r: Round, j: nat)
    requires Faithful(p, d, r) && j + 1 < |r.evs|
    ensures !Call(p.config, Run(p.config, d, st, r.evs[..j]).desk, r.evs[j]).raised
  {
    hide Call;
    assert !Run(p.config, d, st, r.evs[..j + 1]).raised;
    assert r.evs[..j + 1][..j] == r.evs[..j];
    hide Stored;
  }

  lemma ShiftStops(c: Config, d: Desk, st: Store, past: seq<Event>, x: Shift)
    requires x.setup.config == c && StopsAtFailures(c, d, st, past)
    ensures StopsAtFailures(c, d, st, past + ShiftEvents(x))
  {
    hide Run, Call, JobRound;
    var all, before, round := past + ShiftEvents(x), Run(c, d, st, past), ShiftRound(x);
    JobRuns(x.setup, Desk(x.rebuilt, None), x.k, x.watchlist, x.job);
    RestartOnly(c, before.desk, before.store, x.rebuilt);
    forall i | 0 <= i < |all| - 1 && Failed(c, d, st, all, i) ensures all[i + 1].Rebuild? {
      if i + 1 < |past| {
        assert all[..i] == past[..i] && Failed(c, d, st, past, i);
      } else if i >= |past| {
        RestartNeverFails(c, Run(c, d, st, all[..i]).desk, x.rebuilt);
        var j := i - |past| - 1;
        if j >= 0 {
          assert all[..i] == past + [Rebuild(x.rebuilt)] + round.evs[..j];
          RunAppend(c, d, st, past, [Rebuild(x.rebuilt)]);
          RunAppend(c, d, st, past + [Rebuild(x.rebuilt)], round.evs[..j]);
          RoundStops(x.setup, Desk(x.rebuilt, None), before.store, round, j);
        }
      }
    }
  }

  lemma RestartNeverFails(c: Config, d: Desk, r: Ledger)
    ensures !Call(c, d, Rebuild(r)).raised
  {
  }

  /** A schedule is a lawful run that stops at its failures. */
  lemma {:induction false} ScheduleIsLawful(c: Config, initial: real, d: Desk, st: Store, shifts: seq<Shift>)
    requires Scheduled(c, initial, d, st, shifts)
    ensures Lawful(c, initial, d, st, ScheduleEvents(shifts)) && StopsAtFailures(c, d, st, ScheduleEvents(shifts))
  {
    hide Run, Lawful, StopsAtFailures, RebuiltFrom, JobRound, ShiftRound;
    if shifts == [] {
      NothingIsLawful(c, initial, d, st);
    } else {
      var init, x := shifts[..|shifts| - 1], shifts[|shifts| - 1];
      ScheduledInit(c, initial, d, st, shifts);
      ScheduleIsLawful(c, initial, d, st, init);
      var past := ScheduleEvents(init);
      ShiftStops(c, d, st, past, x);
      JobExtendsRun(x.setup, initial, d, st, past, x.rebuilt, x.k, x.watchlist, x.job);
      ShiftRoundIs(x);
      assert past + ([Rebuild(x.rebuilt)] + ShiftRound(x).evs) == past + [Rebuild(x.rebuilt)] + ShiftRound(x).evs;
    }
  }

  lemma ShiftRoundIs(x: Shift)
    ensures ShiftRound(x) == JobRound(x.setup, Desk(x.rebuilt, None), x.k, x.watchlist, x.job)
  {
  }

  lemma NothingIsLawful(c: Config, initial: real, d: Desk, st: Store)
    ensures Lawful(c, initial, d, st, []) && StopsAtFailures(c, d, st, [])
  {
  }

  lemma {:induction false} SchedulePrices(shifts: seq<Shift>)
    requires forall i | 0 <= i < |shifts| :: NonNegative(shifts[i].setup.market)
    ensures NonNegativePrices(ScheduleEvents(shifts))
  {
    hide JobRound, NonNegative, Run;
    if shifts != [] {
      var x := shifts[|shifts| - 1];
      SchedulePrices(shifts[..|shifts| - 1]);
      JobRuns(x.setup, Desk(x.rebuilt, None), x.k, x.watchlist, x.job);
    }
  }

  /** Cash floor and position limit over whole schedules of jobs, each beginning with a restart and cut off at its first
      exception: they are kept at the end of every schedule in which no job leaves a forced exit to the next. */
  lemma ScheduleKeepsSafe(c: Config, initial: real, d: Desk, st: Store, shifts: seq<Shift>)
    requires c.terms.persist && !IsRiskTag(c.terms.strategyName) && Synced(c, initial, d, st)
    requires Safe(c, d.ledger) && c.terms.commission >= 0.0
    requires Scheduled(c, initial, d, st, shifts) && forall i | 0 <= i < |shifts| :: NonNegative(shifts[i].setup.market)
    requires Restart.Increasing(Run(c, d, st, ScheduleEvents(shifts)).store.snapshots, c.terms.strategyName)
    requires forall i | 0 <= i < |ScheduleEvents(shifts)| && ScheduleEvents(shifts)[i].Rebuild? ::
               NoForcedExit(LogSince(c, d, st, ScheduleEvents(shifts)[..i]))
    ensures Safe(c, Run(c, d, st, ScheduleEvents(shifts)).desk.ledger)
  {
    hide Run, Lawful, StopsAtFailures, Safe, Synced, LogSince, NoForcedExit, ScheduleEvents, Scheduled, NonNegative,
      NonNegativePrices, Restart.Increasing, Unsaved, SafeAsStored;
    ScheduleIsLawful(c, initial, d, st, shifts);
    SchedulePrices(shifts);
    RestartsKeepSafe(c, initial, d, st, ScheduleEvents(shifts));
  }
}
