/** Whole runs: any sequence of calls on one strategy's engine, each in a market of its own, over one database. */
module Runs {
  import opened Discipline
  import opened Domain
  import opened Ledgers
  import opened Stores
  import opened Tally
  import opened Trading

  /** The calls a job makes, each in a market of its own from a batch `k` on. `Rebuild` is a restart: the context is
      built again from the database as `ledger`. */
  datatype Event = NewDay(m: Market, k: nat) | OnSignal(m: Market, k: nat, sig: Signal) | ExitChecks(m: Market, k: nat)
                 | SnapshotNow(m: Market, k: nat) | Rebuild(ledger: Ledger)

  datatype Outcome = Outcome(desk: Desk, store: Store, log: seq<Entry>, raised: bool)

  function Call(c: Config, d: Desk, ev: Event): Step {
    match ev
    case NewDay(m, k) => StartNewTradingDay(d, m, k)
    case OnSignal(m, k, sig) => ProcessSignal(c, d, m, k, sig)
    case ExitChecks(m, k) => RunExitChecks(c, d, m, k)
    case SnapshotNow(m, k) => Step(d, [], k + 1, GetAccount(d.ledger, m, k).None?)
    case Rebuild(l) => Step(Desk(l, None), [], 0, false)
  }

  function Stored(c: Config, d: Desk, st: Store, ev: Event): Store {
    if ev.SnapshotNow? then
      match GetAccount(d.ledger, ev.m, ev.k)
      case Some(a) => SaveAccountSnapshot(st, a, c.terms.strategyName)
      case None => st
    else if c.terms.persist then Persist(st, c.terms.strategyName, Call(c, d, ev).log)
    else st
  }

  /** A call that raises ends there; the next call finds what it left. */
  function Run(c: Config, d: Desk, st: Store, evs: seq<Event>): Outcome {
    if evs == [] then Outcome(d, st, [], false)
    else
      var before, ev := Run(c, d, st, evs[..|evs| - 1]), evs[|evs| - 1];
      var step := Call(c, before.desk, ev);
      Outcome(step.desk, Stored(c, before.desk, before.store, ev), before.log + step.log, before.raised || step.raised)
  }

  /** The strategy tags its signals with its own name, and restarts read the database as it is at that point. */
  ghost predicate Lawful(c: Config, initial: real, d: Desk, st: Store, evs: seq<Event>) {
    forall i | 0 <= i < |evs| :: LawfulEvent(c, initial, Run(c, d, st, evs[..i]).store, evs[i])
  }

  ghost predicate LawfulEvent(c: Config, initial: real, st: Store, ev: Event) {
    && (ev.OnSignal? ==> ev.sig.strategyName == c.terms.strategyName)
    && (ev.Rebuild? ==> RebuiltFrom(st, c.terms.strategyName, initial, ev.ledger))
  }

  predicate Uninterrupted(evs: seq<Event>) {
    forall i | 0 <= i < |evs| :: !evs[i].Rebuild?
  }

  ghost predicate NonNegative(m: Market) {
    forall k: nat, s | s in m.prices(k) :: m.prices(k)[s] >= 0.0
  }

  ghost predicate NonNegativePrices(evs: seq<Event>) {
    forall i | 0 <= i < |evs| :: !evs[i].Rebuild? ==> NonNegative(evs[i].m)
  }

  lemma LawfulInit(c: Config, initial: real, d: Desk, st: Store, evs: seq<Event>)
    requires Lawful(c, initial, d, st, evs) && evs != []
    ensures Lawful(c, initial, d, st, evs[..|evs| - 1])
    ensures LawfulEvent(c, initial, Run(c, d, st, evs[..|evs| - 1]).store, evs[|evs| - 1])
  {
    var init := evs[..|evs| - 1];
    forall i | 0 <= i < |init| ensures LawfulEvent(c, initial, Run(c, d, st, init[..i]).store, init[i]) {
      assert init[..i] == evs[..i];
    }
  }

  lemma CallIsOrderly(c: Config, initial: real, d: Desk, st: Store, ev: Event)
    requires d.ledger.book.Valid() && LawfulEvent(c, initial, st, ev) && !ev.Rebuild?
    ensures Orderly(c, d, ev.m, Call(c, d, ev))
  {
    match ev {
      case NewDay(m, k) =>
      case OnSignal(m, k, sig) => ProcessSignalIsOrderly(c, d, m, k, sig);
      case ExitChecks(m, k) => RunExitChecksIsOrderly(c, d, m, k);
      case SnapshotNow(m, k) =>
    }
  }

  lemma {:induction false} RunKeepsBook(c: Config, initial: real, d: Desk, st: Store, evs: seq<Event>)
    requires d.ledger.book.Valid() && Lawful(c, initial, d, st, evs)
    ensures Run(c, d, st, evs).desk.ledger.book.Valid()
  {
    if evs != [] {
      LawfulInit(c, initial, d, st, evs);
      RunKeepsBook(c, initial, d, st, evs[..|evs| - 1]);
      var before, ev := Run(c, d, st, evs[..|evs| - 1]), evs[|evs| - 1];
      if !ev.Rebuild? {
        CallIsOrderly(c, initial, before.desk, before.store, ev);
        ReplayKeepsBook(before.desk.ledger, Fills(Call(c, before.desk, ev).log));
      }
    }
  }

  /** Two ledgers that differ at most in the order of their positions and in the realized total. */
  ghost predicate SameAccount(a: Ledger, b: Ledger) {
    && a.cash == b.cash && a.unlimited == b.unlimited && a.book.held == b.book.held
    && a.book.Valid() && b.book.Valid()
  }

  lemma SameSize(a: Book, b: Book)
    requires a.Valid() && b.Valid() && a.held == b.held
    ensures |a.order| == |b.order|
  {
    OrderCounts(a.order, a.held.Keys);
    OrderCounts(b.order, b.held.Keys);
  }

  lemma SameAccountStep(c: Config, a: Ledger, b: Ledger, e: Entry)
    requires SameAccount(a, b) && LegalMove(c, b, e) && FaithfulSnapshot(b, e)
    ensures LegalMove(c, a, e) && FaithfulSnapshot(a, e) && SameAccount(After(a, e.fill), After(b, e.fill))
  {
    hide Notional, Profit, Averaged;
    SameSize(a.book, b.book);
    AfterKeepsBook(a, e.fill);
    AfterKeepsBook(b, e.fill);
  }

  lemma {:induction false} SameAccountLog(c: Config, a: Ledger, b: Ledger, log: seq<Entry>)
    requires SameAccount(a, b) && Disciplined(c, b, log)
    ensures Disciplined(c, a, log) && SameAccount(End(a, log), End(b, log))
  {
    hide LegalMove, SameAccount, Disciplined, FaithfulSnapshot, After;
    if log == [] {
      NothingIsDisciplined(c, a);
      NothingIsDisciplined(c, b);
    } else {
      hide End;
      var init, e := log[..|log| - 1], log[|log| - 1];
      DisciplinedInit(c, b, log);
      SameAccountLog(c, a, b, init);
      SameAccountStep(c, End(a, init), End(b, init), e);
      SingleMove(c, End(a, init), e);
      assert log == init + [e];
      DisciplinedAppend(c, a, init, [e]);
      EndSnoc(b, log);
    }
  }

  /** Each restart resumes the live cash and the live positions. */
  ghost predicate Seamless(c: Config, d: Desk, st: Store, evs: seq<Event>) {
    forall i | 0 <= i < |evs| && evs[i].Rebuild? :: SameAccount(Run(c, d, st, evs[..i]).desk.ledger, evs[i].ledger)
  }

  lemma SeamlessInit(c: Config, d: Desk, st: Store, evs: seq<Event>)
    requires Seamless(c, d, st, evs) && evs != []
    ensures Seamless(c, d, st, evs[..|evs| - 1])
    ensures evs[|evs| - 1].Rebuild? ==>
              SameAccount(Run(c, d, st, evs[..|evs| - 1]).desk.ledger, evs[|evs| - 1].ledger)
  {
    var init := evs[..|evs| - 1];
    forall i | 0 <= i < |init| && init[i].Rebuild?
      ensures SameAccount(Run(c, d, st, init[..i]).desk.ledger, init[i].ledger) {
      assert init[..i] == evs[..i];
    }
  }

  /** A run whose restarts are seamless is one disciplined log, as if there had been none: all its moves are legal from
      where it started, and their replay is the account it ends with. A run without restarts is such a run. */
  lemma {:induction false} RunIsDisciplined(c: Config, initial: real, d: Desk, st: Store, evs: seq<Event>)
    requires d.ledger.book.Valid() && Lawful(c, initial, d, st, evs) && Seamless(c, d, st, evs)
    ensures Disciplined(c, d.ledger, Run(c, d, st, evs).log)
    ensures SameAccount(End(d.ledger, Run(c, d, st, evs).log), Run(c, d, st, evs).desk.ledger)
    ensures Uninterrupted(evs) ==> Run(c, d, st, evs).desk.ledger == End(d.ledger, Run(c, d, st, evs).log)
  {
    hide SameAccount, Disciplined, Call, Stored;
    if evs == [] {
      NothingIsDisciplined(c, d.ledger);
      SameAsItself(d.ledger);
    } else {
      hide End;
      var init, ev := evs[..|evs| - 1], evs[|evs| - 1];
      LawfulInit(c, initial, d, st, evs);
      SeamlessInit(c, d, st, evs);
      RunIsDisciplined(c, initial, d, st, init);
      RunKeepsBook(c, initial, d, st, init);
      DisciplinedRunStep(c, initial, d.ledger, Run(c, d, st, init), ev);
      assert Uninterrupted(evs) ==> Uninterrupted(init);
    }
  }

  lemma SameAsItself(l: Ledger)
    requires l.book.Valid()
    ensures SameAccount(l, l)
  {
  }

  lemma DisciplinedRunStep(c: Config, initial: real, l: Ledger, before: Outcome, ev: Event)
    requires before.desk.ledger.book.Valid() && LawfulEvent(c, initial, before.store, ev)
    requires Disciplined(c, l, before.log) && SameAccount(End(l, before.log), before.desk.ledger)
    requires ev.Rebuild? ==> SameAccount(before.desk.ledger, ev.ledger)
    ensures var step := Call(c, before.desk, ev);
      && Disciplined(c, l, before.log + step.log) && SameAccount(End(l, before.log + step.log), step.desk.ledger)
      && (!ev.Rebuild? && before.desk.ledger == End(l, before.log) ==>
            step.desk.ledger == End(l, before.log + step.log))
  {
    hide Disciplined, LegalMove;
    if ev.Rebuild? {
      assert before.log + [] == before.log;
    } else {
      hide SameAccount, Call, End;
      var step := Call(c, before.desk, ev);
      CallIsOrderly(c, initial, before.desk, before.store, ev);
      SameAccountLog(c, End(l, before.log), before.desk.ledger, step.log);
      DisciplinedAppend(c, l, before.log, step.log);
    }
  }

  lemma UninterruptedIsSeamless(c: Config, d: Desk, st: Store, evs: seq<Event>)
    requires Uninterrupted(evs)
    ensures Seamless(c, d, st, evs)
  {
  }

  lemma CallPricesAreQuoted(c: Config, initial: real, d: Desk, st: Store, ev: Event)
    requires d.ledger.book.Valid() && LawfulEvent(c, initial, st, ev) && !ev.Rebuild? && NonNegative(ev.m)
    ensures forall e :: e in Call(c, d, ev).log ==> e.fill.price >= 0.0
  {
    CallIsOrderly(c, initial, d, st, ev);
    var log := Call(c, d, ev).log;
    forall i | 0 <= i < |log| ensures log[i].fill.price >= 0.0 {
      assert QuotedBy(ev.m, log[i].fill);
    }
  }

  lemma {:induction false} RunPricesAreQuoted(c: Config, initial: real, d: Desk, st: Store, evs: seq<Event>)
    requires d.ledger.book.Valid() && Lawful(c, initial, d, st, evs) && NonNegativePrices(evs)
    ensures forall e :: e in Run(c, d, st, evs).log ==> e.fill.price >= 0.0
  {
    hide Call, Stored, NonNegative;
    if evs != [] {
      var init, ev := evs[..|evs| - 1], evs[|evs| - 1];
      LawfulInit(c, initial, d, st, evs);
      RunPricesAreQuoted(c, initial, d, st, init);
      RunKeepsBook(c, initial, d, st, init);
      var before := Run(c, d, st, init);
      if ev.Rebuild? {
        RebuildFillsNothing(c, before.desk, ev);
      } else {
        CallPricesAreQuoted(c, initial, before.desk, before.store, ev);
      }
    }
  }

  lemma RebuildFillsNothing(c: Config, d: Desk, ev: Event)
    requires ev.Rebuild?
    ensures Call(c, d, ev).log == []
  {
  }
}
