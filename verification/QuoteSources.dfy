/** Where the close of a placement comes from: each order was priced, and each refusal made, at the
    quote that one state of the run showed while the call was being decided. */
module QuoteSources {
  import opened Options
  import opened Placement
  import opened Protocol

  /** Transaction `t` is about to look its instrument up, and the market shows `quote`. */
  predicate LooksUp(s: State, t: nat, req: Request, quote: Quote) {
    t < |s.txs| && s.txs[t] == Tx(req, KnownUser) && quote == QuoteOf(s.quotes, req.instrumentId)
  }

  /** Some state of the run shows `quote` to transaction `t` at its look-up. */
  ghost predicate Shown(s: State, steps: seq<Step>, t: nat, req: Request, quote: Quote) {
    exists m :: 0 <= m <= |steps| && LooksUp(Run(s, steps[..m]), t, req, quote)
  }

  lemma StaysShown(s: State, steps: seq<Step>, t: nat, req: Request, quote: Quote)
    requires steps != [] && Shown(s, steps[..|steps| - 1], t, req, quote)
    ensures Shown(s, steps, t, req, quote)
  {
    var before := steps[..|steps| - 1];
    var m :| 0 <= m <= |before| && LooksUp(Run(s, before[..m]), t, req, quote);
    assert before[..m] == steps[..m];
  }

  /** What a transaction past its look-up was decided on, if it was decided on a quote. */
  predicate DecidedOn(phase: Phase, quote: Quote) {
    match phase
    case Sizing(close, _) => quote == Quote(false, Some(close))
    case CashRead(close, _, _) => quote == Quote(false, Some(close))
    case Ready(close, _, _, _) => quote == Quote(false, Some(close))
    case Inserted(q, _) => quote == q
    case Refused(known, q, _) => known && quote == q
    case _ => false
  }

  /** The user of a phase was found, or was not, as the users table says. */
  predicate FoundRight(phase: Phase, known: bool) {
    match phase
    case Refused(k, _, _) => k == known
    case KnownUser => known
    case Sizing(_, _) => known
    case CashRead(_, _, _) => known
    case Ready(_, _, _, _) => known
    case Inserted(_, _) => known
    case _ => true
  }

  ghost predicate TxSourced(s: State, steps: seq<Step>, t: nat, tx: Tx) {
    && FoundRight(tx.phase, tx.req.userId in s.users)
    && forall quote :: DecidedOn(tx.phase, quote) ==> Shown(s, steps, t, tx.req, quote)
  }

  /** An answer that looked anything up has the user and the quote of the run. */
  ghost predicate EventSourced(s: State, steps: seq<Step>, e: Event) {
    e.PlaceEvent? && !e.answer.Replayed? ==>
      && e.known == (e.req.userId in s.users)
      && (e.known ==> Shown(s, steps, e.t, e.req, e.quote))
  }

  ghost predicate Sourced(s: State, steps: seq<Step>) {
    var s' := Run(s, steps);
    && s'.users == s.users
    && (forall t :: 0 <= t < |s'.txs| ==> TxSourced(s, steps, t, s'.txs[t]))
    && (forall k :: 0 <= k < |s'.log| ==> EventSourced(s, steps, s'.log[k]))
  }

  /** A statement that moves a transaction decides on what it was decided on, or looks up now. */
  lemma NextIsSourced(s: State, tx: Tx, t: nat, quote: Quote)
    requires t < |s.txs| && s.txs[t] == tx && !tx.phase.Done? && DecidedOn(NextPhase(s, tx), quote)
    ensures DecidedOn(tx.phase, quote) || LooksUp(s, t, tx.req, quote)
  {
  }

  lemma NextIsFound(s: State, tx: Tx)
    requires !tx.phase.Done? && FoundRight(tx.phase, tx.req.userId in s.users)
    ensures FoundRight(NextPhase(s, tx), tx.req.userId in s.users)
  {
  }

  /** What takes effect was decided on what its transaction was. */
  lemma EventIsDecided(s: State, t: nat, tx: Tx)
    requires !tx.phase.Done?
    ensures forall e :: e in EventOf(s, t, tx) ==>
              && e.PlaceEvent? && e.t == t && e.req == tx.req
              && (e.answer.Replayed?
                  || (e.known && tx.phase.Inserted? && DecidedOn(tx.phase, e.quote))
                  || (tx.phase.Refused? && e.known == tx.phase.known && (e.known ==> DecidedOn(tx.phase, e.quote))))
  {
  }

  lemma OthersStandStill(s: State, step: Step, t: nat)
    requires t < |s.txs| && !(step == Advance(t) && Enabled(s, step))
    ensures t < |Next(s, step).txs| && Next(s, step).txs[t] in {s.txs[t], Tx(s.txs[t].req, Done(Shed))}
  {
  }

  lemma NewTxIsQueued(s: State, step: Step)
    ensures |Next(s, step).txs| >= |s.txs|
    ensures forall t :: |s.txs| <= t < |Next(s, step).txs| ==> Next(s, step).txs[t].phase.Queued?
  {
  }

  lemma MovedStaysSourced(s: State, steps: seq<Step>, t: nat)
    requires steps != [] && steps[|steps| - 1] == Advance(t)
    requires var was := Run(s, steps[..|steps| - 1]);
             was.users == s.users && Enabled(was, Advance(t)) && TxSourced(s, steps[..|steps| - 1], t, was.txs[t])
    ensures var was := Run(s, steps[..|steps| - 1]);
            TxSourced(s, steps, t, Tx(was.txs[t].req, NextPhase(was, was.txs[t])))
  {
    var before := steps[..|steps| - 1];
    var was := Run(s, before);
    var tx := was.txs[t];
    NextIsFound(was, tx);
    forall quote | DecidedOn(NextPhase(was, tx), quote) ensures Shown(s, steps, t, tx.req, quote) {
      NextIsSourced(was, tx, t, quote);
      if DecidedOn(tx.phase, quote) {
        StaysShown(s, steps, t, tx.req, quote);
      } else {
        assert LooksUp(Run(s, steps[..|before|]), t, tx.req, quote);
      }
    }
  }

  lemma TxStaysSourced(s: State, steps: seq<Step>, t: nat)
    requires steps != [] && Sourced(s, steps[..|steps| - 1]) && t < |Run(s, steps).txs|
    ensures TxSourced(s, steps, t, Run(s, steps).txs[t])
  {
    var before, last := steps[..|steps| - 1], steps[|steps| - 1];
    var was := Run(s, before);
    NewTxIsQueued(was, last);
    if t < |was.txs| {
      assert TxSourced(s, before, t, was.txs[t]);
      if last == Advance(t) && Enabled(was, last) {
        MovedStaysSourced(s, steps, t);
      } else {
        OthersStandStill(was, last, t);
        forall quote | DecidedOn(was.txs[t].phase, quote) ensures Shown(s, steps, t, was.txs[t].req, quote) {
          StaysShown(s, steps, t, was.txs[t].req, quote);
        }
      }
    }
  }

  lemma EventStaysSourced(s: State, steps: seq<Step>, k: nat)
    requires steps != [] && Sourced(s, steps[..|steps| - 1]) && k < |Run(s, steps).log|
    ensures EventSourced(s, steps, Run(s, steps).log[k])
  {
    var before, last := steps[..|steps| - 1], steps[|steps| - 1];
    var was, e := Run(s, before), Run(s, steps).log[k];
    if k < |was.log| {
      assert e == was.log[k] && EventSourced(s, before, e);
      if e.PlaceEvent? && !e.answer.Replayed? && e.known {
        StaysShown(s, steps, e.t, e.req, e.quote);
      }
    } else if last.Advance? {
      var tx := was.txs[last.t];
      assert e in EventOf(was, last.t, tx) && TxSourced(s, before, last.t, tx);
      EventIsDecided(was, last.t, tx);
      if !e.answer.Replayed? && e.known {
        StaysShown(s, steps, e.t, e.req, e.quote);
      }
    }
  }

  lemma {:induction false} RunIsSourced(s: State, steps: seq<Step>)
    requires Seed(s)
    ensures Sourced(s, steps)
  {
    if steps != [] {
      RunIsSourced(s, steps[..|steps| - 1]);
      forall t | 0 <= t < |Run(s, steps).txs| ensures TxSourced(s, steps, t, Run(s, steps).txs[t]) {
        TxStaysSourced(s, steps, t);
      }
      forall k | 0 <= k < |Run(s, steps).log| ensures EventSourced(s, steps, Run(s, steps).log[k]) {
        EventStaysSourced(s, steps, k);
      }
    }
  }
}
