/** One wave of a load run over the gateway and the recorder, among whatever other clients send and
    the back office scans meanwhile: when the fold at its end leaves nothing behind. */
module LoadWave {
  import opened Options
  import opened AttemptsStore
  import opened Gateway
  import opened Backoffice
  import opened LoadRun

  /** One call with its dice and its answers. */
  datatype Sending = Sending(call: Call, key: string, dice: Dice, first: Reply, second: Call, again: Reply)

  datatype Turn =
    | Ours(sending: Sending)        // a call of the wave
    | Others(sending: Sending)      // anybody else's, through the same gateway
    | ScanAt(now: int)              // the back office looks at what has landed

  predicate Sound(turn: Turn) {
    !turn.ScanAt? && turn.sending.first.Heard? ==> turn.sending.first.status != 0
  }

  function RowsOf(turn: Turn): nat {
    if turn.ScanAt? then 0 else RowsLeft(turn.sending.call, turn.sending.dice, turn.sending.first)
  }

  function Rows(turns: seq<Turn>): nat {
    if turns == [] then 0 else Rows(turns[..|turns| - 1]) + RowsOf(turns[|turns| - 1])
  }

  function OursIn(turns: seq<Turn>): nat {
    if turns == [] then 0 else OursIn(turns[..|turns| - 1]) + if turns[|turns| - 1].Ours? then 1 else 0
  }

  /** Where the wave's first call is among the turns, or their end. */
  function FirstOurs(turns: seq<Turn>): (f: nat)
    ensures f <= |turns| && (f < |turns| ==> turns[f].Ours?) && forall i :: 0 <= i < f ==> !turns[i].Ours?
  {
    if turns == [] then 0 else if turns[0].Ours? then 0 else 1 + FirstOurs(turns[1..])
  }

  lemma {:induction false} RowsSplit(before: seq<Turn>, after: seq<Turn>)
    ensures Rows(before + after) == Rows(before) + Rows(after)
  {
    if after == [] {
      assert before + after == before;
    } else {
      RowsSplit(before, after[..|after| - 1]);
      assert (before + after)[..|before + after| - 1] == before + after[..|after| - 1];
    }
  }

  /** Between one row and four for each call. */
  lemma {:induction false} OneToFourRows(turns: seq<Turn>)
    requires forall i :: 0 <= i < |turns| ==> turns[i].Ours?
    ensures |turns| <= Rows(turns) <= 4 * |turns|
    ensures (forall i :: 0 <= i < |turns| ==> RowsOf(turns[i]) == 4) ==> Rows(turns) == 4 * |turns|
  {
    if turns != [] {
      OneToFourRows(turns[..|turns| - 1]);
    }
  }

  /** What a run, the back office and the recorder they share keep between them. */
  ghost predicate Sharing(run: LoadRun, gateway: GatewayService, service: BackofficeService)
    reads run, service, run.attempts, service.attempts
  {
    && run.attempts == gateway.attempts == service.attempts && run.attempts.capacity == ATTEMPTS_CAPACITY
    && run.Folding() && run.Hearing() && run.Stepping() && run.Watching() && service.Watching()
  }

  /** Recording more leaves what is recorded. */
  lemma MoreRecorded(log: seq<Attempt>, more: seq<Attempt>)
    ensures Grown(log, log + more)
  {
  }

  /** The first row a send leaves is under the id and the status its caller is handed. */
  lemma FirstRowTold(sending: Sending, lost: nat)
    ensures var rows := Trace(sending.call, sending.key, sending.dice, sending.first, sending.second, sending.again,
            lost);
            rows != [] && rows[0].id == lost && rows[0].status == Told(sending.call, sending.dice, sending.first)
  {
  }

  /** One call through the gateway, which anybody may make: the recorder grows by what it leaves. */
  method SendOne(gateway: GatewayService, sending: Sending) returns (id: nat, status: int)
    requires gateway.attempts.Valid() && gateway.attempts.capacity == ATTEMPTS_CAPACITY && Sound(Ours(sending))
    modifies gateway.attempts
    ensures gateway.attempts.Valid() && Grown(old(gateway.attempts.log), gateway.attempts.log)
    ensures |gateway.attempts.log| == |old(gateway.attempts.log)| + RowsOf(Ours(sending))
    ensures id == |old(gateway.attempts.log)| + 1 <= |gateway.attempts.log|
    ensures gateway.attempts.log[id - 1].status == status
  {
    ghost var log := gateway.attempts.log;
    var result := gateway.Send(sending.call, sending.key, sending.dice, sending.first, sending.second, sending.again);
    ghost var rows := gateway.attempts.log[|log|..];
    FirstRowTold(sending, |log| + 1);
    MoreRecorded(log, rows);
    id, status := result.attemptId, result.status;
  }

  /** One call, of whoever's: nobody's books are disturbed by the rows it leaves. */
  method Recording(run: LoadRun, gateway: GatewayService, service: BackofficeService, sending: Sending)
    returns (id: nat, status: int)
    requires Sharing(run, gateway, service) && Sound(Ours(sending))
    modifies run.attempts
    ensures Sharing(run, gateway, service)
    ensures |run.attempts.log| == |old(run.attempts.log)| + RowsOf(Ours(sending))
    ensures id == |old(run.attempts.log)| + 1 <= |run.attempts.log| && run.attempts.log[id - 1].status == status
    ensures id !in run.pending
  {
    id, status := SendOne(gateway, sending);
    service.OthersRecord();
    run.OthersRecord();
  }

  /** A call of the wave's own is counted, and waited for. */
  method TakeOurs(run: LoadRun, gateway: GatewayService, service: BackofficeService, sending: Sending)
    requires Sharing(run, gateway, service) && Sound(Ours(sending)) && run.asking > 0
    modifies run`sent, run`pending, run`asking, run`silent, run.attempts
    ensures Sharing(run, gateway, service) && run.asking == old(run.asking) - 1
    ensures |run.attempts.log| == |old(run.attempts.log)| + RowsOf(Ours(sending))
    ensures run.pending == old(run.pending) + {|old(run.attempts.log)| + 1}
  {
    var id, status := Recording(run, gateway, service, sending);
    run.CountRecorded(id, status);
  }

  /** The run waits for its own calls alone, the first of them recorded after `before` rows. */
  ghost predicate WaitingFrom(any: bool, before: nat, base: nat, pending: set<nat>, size: nat) {
    && (forall id :: id in pending ==> base < id <= size)
    && if any then First(pending, before + 1) else pending == {}
  }

  /** After the turns so far. */
  ghost predicate Waiting(turns: seq<Turn>, base: nat, pending: set<nat>, size: nat) {
    var f := FirstOurs(turns);
    size == base + Rows(turns) && WaitingFrom(f < |turns|, base + Rows(turns[..f]), base, pending, size)
  }

  lemma {:induction false} FirstOursNext(turns: seq<Turn>, turn: Turn)
    ensures FirstOurs(turns + [turn]) ==
            if FirstOurs(turns) < |turns| || turn.Ours? then FirstOurs(turns) else |turns| + 1
  {
    if turns != [] && !turns[0].Ours? {
      FirstOursNext(turns[1..], turn);
      assert (turns + [turn])[1..] == turns[1..] + [turn];
    }
  }

  lemma WaitingNext(turns: seq<Turn>, turn: Turn, base: nat, pending: set<nat>, size: nat)
    requires Waiting(turns, base, pending, size)
    ensures var own := if turn.Ours? then {size + 1} else {};
            Waiting(turns + [turn], base, pending + own, size + RowsOf(turn))
  {
    var turns' := turns + [turn];
    FirstOursNext(turns, turn);
    assert turns'[..|turns|] == turns;
    assert turns'[..FirstOurs(turns)] == turns[..FirstOurs(turns)];
  }

  /** What the ring must hold from the first call waited for on. */
  lemma WholeWave(turns: seq<Turn>, f: nat, base: nat, pending: set<nat>, size: nat)
    requires f <= |turns| && size == base + Rows(turns)
    requires WaitingFrom(f < |turns|, base + Rows(turns[..f]), base, pending, size)
    ensures f < |turns| ==> exists first :: First(pending, first)
    ensures forall first :: First(pending, first) ==> size - first + 1 == Rows(turns[f..])
    ensures f == |turns| ==> pending == {} && Rows(turns[f..]) == 0
  {
    SplitAt(turns, f);
  }

  lemma SplitAt(turns: seq<Turn>, f: nat)
    requires f <= |turns|
    ensures Rows(turns) == Rows(turns[..f]) + Rows(turns[f..])
    ensures f == |turns| ==> turns[f..] == []
  {
    RowsSplit(turns[..f], turns[f..]);
    assert turns[..f] + turns[f..] == turns;
  }

  lemma {:induction false} OursPrefix(turns: seq<Turn>, n: nat)
    requires n <= |turns|
    ensures OursIn(turns[..n]) <= OursIn(turns)
  {
    if n == |turns| {
      assert turns[..n] == turns;
    } else {
      OursPrefix(turns[..|turns| - 1], n);
      assert turns[..|turns| - 1][..n] == turns[..n];
    }
  }

  method TakeTurn(run: LoadRun, gateway: GatewayService, service: BackofficeService, turn: Turn)
    requires Sharing(run, gateway, service) && Sound(turn) && (turn.Ours? ==> run.asking > 0)
    modifies run`sent, run`pending, run`asking, run`silent, run.attempts
    modifies service`scanned, service`simulatedOrders, service`pending, service`seen
    ensures Sharing(run, gateway, service) && run.asking == old(run.asking) - if turn.Ours? then 1 else 0
    ensures |run.attempts.log| == |old(run.attempts.log)| + RowsOf(turn)
    ensures run.pending == old(run.pending) + if turn.Ours? then {|old(run.attempts.log)| + 1} else {}
  {
    match turn
    case Ours(sending) => TakeOurs(run, gateway, service, sending);
    case Others(sending) => var _, _ := Recording(run, gateway, service, sending);
    case ScanAt(now) => var _, _ := service.Scan(now);
  }

  /** The next turn of a wave under way. */
  method TakeNext(run: LoadRun, gateway: GatewayService, service: BackofficeService, turns: seq<Turn>, n: nat,
                  ghost base: nat)
    requires n < |turns| && Sound(turns[n])
    requires Sharing(run, gateway, service) && (turns[n].Ours? ==> run.asking > 0)
    requires Waiting(turns[..n], base, run.pending, |run.attempts.log|)
    modifies run`sent, run`pending, run`asking, run`silent, run.attempts
    modifies service`scanned, service`simulatedOrders, service`pending, service`seen
    ensures Sharing(run, gateway, service) && run.asking == old(run.asking) - if turns[n].Ours? then 1 else 0
    ensures Waiting(turns[..n + 1], base, run.pending, |run.attempts.log|)
  {
    NextTurn(turns, n);
    WaitingNext(turns[..n], turns[n], base, run.pending, |run.attempts.log|);
    TakeTurn(run, gateway, service, turns[n]);
  }

  /** The turns of a wave, its calls settled and not folded yet. */
  method TakeAll(run: LoadRun, gateway: GatewayService, service: BackofficeService, turns: seq<Turn>)
    requires Sharing(run, gateway, service) && run.pending == {} && OursIn(turns) <= run.asking
    requires forall i :: 0 <= i < |turns| ==> Sound(turns[i])
    modifies run`sent, run`pending, run`asking, run`silent, run.attempts
    modifies service`scanned, service`simulatedOrders, service`pending, service`seen
    ensures Sharing(run, gateway, service)
    ensures Waiting(turns, |old(run.attempts.log)|, run.pending, |run.attempts.log|)
  {
    ghost var base := |run.attempts.log|;
    for n := 0 to |turns|
      invariant Sharing(run, gateway, service) && OursIn(turns[..n]) + run.asking == old(run.asking)
      invariant Waiting(turns[..n], base, run.pending, |run.attempts.log|)
    {
      NextTurn(turns, n);
      TakeNext(run, gateway, service, turns, n, base);
    }
    assert turns[..|turns|] == turns;
  }

  lemma NextTurn(turns: seq<Turn>, n: nat)
    requires n < |turns|
    ensures turns[..n + 1] == turns[..n] + [turns[n]]
    ensures OursIn(turns[..n + 1]) == OursIn(turns[..n]) + if turns[n].Ours? then 1 else 0
    ensures OursIn(turns[..n + 1]) <= OursIn(turns)
  {
    assert turns[..n + 1][..n] == turns[..n];
    OursPrefix(turns, n + 1);
  }

  /** A wave that starts with nothing pending: its fold leaves nothing pending exactly when the rows
      recorded from its first call on, anybody's, fit the ring. */
  method Wave(run: LoadRun, gateway: GatewayService, service: BackofficeService, turns: seq<Turn>)
    requires Sharing(run, gateway, service) && run.pending == {} && OursIn(turns) <= run.asking
    requires forall i :: 0 <= i < |turns| ==> Sound(turns[i])
    modifies run`sent, run`pending, run`asking, run`silent, run.attempts
    modifies run`byStatus, run`latencies, run`outcomes, run`folded
    modifies service`scanned, service`simulatedOrders, service`pending, service`seen
    ensures Sharing(run, gateway, service)
    ensures |run.attempts.log| == |old(run.attempts.log)| + Rows(turns)
    ensures run.pending == {} <==> Rows(turns[FirstOurs(turns)..]) <= ATTEMPTS_CAPACITY
    ensures forall id :: id in run.pending ==> !run.attempts.Retained(id)
  {
    ghost var base := |run.attempts.log|;
    TakeAll(run, gateway, service, turns);
    WholeWave(turns, FirstOurs(turns), base, run.pending, |run.attempts.log|);
    run.Fold();
  }

  /** With nobody else recording, a wave of at most a quarter of the ring always folds; a wider one
      folds or not as its answers are hidden and retried. */
  lemma NarrowWaveFits(turns: seq<Turn>)
    requires forall i :: 0 <= i < |turns| ==> turns[i].Ours?
    ensures |turns| <= 1_250 ==> Rows(turns[FirstOurs(turns)..]) <= ATTEMPTS_CAPACITY
    ensures |turns| > 5_000 ==> Rows(turns[FirstOurs(turns)..]) > ATTEMPTS_CAPACITY
  {
    OneToFourRows(turns);
    assert turns[FirstOurs(turns)..] == turns;
  }

  /** A placement answered 201, its answer hidden, and sent again under its key. */
  const HIDDEN := Sending(Call(0, 0, Some(1)), "k", Dice(0, true, true), Heard(201, Some(1)),
                          Call(0, 0, Some(1)), Heard(200, Some(1)))

  function HiddenWave(n: nat): (turns: seq<Turn>)
    ensures |turns| == n
  {
    seq(n, _ => Ours(HIDDEN))
  }

  lemma HiddenWaveRows(n: nat)
    ensures FirstOurs(HiddenWave(n)) == 0 && Rows(HiddenWave(n)) == 4 * n
  {
    OneToFourRows(HiddenWave(n));
  }

  lemma {:induction false} AllOurs(turns: seq<Turn>)
    requires forall i :: 0 <= i < |turns| ==> turns[i].Ours?
    ensures OursIn(turns) == |turns|
  {
    if turns != [] {
      AllOurs(turns[..|turns| - 1]);
    }
  }

  /** So one wave can outgrow the ring, well within the widths a profile may ask for: every answer
      hidden and every call retried, any width past a quarter of the ring leaves calls pending that
      the ring no longer holds. */
  method WideWaveIsNotFolded(run: LoadRun, gateway: GatewayService, service: BackofficeService, n: nat)
    requires Sharing(run, gateway, service) && run.pending == {} && n <= run.asking
    requires n > 1_250
    modifies run`sent, run`pending, run`asking, run`silent, run.attempts
    modifies run`byStatus, run`latencies, run`outcomes, run`folded
    modifies service`scanned, service`simulatedOrders, service`pending, service`seen
    ensures Sharing(run, gateway, service) && run.pending != {}
    ensures exists id :: id in run.pending && !run.attempts.Retained(id)
  {
    AllOurs(HiddenWave(n));
    HiddenWaveRows(n);
    assert HiddenWave(n)[0..] == HiddenWave(n);
    Wave(run, gateway, service, HiddenWave(n));
  }
}
