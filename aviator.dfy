/** The aviator page: a round waits for a bet, flies with a multiplier that
    grows with elapsed time up to 5x, and crashes once the multiplier reaches
    a crash point drawn when the flight starts. The stake is debited when the
    bet is placed and a cash-out credits `floor(bet * multiplier)`. Clock
    readings, animation frames and random draws are parameters. */
module Aviator {
  import opened Api
  import BoundedList
  import CrashPoint
  import Server

  datatype State = Waiting | Flying | Crashed

  /** A point of the drawn flight trail. */
  datatype FlightPoint = FlightPoint(x: real, y: real, time: int)

  /** One entry of `gameHistory`. */
  datatype Flight = Flight(crashPoint: real, won: bool, amount: int)

  const MinBet: int := 10
  const MaxMultiplier: real := 5.0
  const HistoryCap: nat := 20
  const PathCap: nat := 100
  const GameName: string := "aviator"

  /** `1 + 0.15 t^2 + 0.2 t` for `t` seconds of flight, capped at 5. */
  function FlightMultiplier(elapsed: real): (m: real)
    ensures m <= MaxMultiplier
    ensures elapsed >= 0.0 ==> 1.0 <= m
    ensures m < MaxMultiplier ==> m == 1.0 + elapsed * elapsed * 0.15 + elapsed * 0.2
    ensures 1.0 + elapsed * elapsed * 0.15 + elapsed * 0.2 <= MaxMultiplier ==>
      m == 1.0 + elapsed * elapsed * 0.15 + elapsed * 0.2
  {
    var m := 1.0 + elapsed * elapsed * 0.15 + elapsed * 0.2;
    if m > MaxMultiplier then MaxMultiplier else m
  }

  /** Seconds between two `Date.now()` readings. */
  function Elapsed(now: int, start: int): (e: real)
    ensures e * 1000.0 == (now - start) as real
    ensures now >= start ==> e >= 0.0
    ensures now - start >= 5000 ==> e >= 5.0
  {
    (now - start) as real / 1000.0
  }

  /** The multiplier never falls as the flight goes on. */
  lemma FlightMultiplierMonotone(e1: real, e2: real)
    requires 0.0 <= e1 <= e2
    ensures FlightMultiplier(e1) <= FlightMultiplier(e2)
  {
    MulMonotone(e1, e1, e2);
    MulMonotone(e2, e1, e2);
    var c1, c2 := 1.0 + e1 * e1 * 0.15 + e1 * 0.2, 1.0 + e2 * e2 * 0.15 + e2 * 0.2;
    assert c1 <= c2;
  }

  lemma MulMonotone(a: real, b: real, c: real)
    requires 0.0 <= a && b <= c
    ensures a * b <= a * c
  {
  }

  /** Every crash point the bands produce is below the cap, so after five
      seconds any flight has reached it: the cap never prevents a crash. */
  lemma CapNeverBlocksCrash(pick: real, offset: real, elapsed: real)
    requires 0.0 <= offset < 1.0 && elapsed >= 5.0
    ensures FlightMultiplier(elapsed) >= CrashPoint.Generate(pick, offset)
  {
    assert elapsed * elapsed >= 5.0 * elapsed >= 25.0;
  }

  /** `Math.floor(currentBet * currentMultiplier)`: between the stake and five
      times the stake while the multiplier is within [1, 5]. */
  function CashOutAmount(bet: int, m: real): (w: int)
    ensures w as real <= bet as real * m < w as real + 1.0
    ensures bet >= 0 && m <= MaxMultiplier ==> w <= 5 * bet
    ensures bet >= 0 && 1.0 <= m ==> bet <= w
  {
    var p := bet as real * m;
    assert bet >= 0 && m <= MaxMultiplier ==> p <= bet as real * 5.0;
    assert bet >= 0 && 1.0 <= m ==> bet as real <= p;
    p.Floor
  }

  /** Posted to the server, a round that is cashed out at `m` moves the
      balance by `floor(bet * m) - bet`, never negative and at most four
      stakes; a round that crashes first has moved it by `-bet`. */
  lemma RoundLedgerEffect(bet: int, m: real)
    requires bet >= MinBet && 1.0 <= m <= MaxMultiplier
    ensures var debit := Record(false, bet as real, GameName);
      var credit := Record(true, CashOutAmount(bet, m) as real, GameName);
      && Server.Signed(debit.kind, debit.amount) == -(bet as real)
      && 0.0 <= Server.Signed(debit.kind, debit.amount) + Server.Signed(credit.kind, credit.amount) <= 4.0 * bet as real
  {
  }

  /** The page's closure state; `outbox` is the sequence of bodies posted by
      `API.recordTransaction`. */
  class Round {
    var state: State
    var currentBet: int
    var currentMultiplier: real
    var crashPoint: real
    var startTime: int
    var flightPath: seq<FlightPoint>
    var history: seq<Flight>
    var outbox: seq<TxRequest>

    /** A stake is held only while flying; a waiting round shows 1x and an
        empty trail; a started round has a crash point in [1, 5); a flying
        round has not passed it and a crashed one has reached it. */
    ghost predicate Valid()
      reads this
    {
      && (currentBet == 0 || (currentBet >= MinBet && state == Flying))
      && (state == Waiting ==> currentMultiplier == 1.0 && flightPath == [])
      && (state != Waiting ==> 1.0 <= crashPoint < MaxMultiplier)
      && (state == Flying ==> currentMultiplier <= crashPoint)
      && (state == Crashed ==> currentMultiplier >= crashPoint)
      && currentMultiplier <= MaxMultiplier
      && |history| <= HistoryCap && |flightPath| <= PathCap
    }

    constructor ()
      ensures Valid() && state == Waiting && currentBet == 0 && currentMultiplier == 1.0
      ensures crashPoint == 0.0 && flightPath == [] && history == [] && outbox == []
    {
      state := Waiting;
      currentBet := 0;
      currentMultiplier := 1.0;
      crashPoint := 0.0;
      startTime := 0;
      flightPath := [];
      history := [];
      outbox := [];
    }

    /** `addToHistory`: newest first, at most twenty flights. */
    method AddToHistory(cp: real, won: bool, amount: int)
      requires |history| <= HistoryCap
      modifies this`history
      ensures history == BoundedList.PushFront(old(history), Flight(cp, won, amount), HistoryCap)
      ensures |history| <= HistoryCap
    {
      history := [Flight(cp, won, amount)] + history;
      if |history| > HistoryCap {
        history := history[..|history| - 1];
      }
    }

    /** `startFlight`: draw the crash point and take off from 1x. */
    method StartFlight(now: int, pick: real, offset: real)
      requires state == Waiting && currentMultiplier == 1.0 && 0.0 <= offset < 1.0
      requires currentBet == 0 || currentBet >= MinBet
      requires |history| <= HistoryCap
      modifies this`state, this`startTime, this`crashPoint, this`flightPath
      ensures Valid()
      ensures state == Flying && startTime == now && crashPoint == CrashPoint.Generate(pick, offset)
      ensures flightPath == []
    {
      state := Flying;
      startTime := now;
      crashPoint := CrashPoint.Generate(pick, offset);
      flightPath := [];
    }

    /** `placeBet`: only while waiting and only for at least 10; the stake is
        posted as a 'loss' at once and the flight starts. */
    method PlaceBet(amount: int, now: int, pick: real, offset: real)
      requires Valid() && 0.0 <= offset < 1.0
      modifies this
      ensures Valid()
      ensures history == old(history) && currentMultiplier == old(currentMultiplier)
      ensures old(state) != Waiting || amount < MinBet ==>
        state == old(state) && currentBet == old(currentBet) && outbox == old(outbox)
        && crashPoint == old(crashPoint) && startTime == old(startTime) && flightPath == old(flightPath)
      ensures old(state) == Waiting && amount >= MinBet ==>
        && state == Flying && currentBet == amount
        && outbox == old(outbox) + [Record(false, amount as real, GameName)]
        && startTime == now && crashPoint == CrashPoint.Generate(pick, offset) && flightPath == []
    {
      if state != Waiting {
        return;
      }
      if amount < MinBet {
        return;
      }
      currentBet := amount;
      outbox := outbox + [Record(false, amount as real, GameName)];
      StartFlight(now, pick, offset);
    }

    /** `cashOut`: only while flying with a stake; credits
        `floor(bet * multiplier)` and drops the stake, so the flight goes on
        and a second cash-out does nothing. */
    method CashOut()
      requires Valid()
      modifies this`currentBet, this`outbox, this`history
      ensures Valid()
      ensures old(state) != Flying || old(currentBet) == 0 ==>
        currentBet == old(currentBet) && outbox == old(outbox) && history == old(history)
      ensures old(state) == Flying && old(currentBet) != 0 ==>
        var win := CashOutAmount(old(currentBet), currentMultiplier);
        && currentBet == 0
        && outbox == old(outbox) + [Record(true, win as real, GameName)]
        && history == BoundedList.PushFront(old(history), Flight(crashPoint, true, win), HistoryCap)
        && currentMultiplier <= crashPoint
    {
      if state != Flying || currentBet == 0 {
        return;
      }
      var win := CashOutAmount(currentBet, currentMultiplier);
      currentBet := 0;
      outbox := outbox + [Record(true, win as real, GameName)];
      AddToHistory(crashPoint, true, win);
    }

    /** One animation frame of `enhancedGameLoop` at clock `now`, with `point`
        the trail point drawn for it. A flying round takes the capped
        multiplier, appends the point, and crashes exactly when the multiplier
        reaches the crash point; a lost stake goes to the history (it was
        debited at bet time) and is dropped. */
    method GameLoop(now: int, point: FlightPoint)
      requires Valid()
      modifies this`state, this`currentMultiplier, this`flightPath, this`currentBet, this`history
      ensures Valid()
      ensures old(state) != Flying ==>
        state == old(state) && currentMultiplier == old(currentMultiplier) && flightPath == old(flightPath)
        && currentBet == old(currentBet) && history == old(history)
      ensures old(state) == Flying ==>
        && currentMultiplier == FlightMultiplier(Elapsed(now, startTime))
        && flightPath == BoundedList.PushBack(old(flightPath), point, PathCap)
        && (state == Crashed <==> currentMultiplier >= crashPoint)
        && (state != Crashed ==> state == Flying && currentBet == old(currentBet) && history == old(history))
        && (state == Crashed ==> currentBet == 0)
        && (state == Crashed && old(currentBet) > 0 ==>
              history == BoundedList.PushFront(old(history), Flight(crashPoint, false, old(currentBet)), HistoryCap))
        && (state == Crashed && old(currentBet) == 0 ==> history == old(history))
      ensures old(state) == Flying && now - startTime >= 5000 ==> state == Crashed
    {
      if state != Flying {
        return;
      }
      var elapsed := Elapsed(now, startTime);
      if now - startTime >= 5000 {
        assert elapsed >= 5.0;
        assert crashPoint < MaxMultiplier;
        assert FlightMultiplier(elapsed) == MaxMultiplier by {
          assert elapsed * elapsed >= 5.0 * elapsed >= 25.0;
        }
      }
      currentMultiplier := FlightMultiplier(elapsed);
      flightPath := flightPath + [point];
      if |flightPath| > PathCap {
        flightPath := flightPath[1..];
      }
      if currentMultiplier >= crashPoint {
        state := Crashed;
        if currentBet > 0 {
          AddToHistory(crashPoint, false, currentBet);
          currentBet := 0;
        }
      }
    }

    /** `startNewRound`: back to waiting at 1x with no stake and no trail. */
    method StartNewRound()
      requires Valid()
      modifies this`state, this`currentMultiplier, this`currentBet, this`flightPath
      ensures Valid()
      ensures state == Waiting && currentMultiplier == 1.0 && currentBet == 0 && flightPath == []
    {
      state := Waiting;
      currentMultiplier := 1.0;
      currentBet := 0;
      flightPath := [];
    }
  }
}
