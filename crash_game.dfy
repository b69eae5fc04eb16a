/** The simple crash page: a bet is held in `activeBet` without a debit; a
    cash-out posts `activeBet * multiplier` as a 'win' and drops the bet; a
    crash posts `activeBet` as a 'loss' but leaves `activeBet` set. The
    `Math.exp` curve and the per-tick crash draw are parameters of `Tick`. */
module CrashGame {
  import opened Api

  const GameName: string := "crash"

  class Game {
    var currentMultiplier: real
    /** `activeBet`: null (None) or the positive stake. */
    var activeBet: Option<real>
    /** Whether the 16 ms game interval is running. */
    var running: bool
    /** The crash multipliers shown in the history list, newest first. */
    var history: seq<real>
    var outbox: seq<TxRequest>

    ghost predicate Valid()
      reads this
    {
      activeBet.Some? ==> activeBet.value > 0.0
    }

    constructor ()
      ensures Valid() && currentMultiplier == 1.0 && activeBet == None && running
      ensures history == [] && outbox == []
    {
      currentMultiplier := 1.0;
      activeBet := None;
      running := true;
      history := [];
      outbox := [];
    }

    /** `startGame`: the multiplier restarts at 1x and the interval runs. */
    method StartGame()
      modifies this`currentMultiplier, this`running
      ensures currentMultiplier == 1.0 && running
    {
      currentMultiplier := 1.0;
      running := true;
    }

    /** The bet button: a non-positive amount is refused; otherwise it
        becomes the active bet (replacing any earlier one). Nothing is posted. */
    method Bet(amount: real)
      requires Valid()
      modifies this`activeBet
      ensures Valid()
      ensures activeBet == if amount <= 0.0 then old(activeBet) else Some(amount)
    {
      if amount <= 0.0 {
        return;
      }
      activeBet := Some(amount);
    }

    /** `cashout`: without an active bet nothing happens; otherwise the
        interval stops, `activeBet * multiplier` is posted as a 'win' and the
        bet is dropped. */
    method Cashout()
      requires Valid()
      modifies this`running, this`outbox, this`activeBet
      ensures Valid()
      ensures old(activeBet).None? ==> running == old(running) && outbox == old(outbox) && activeBet == None
      ensures old(activeBet).Some? ==> !running && activeBet == None
      ensures old(activeBet).Some? ==>
        outbox == old(outbox) + [Record(true, Winnings(old(activeBet).value, currentMultiplier), GameName)]
    {
      if activeBet.None? {
        return;
      }
      var win := Winnings(activeBet.value, currentMultiplier);
      running := false;
      outbox := outbox + [Record(true, win, GameName)];
      activeBet := None;
    }

    /** `crash`: the interval stops, an active bet is posted as a 'loss', the
        crash multiplier heads the history; `activeBet` is left as it was. */
    method Crash()
      requires Valid()
      modifies this`running, this`outbox, this`history
      ensures Valid()
      ensures !running && history == [currentMultiplier] + old(history)
      ensures old(activeBet).Some? ==> outbox == old(outbox) + [Record(false, activeBet.value, GameName)]
      ensures old(activeBet).None? ==> outbox == old(outbox)
      ensures activeBet == old(activeBet)
    {
      running := false;
      if activeBet.Some? {
        outbox := outbox + [Record(false, activeBet.value, GameName)];
      }
      history := [currentMultiplier] + history;
    }

    /** One tick of the interval with multiplier `m`, the auto-stop field
        (None when empty) and whether this tick's crash draw fired. An
        auto-stop cash-out and a crash can both happen in one tick. */
    method Tick(m: real, autoStop: Option<real>, crashes: bool)
      requires Valid()
      modifies this`currentMultiplier, this`running, this`outbox, this`activeBet, this`history
      ensures Valid()
      ensures !old(running) ==>
        currentMultiplier == old(currentMultiplier) && running == old(running) && outbox == old(outbox)
        && activeBet == old(activeBet) && history == old(history)
      ensures old(running) ==>
        var cashed := AutoStops(old(activeBet), autoStop, m);
        && currentMultiplier == m
        && activeBet == (if cashed then None else old(activeBet))
        && running == !(cashed || crashes)
        && history == (if crashes then [m] + old(history) else old(history))
        && outbox == old(outbox) + TickPosts(old(activeBet), m, autoStop, crashes)
    {
      if !running {
        return;
      }
      currentMultiplier := m;
      ghost var bet := activeBet;
      ghost var before := outbox;
      if activeBet.Some? && autoStop.Some? && currentMultiplier >= autoStop.value {
        Cashout();
      }
      if crashes {
        Crash();
      }
      assert outbox == before + TickPosts(bet, m, autoStop, crashes);
    }
  }

  /** The amount a cash-out posts: the stake times the multiplier at that
      moment: a positive stake comes back whole exactly from 1x on. */
  function Winnings(stake: real, m: real): (w: real)
    ensures stake >= 0.0 && m >= 1.0 ==> w >= stake
    ensures stake > 0.0 && m < 1.0 ==> w < stake
  {
    stake * m
  }

  /** The auto-stop check of one tick: an active bet, a filled-in auto-stop
      field and a multiplier that has reached it. */
  function AutoStops(bet: Option<real>, autoStop: Option<real>, m: real): (fires: bool)
    ensures fires ==> bet.Some? && autoStop.Some?
    ensures bet.Some? && autoStop.Some? ==> (fires <==> autoStop.value <= m)
  {
    bet.Some? && autoStop.Some? && m >= autoStop.value
  }

  /** What one running tick posts: the auto-stop win, then the loss of a bet
      still active when the crash draw fires. */
  function TickPosts(bet: Option<real>, m: real, autoStop: Option<real>, crashes: bool): (r: seq<TxRequest>)
    ensures |r| <= 1
    ensures bet.None? ==> r == []
  {
    if AutoStops(bet, autoStop, m) then [Record(true, Winnings(bet.value, m), GameName)]
    else if crashes && bet.Some? then [Record(false, bet.value, GameName)]
    else []
  }

  /** A tick settles an active bet at most once: an auto-stop pays at least
      the stake times the auto-stop value, a crash without it posts the stake
      as a loss, and otherwise nothing is posted. */
  lemma TickSettlesOnce(bet: real, m: real, autoStop: Option<real>, crashes: bool)
    requires bet > 0.0
    ensures var r := TickPosts(Some(bet), m, autoStop, crashes);
      && (AutoStops(Some(bet), autoStop, m) ==>
            |r| == 1 && r[0].kind == Win && r[0].amount >= bet * autoStop.value)
      && (!AutoStops(Some(bet), autoStop, m) && crashes ==>
            r == [TxRequest(Loss, bet, GameName)])
      && (!AutoStops(Some(bet), autoStop, m) && !crashes ==> r == [])
  {
    if AutoStops(Some(bet), autoStop, m) {
      assert bet * m >= bet * autoStop.value;
    }
  }
}
