/** The colour-trading page: a digit is drawn, a colour bet or a number bet
    is settled against the digit's colours, and the round is recorded in a
    20-entry newest-first history. */
module ColourTrading {
  import opened Api
  import BoundedList
  import GameId
  import Server

  datatype Colour = Green | Red | Violet
  datatype Size = Big | Small

  /** `selectedBet`: `{ type: null }`, a colour, or a number. */
  datatype Selection = Nothing | ColourBet(colour: Colour) | NumberBet(number: int)

  /** One entry of `gameHistory`. */
  datatype Entry = Entry(gameId: string, number: int, size: Size, colours: seq<Colour>, won: bool, amount: int)

  const BaseAmount: int := 10
  const HistoryCap: nat := 20
  const GameName: string := "color-trading"

  /** The `numberColors` table. */
  const Table: seq<seq<Colour>> :=
    [[Green, Violet], [Green], [Red], [Green], [Red], [Green, Violet], [Red], [Green], [Red], [Green]]

  /** The colours of a drawn digit: green on 0 and the odd digits, red on the
      other even digits, violet besides on 0 and 5. */
  function NumberColours(d: int): (cs: seq<Colour>)
    requires 0 <= d <= 9
    ensures |cs| >= 1
    ensures Green in cs <==> d == 0 || d % 2 == 1
    ensures Red in cs <==> d != 0 && d % 2 == 0
    ensures Violet in cs <==> d == 0 || d == 5
  {
    Table[d]
  }

  /** `winningNumber >= 5 ? 'big' : 'small'`. */
  function SizeOf(d: int): (s: Size)
    ensures 0 <= d <= 9 ==> (s == Big <==> d in {5, 6, 7, 8, 9})
    ensures 0 <= d <= 9 ==> (s == Small <==> d in {0, 1, 2, 3, 4})
  {
    if d >= 5 then Big else Small
  }

  /** Whether the selection won and the multiplier it pays. */
  datatype Verdict = Verdict(won: bool, payout: real)

  /** The `playGame` evaluation. The big/small toggle is not an input. */
  function Evaluate(sel: Selection, d: int): (v: Verdict)
    requires 0 <= d <= 9
    ensures sel.NumberBet? ==> (v.won <==> sel.number == d)
    ensures sel.ColourBet? ==> (v.won <==> sel.colour in NumberColours(d))
    ensures sel.Nothing? ==> !v.won
    ensures v.won && sel.NumberBet? ==> v.payout == 9.0
    ensures v.won && sel.ColourBet? ==> v.payout == if sel.colour == Violet then 4.5 else 2.0
    ensures !v.won ==> v.payout == 0.0
  {
    match sel
    case Nothing => Verdict(false, 0.0)
    case ColourBet(c) =>
      if c in NumberColours(d) then Verdict(true, if c == Violet then 4.5 else 2.0) else Verdict(false, 0.0)
    case NumberBet(n) =>
      if n == d then Verdict(true, 9.0) else Verdict(false, 0.0)
  }

  /** The recorded amount: `Math.floor(betAmount * payout)` on a win, the stake on a loss. */
  function Amount(stake: int, v: Verdict): (a: int)
    ensures !v.won ==> a == stake
    ensures v.won ==> a as real <= stake as real * v.payout < a as real + 1.0
  {
    if v.won then (stake as real * v.payout).Floor else stake
  }

  /** In whole numbers the three multipliers pay `2 * stake`, `(9 * stake) / 2`
      (rounded down) and `9 * stake`. */
  lemma AmountInIntegers(stake: int)
    ensures Amount(stake, Verdict(true, 2.0)) == 2 * stake
    ensures Amount(stake, Verdict(true, 4.5)) == (9 * stake) / 2
    ensures Amount(stake, Verdict(true, 9.0)) == 9 * stake
  {
    var q, r := (9 * stake) / 2, (9 * stake) % 2;
    assert 9 * stake == 2 * q + r && 0 <= r < 2;
    assert stake as real * 4.5 == q as real + r as real / 2.0;
  }

  /** The body `playGame` posts for a decided round. */
  function Settle(sel: Selection, stake: int, d: int): (t: TxRequest)
    requires 0 <= d <= 9
    ensures t.game == GameName
    ensures t.kind == Win <==> Evaluate(sel, d).won
    ensures t.amount == Amount(stake, Evaluate(sel, d)) as real
  {
    var v := Evaluate(sel, d);
    Record(v.won, Amount(stake, v) as real, GameName)
  }

  /** The history entry `addToHistory` builds: the last ten characters of the
      game id, the digit, its size and colours. */
  function MakeEntry(gameId: string, d: int, won: bool, amount: int): (e: Entry)
    requires 0 <= d <= 9
    ensures e.size == Big <==> d >= 5
    ensures |e.gameId| <= 10 && e.colours == NumberColours(d)
    ensures e.gameId == GameId.LastTen(gameId) && e.number == d && e.won == won && e.amount == amount
  {
    Entry(GameId.LastTen(gameId), d, SizeOf(d), NumberColours(d), won, amount)
  }

  /** The ledger effect of one round, summed over the ten possible digits. */
  function NetOverDigits(sel: Selection, stake: int, from: int): real
    requires 0 <= from <= 10
    decreases 10 - from
  {
    if from == 10 then 0.0
    else
      var t := Settle(sel, stake, from);
      Server.Signed(t.kind, t.amount) + NetOverDigits(sel, stake, from + 1)
  }

  /** Over the ten equally likely digits, a number bet on a digit breaks
      even: one win of `9 * stake` against nine losses of the stake. */
  lemma NumberBetBreaksEven(n: int, stake: int)
    requires 0 <= n <= 9
    ensures NetOverDigits(NumberBet(n), stake, 0) == 0.0
  {
    AmountInIntegers(stake);
    var s := stake as real;
    var sel := NumberBet(n);
    assert NetOverDigits(sel, stake, 9) == (if n == 9 then 9.0 * s else -s);
    assert NetOverDigits(sel, stake, 8) == (if n == 8 then 9.0 * s else -s) + NetOverDigits(sel, stake, 9);
    assert NetOverDigits(sel, stake, 7) == (if n == 7 then 9.0 * s else -s) + NetOverDigits(sel, stake, 8);
    assert NetOverDigits(sel, stake, 6) == (if n == 6 then 9.0 * s else -s) + NetOverDigits(sel, stake, 7);
    assert NetOverDigits(sel, stake, 5) == (if n == 5 then 9.0 * s else -s) + NetOverDigits(sel, stake, 6);
    assert NetOverDigits(sel, stake, 4) == (if n == 4 then 9.0 * s else -s) + NetOverDigits(sel, stake, 5);
    assert NetOverDigits(sel, stake, 3) == (if n == 3 then 9.0 * s else -s) + NetOverDigits(sel, stake, 4);
    assert NetOverDigits(sel, stake, 2) == (if n == 2 then 9.0 * s else -s) + NetOverDigits(sel, stake, 3);
    assert NetOverDigits(sel, stake, 1) == (if n == 1 then 9.0 * s else -s) + NetOverDigits(sel, stake, 2);
    assert NetOverDigits(sel, stake, 0) == (if n == 0 then 9.0 * s else -s) + NetOverDigits(sel, stake, 1);
  }

  /** Because a winning colour bet is credited the full `floor(stake * payout)`
      while the stake itself is never debited, the ten digits sum to `8 * stake`
      for green, `2 * stake` for red and two violet payouts less eight stakes
      for violet: colour bets are in the player's favour. */
  lemma ColourBetNet(stake: int)
    ensures NetOverDigits(ColourBet(Green), stake, 0) == 8.0 * stake as real
    ensures NetOverDigits(ColourBet(Red), stake, 0) == 2.0 * stake as real
    ensures NetOverDigits(ColourBet(Violet), stake, 0) == 2.0 * ((9 * stake) / 2) as real - 8.0 * stake as real
  {
    AmountInIntegers(stake);
    var s := stake as real;
    assert NetOverDigits(ColourBet(Green), stake, 9) == 2.0 * s;
    assert NetOverDigits(ColourBet(Green), stake, 8) == 1.0 * s;
    assert NetOverDigits(ColourBet(Green), stake, 7) == 3.0 * s;
    assert NetOverDigits(ColourBet(Green), stake, 6) == 2.0 * s;
    assert NetOverDigits(ColourBet(Green), stake, 5) == 4.0 * s;
    assert NetOverDigits(ColourBet(Green), stake, 4) == 3.0 * s;
    assert NetOverDigits(ColourBet(Green), stake, 3) == 5.0 * s;
    assert NetOverDigits(ColourBet(Green), stake, 2) == 4.0 * s;
    assert NetOverDigits(ColourBet(Green), stake, 1) == 6.0 * s;
    assert NetOverDigits(ColourBet(Red), stake, 9) == -1.0 * s;
    assert NetOverDigits(ColourBet(Red), stake, 8) == 1.0 * s;
    assert NetOverDigits(ColourBet(Red), stake, 7) == 0.0 * s;
    assert NetOverDigits(ColourBet(Red), stake, 6) == 2.0 * s;
    assert NetOverDigits(ColourBet(Red), stake, 5) == 1.0 * s;
    assert NetOverDigits(ColourBet(Red), stake, 4) == 3.0 * s;
    assert NetOverDigits(ColourBet(Red), stake, 3) == 2.0 * s;
    assert NetOverDigits(ColourBet(Red), stake, 2) == 4.0 * s;
    assert NetOverDigits(ColourBet(Red), stake, 1) == 3.0 * s;
    var v := ((9 * stake) / 2) as real;
    assert NetOverDigits(ColourBet(Violet), stake, 6) == -4.0 * s;
    assert NetOverDigits(ColourBet(Violet), stake, 5) == v - 4.0 * s;
    assert NetOverDigits(ColourBet(Violet), stake, 1) == v - 8.0 * s;
  }

  /** `Math.random() < 0.33` picks a colour from `['green', 'violet', 'red']`,
      otherwise a digit `Math.floor(Math.random() * 10)`. */
  function RandomPick(choice: real, draw: real): (sel: Selection)
    requires 0.0 <= draw < 1.0
    ensures sel.ColourBet? <==> choice < 0.33
    ensures sel.NumberBet? ==> 0 <= sel.number <= 9
  {
    if choice < 0.33 then ColourBet([Green, Violet, Red][(draw * 3.0).Floor])
    else NumberBet((draw * 10.0).Floor)
  }

  /** The page's closure state. `outbox` is the sequence of bodies posted by
      `API.recordTransaction`. */
  class Game {
    var selected: Selection
    var betMultiplier: int
    var stake: int
    var sizeToggle: Size
    var history: seq<Entry>
    var gameId: string
    var timeRemaining: int
    var outbox: seq<TxRequest>

    /** The displayed bet is always ten times the chosen multiplier, and the
        history never holds more than twenty rounds. */
    ghost predicate Valid()
      reads this
    {
      stake == BaseAmount * betMultiplier && |history| <= HistoryCap
    }

    constructor (id: string)
      ensures Valid()
      ensures selected == Nothing && betMultiplier == 5 && stake == 50 && sizeToggle == Big
      ensures history == [] && gameId == id && timeRemaining == 27 && outbox == []
    {
      selected := Nothing;
      betMultiplier := 5;
      stake := BaseAmount * 5;
      sizeToggle := Big;
      history := [];
      gameId := id;
      timeRemaining := 27;
      outbox := [];
    }

    /** `updateBetAmount`: the displayed bet becomes ten times the multiplier. */
    method UpdateBetAmount()
      modifies this`stake
      ensures stake == BaseAmount * betMultiplier
    {
      stake := BaseAmount * betMultiplier;
    }

    method SelectColour(c: Colour)
      requires Valid()
      modifies this`selected, this`stake
      ensures Valid() && selected == ColourBet(c) && stake == old(stake)
    {
      selected := ColourBet(c);
      UpdateBetAmount();
    }

    method SelectNumber(n: int)
      requires Valid()
      modifies this`selected, this`stake
      ensures Valid() && selected == NumberBet(n) && stake == old(stake)
    {
      selected := NumberBet(n);
      UpdateBetAmount();
    }

    /** The random button. */
    method SelectRandom(choice: real, draw: real)
      requires Valid() && 0.0 <= draw < 1.0
      modifies this`selected, this`stake
      ensures Valid() && selected == RandomPick(choice, draw) && stake == old(stake)
    {
      selected := RandomPick(choice, draw);
      UpdateBetAmount();
    }

    method SelectMultiplier(m: int)
      requires Valid()
      modifies this`betMultiplier, this`stake
      ensures Valid() && betMultiplier == m && stake == BaseAmount * m
    {
      betMultiplier := m;
      UpdateBetAmount();
    }

    /** The big/small toggle changes only itself; nothing reads it. */
    method ToggleSize(s: Size)
      modifies this`sizeToggle
      ensures sizeToggle == s
    {
      sizeToggle := s;
    }

    /** `addToHistory`: newest first, at most twenty entries. */
    method AddToHistory(id: string, d: int, won: bool, amount: int)
      requires Valid() && 0 <= d <= 9
      modifies this`history
      ensures Valid()
      ensures history == BoundedList.PushFront(old(history), MakeEntry(id, d, won, amount), HistoryCap)
    {
      history := [MakeEntry(id, d, won, amount)] + history;
      if |history| > HistoryCap {
        history := history[..|history| - 1];
      }
    }

    /** `playGame` with the drawn digit `d`: without a selection nothing
        happens; otherwise the round is posted, recorded, and the selection
        cleared. */
    method PlayGame(d: int)
      requires Valid() && 0 <= d <= 9
      modifies this`outbox, this`history, this`selected
      ensures Valid()
      ensures old(selected).Nothing? ==>
        outbox == old(outbox) && history == old(history) && selected == Nothing
      ensures !old(selected).Nothing? ==>
        var v := Evaluate(old(selected), d);
        && outbox == old(outbox) + [Settle(old(selected), stake, d)]
        && history == BoundedList.PushFront(old(history), MakeEntry(gameId, d, v.won, Amount(stake, v)), HistoryCap)
        && selected == Nothing
    {
      if selected.Nothing? {
        return;
      }
      var v := Evaluate(selected, d);
      var amount := Amount(stake, v);
      outbox := outbox + [Record(v.won, amount as real, GameName)];
      AddToHistory(gameId, d, v.won, amount);
      selected := Nothing;
    }

    /** One second of the countdown. At zero a pending selection is played
        with digit `d`, the clock restarts at 30 and a new game id is taken.
        `playGame` is called without `await`: the clock and the id are reset
        while it waits on the server, so its history entry, written after
        the wait, carries the new id. The model runs that continuation to
        its end within the tick. */
    method Tick(d: int, nextId: string)
      requires Valid() && 0 <= d <= 9
      modifies this
      ensures Valid()
      ensures betMultiplier == old(betMultiplier) && stake == old(stake) && sizeToggle == old(sizeToggle)
      ensures old(timeRemaining) > 1 ==>
        timeRemaining == old(timeRemaining) - 1 && gameId == old(gameId)
        && selected == old(selected) && outbox == old(outbox) && history == old(history)
      ensures old(timeRemaining) <= 1 ==>
        timeRemaining == 30 && gameId == nextId && selected == Nothing
        && (old(selected).Nothing? ==> outbox == old(outbox) && history == old(history))
        && (!old(selected).Nothing? ==>
              var v := Evaluate(old(selected), d);
              && outbox == old(outbox) + [Settle(old(selected), stake, d)]
              && history == BoundedList.PushFront(old(history), MakeEntry(nextId, d, v.won, Amount(stake, v)), HistoryCap))
    {
      timeRemaining := timeRemaining - 1;
      if timeRemaining <= 0 {
        var pending := !selected.Nothing?;
        timeRemaining := 30;
        gameId := nextId;
        if pending {
          PlayGame(d);
        }
      }
    }
  }
}
