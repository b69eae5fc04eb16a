/** The dice and coinflip pages: one draw decides the round, and the page
    posts the whole stake as a 'win' or a 'loss'. */
module DiceCoinflip {
  import opened Api
  import Server

  datatype Direction = High | Low
  datatype Side = Heads | Tails

  /** `Math.floor(Math.random() * 6) + 1`. */
  function Roll(draw: real): (face: int)
    requires 0.0 <= draw < 1.0
    ensures 1 <= face <= 6
    ensures (face - 1) as real <= draw * 6.0 < face as real
  {
    (draw * 6.0).Floor + 1
  }

  /** `(type === 'high' && roll > 3) || (type === 'low' && roll <= 3)`. */
  function DiceWins(direction: Direction, face: int): (w: bool)
    ensures 1 <= face <= 6 && direction == High ==> (w <==> face in {4, 5, 6})
    ensures 1 <= face <= 6 && direction == Low ==> (w <==> face in {1, 2, 3})
  {
    (direction == High && face > 3) || (direction == Low && face <= 3)
  }

  /** On a real die exactly one of the two directions wins, and each wins on
      three faces. */
  lemma DiceDirectionsComplement(face: int)
    requires 1 <= face <= 6
    ensures DiceWins(High, face) != DiceWins(Low, face)
    ensures DiceWins(High, face) <==> face in {4, 5, 6}
  {
  }

  /** `Math.random() < 0.5 ? 'heads' : 'tails'`. */
  function Flip(draw: real): (s: Side)
    ensures s == Heads <==> draw < 0.5
  {
    if draw < 0.5 then Heads else Tails
  }

  /** The click handler: a non-positive amount is refused with nothing
      posted; otherwise the stake is posted as 'win' or 'loss'. */
  function PlayDice(amount: real, direction: Direction, draw: real): (r: Option<TxRequest>)
    requires 0.0 <= draw < 1.0
    ensures r.None? <==> amount <= 0.0
    ensures r.Some? ==> (r.value.amount == amount && r.value.game == "dice"
      && (r.value.kind == Win <==> DiceWins(direction, Roll(draw))))
  {
    if amount <= 0.0 then None
    else Some(Record(DiceWins(direction, Roll(draw)), amount, "dice"))
  }

  function PlayCoinflip(amount: real, choice: Side, draw: real): (r: Option<TxRequest>)
    ensures r.None? <==> amount <= 0.0
    ensures r.Some? ==> (r.value.amount == amount && r.value.game == "coinflip"
      && (r.value.kind == Win <==> choice == Flip(draw)))
  {
    if amount <= 0.0 then None
    else Some(Record(choice == Flip(draw), amount, "coinflip"))
  }

  /** Posted to the server, a dice round moves the balance by exactly the
      stake, up on a win and down on a loss. */
  lemma DiceLedgerEffect(amount: real, direction: Direction, draw: real)
    requires 0.0 <= draw < 1.0 && amount > 0.0
    ensures var r := PlayDice(amount, direction, draw).value;
      Server.Signed(r.kind, r.amount) == if DiceWins(direction, Roll(draw)) then amount else -amount
  {
  }

  lemma CoinflipLedgerEffect(amount: real, choice: Side, draw: real)
    requires amount > 0.0
    ensures var r := PlayCoinflip(amount, choice, draw).value;
      Server.Signed(r.kind, r.amount) == if choice == Flip(draw) then amount else -amount
  {
  }

  /** Every face of the die is produced by some draw. */
  lemma RollOnto(face: int)
    requires 1 <= face <= 6
    ensures Roll((face - 1) as real / 6.0) == face
  {
  }
}
