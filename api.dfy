/** Shapes shared by the browser games and the server: the JSON body that
    `API.recordTransaction(type, amount, game)` posts to `/api/transaction`. */
module Api {

  datatype Option<T> = None | Some(value: T)

  /** `{ type, amount, game }` as posted by the games. */
  datatype TxRequest = TxRequest(kind: string, amount: real, game: string)

  const Win: string := "win"
  const Loss: string := "loss"

  /** The body a game posts once a wager is decided: `'win'` or `'loss'`. */
  function Record(won: bool, amount: real, game: string): (r: TxRequest)
    ensures r.amount == amount && r.game == game
    ensures r.kind == Win <==> won
    ensures r.kind == Loss <==> !won
  {
    assert Win[0] != Loss[0];
    TxRequest(if won then Win else Loss, amount, game)
  }
}
