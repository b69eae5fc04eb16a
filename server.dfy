/** The Express/socket.io server: the `users` and `transactions` tables,
    the token gate, registration, login, `/api/transaction`, the admin
    balance adjustment and the per-socket room. sqlite, bcrypt and jwt are
    outside the model: a failed statement is a boolean parameter, and
    `bcrypt.compare` and `jwt.verify` are function parameters. */
module Server {
  import opened Api

  /** A row of `users`; its id is its position plus one (AUTOINCREMENT, no deletes). */
  datatype User = User(username: string, password: string, balance: real, role: string)

  /** A row of `transactions`. */
  datatype Tx = Tx(userId: int, kind: string, amount: real, game: string)

  /** The payload login signs into a token: `{ id, role }`. */
  datatype Claims = Claims(id: int, role: string)

  /** An HTTP reply: status code and the `error`/`message` text ("" for `sendStatus`). */
  datatype Reply = Reply(status: int, message: string)

  const DefaultRole: string := "user"
  const AdminRole: string := "admin"

  // ---------------------------------------------------------------------
  // Token gate

  /** Position of the first `c` in `s`. */
  function IndexOf(s: string, c: char): (r: Option<nat>)
    ensures r.Some? ==> r.value < |s| && s[r.value] == c && c !in s[..r.value]
    ensures r.None? <==> c !in s
  {
    if s == [] then None
    else if s[0] == c then Some(0)
    else match IndexOf(s[1..], c)
      case None => None
      case Some(k) =>
        assert s[..k + 1] == [s[0]] + s[1..][..k];
        Some(k + 1)
  }

  /** `s.split(' ')[1]`: the text between the first and the second space;
      `undefined` (None) when there is no space. */
  function SecondField(s: string): (r: Option<string>)
    ensures r.None? <==> ' ' !in s
    ensures r.Some? ==> ' ' !in r.value
    ensures r.Some? ==>
      var i := IndexOf(s, ' ').value;
      && i + 1 + |r.value| <= |s|
      && s[i + 1..i + 1 + |r.value|] == r.value
      && (i + 1 + |r.value| == |s| || s[i + 1 + |r.value|] == ' ')
  {
    match IndexOf(s, ' ')
    case None => None
    case Some(i) =>
      var rest := s[i + 1..];
      match IndexOf(rest, ' ')
      case None => Some(rest)
      case Some(j) => Some(rest[..j])
  }

  /** The token `authenticateToken` takes from the Authorization header; an
      absent header, a missing second field or an empty one are all falsy. */
  function BearerToken(header: Option<string>): (r: Option<string>)
    ensures r.Some? ==> r.value != [] && ' ' !in r.value
    ensures r.None? <==> (header.None? || SecondField(header.value).None? || SecondField(header.value) == Some(""))
    ensures r.Some? ==> SecondField(header.value) == r
  {
    if header.None? then None
    else match SecondField(header.value)
      case None => None
      case Some(t) => if t == [] then None else Some(t)
  }

  /** A header `"<scheme> <token>"` yields the token, whatever the scheme word. */
  lemma BearerTokenOf(scheme: string, token: string)
    requires ' ' !in scheme && ' ' !in token && token != []
    ensures BearerToken(Some(scheme + " " + token)) == Some(token)
  {
    var h := scheme + " " + token;
    assert h[|scheme|] == ' ';
    assert h[..|scheme|] == scheme;
    assert IndexOf(h, ' ') == Some(|scheme|);
    assert h[|scheme| + 1..] == token;
  }

  datatype Gate = Unauthorized | Forbidden | Proceed(user: Claims)

  /** `authenticateToken`: 401 without a token, 403 when verification fails. */
  function Authenticate(header: Option<string>, verify: string -> Option<Claims>): (g: Gate)
    ensures g == Unauthorized <==> BearerToken(header).None?
    ensures g == Forbidden <==> BearerToken(header).Some? && verify(BearerToken(header).value).None?
    ensures g.Proceed? ==> BearerToken(header).Some? && verify(BearerToken(header).value) == Some(g.user)
  {
    match BearerToken(header)
    case None => Unauthorized
    case Some(t) =>
      match verify(t)
      case None => Forbidden
      case Some(c) => Proceed(c)
  }

  /** The status a rejecting gate sends. */
  function GateStatus(g: Gate): (code: int)
    requires !g.Proceed?
    ensures code == 401 <==> g == Unauthorized
    ensures code == 403 <==> g == Forbidden
  {
    if g == Unauthorized then 401 else 403
  }

  // ---------------------------------------------------------------------
  // Users table

  predicate UniqueNames(users: seq<User>)
  {
    forall i, j :: 0 <= i < j < |users| ==> users[i].username != users[j].username
  }

  /** `SELECT * FROM users WHERE username = ?`: the first matching row. */
  function FindUser(users: seq<User>, name: string): (r: Option<nat>)
    ensures r.Some? ==> r.value < |users| && users[r.value].username == name
    ensures r.Some? ==> forall i :: 0 <= i < r.value ==> users[i].username != name
    ensures r.None? <==> forall i :: 0 <= i < |users| ==> users[i].username != name
  {
    if users == [] then None
    else if users[0].username == name then Some(0)
    else match FindUser(users[1..], name)
      case None => None
      case Some(k) => Some(k + 1)
  }

  datatype LoginResult = UserNotFound | InvalidPassword | LoggedIn(token: Claims, role: string)

  /** `/api/login`: a failed lookup or an unknown name is 'User not found', a
      password `compare` rejects is 'Invalid password'; otherwise the token
      carries the row's id and role. */
  function Login(users: seq<User>, username: string, password: string,
                 compare: (string, string) -> bool, lookupFails: bool): (r: LoginResult)
    ensures r == UserNotFound <==> lookupFails || forall i :: 0 <= i < |users| ==> users[i].username != username
    ensures r == InvalidPassword <==> (!lookupFails && FindUser(users, username).Some?
      && !compare(password, users[FindUser(users, username).value].password))
    ensures r.LoggedIn? ==> exists i :: (0 <= i < |users| && users[i].username == username
      && compare(password, users[i].password) && r.token == Claims(i + 1, users[i].role) && r.role == users[i].role)
  {
    if lookupFails then UserNotFound
    else match FindUser(users, username)
      case None => UserNotFound
      case Some(i) =>
        if !compare(password, users[i].password) then InvalidPassword
        else LoggedIn(Claims(i + 1, users[i].role), users[i].role)
  }

  /** With unique usernames, login succeeds exactly for the one matching row
      whose password `compare` accepts. */
  lemma LoginExact(users: seq<User>, i: nat, password: string, compare: (string, string) -> bool)
    requires UniqueNames(users) && i < |users|
    ensures compare(password, users[i].password) ==>
      Login(users, users[i].username, password, compare, false) == LoggedIn(Claims(i + 1, users[i].role), users[i].role)
    ensures !compare(password, users[i].password) ==>
      Login(users, users[i].username, password, compare, false) == InvalidPassword
  {
  }

  // ---------------------------------------------------------------------
  // Ledger rules

  /** `type === 'win' ? amount : -amount`: every other type subtracts the amount,
      which credits the balance when the amount is negative. */
  function Signed(kind: string, amount: real): (d: real)
    ensures d == amount || d == -amount
    ensures amount > 0.0 ==> (d > 0.0 <==> kind == Win)
    ensures amount < 0.0 ==> (d < 0.0 <==> kind == Win)
    ensures kind == Loss ==> d == -amount
  {
    if kind == Win then amount else -amount
  }

  /** `UPDATE users SET balance = balance + ? WHERE id = ?`: no floor, and no
      row changes for an id that is not in the table. */
  function Credit(users: seq<User>, id: int, delta: real): (r: seq<User>)
    ensures |r| == |users|
    ensures forall i :: 0 <= i < |users| && i != id - 1 ==> r[i] == users[i]
    ensures 1 <= id <= |users| ==> (r[id - 1].balance == users[id - 1].balance + delta
      && r[id - 1].username == users[id - 1].username
      && r[id - 1].password == users[id - 1].password
      && r[id - 1].role == users[id - 1].role)
  {
    if 1 <= id <= |users| then users[id - 1 := users[id - 1].(balance := users[id - 1].balance + delta)]
    else users
  }

  /** The sum of the signed amounts of the rows recorded for `id`. */
  function NetFor(txs: seq<Tx>, id: int): real
  {
    if txs == [] then 0.0
    else
      var last := txs[|txs| - 1];
      NetFor(txs[..|txs| - 1], id) + (if last.userId == id then Signed(last.kind, last.amount) else 0.0)
  }

  lemma NetForAppend(txs: seq<Tx>, t: Tx, id: int)
    ensures NetFor(txs + [t], id) == NetFor(txs, id) + (if t.userId == id then Signed(t.kind, t.amount) else 0.0)
  {
    assert (txs + [t])[..|txs|] == txs;
  }

  /** A debit larger than the balance is applied in full: balances can go negative. */
  lemma DebitCanGoNegative(users: seq<User>, id: int, kind: string, amount: real)
    requires 1 <= id <= |users| && kind != Win && amount > users[id - 1].balance
    ensures var b := Credit(users, id, Signed(kind, amount))[id - 1].balance;
      b == users[id - 1].balance - amount && b < 0.0
  {
  }

  /** The relative `+ amount` / `- amount` rule does not depend on the order
      in which two transactions of one user land. */
  lemma CreditsCommute(users: seq<User>, a: int, da: real, b: int, db: real)
    ensures Credit(Credit(users, a, da), b, db) == Credit(Credit(users, b, db), a, da)
  {
  }

  // ---------------------------------------------------------------------
  // The database and its routes

  class Database {
    var users: seq<User>
    var transactions: seq<Tx>
    /** Per user, how far the balance is from the sum of that user's rows:
        set at registration to minus the rows already recorded for the new
        id, and moved only by admin adjustments and by balance updates that
        failed after their row was inserted. */
    ghost var offLedger: seq<real>

    ghost predicate Valid()
      reads this
    {
      && UniqueNames(users)
      && |offLedger| == |users|
      && forall i :: 0 <= i < |users| ==> users[i].balance == NetFor(transactions, i + 1) + offLedger[i]
    }

    constructor ()
      ensures Valid() && users == [] && transactions == [] && offLedger == []
    {
      users := [];
      transactions := [];
      offLedger := [];
    }

    /** `/api/register`: any failure of the INSERT, a duplicate name among
        them, answers 400 'Username taken' and adds nothing. */
    method Register(username: string, hashed: string, insertFails: bool) returns (reply: Reply)
      requires Valid()
      modifies this
      ensures Valid()
      ensures transactions == old(transactions)
      ensures insertFails || FindUser(old(users), username).Some? ==>
        reply == Reply(400, "Username taken") && users == old(users) && offLedger == old(offLedger)
      ensures !insertFails && FindUser(old(users), username).None? ==>
        reply == Reply(201, "User created successfully")
        && users == old(users) + [User(username, hashed, 0.0, DefaultRole)]
        && offLedger == old(offLedger) + [-NetFor(transactions, |users|)]
    {
      if insertFails || FindUser(users, username).Some? {
        return Reply(400, "Username taken");
      }
      var id := |users| + 1;
      offLedger := offLedger + [-NetFor(transactions, id)];
      users := users + [User(username, hashed, 0.0, DefaultRole)];
      reply := Reply(201, "User created successfully");
    }

    /** `/api/transaction`: insert the row, then apply `+amount` for 'win'
        and `-amount` for any other type to the caller's balance only. */
    method PostTransaction(header: Option<string>, verify: string -> Option<Claims>, body: TxRequest,
                           insertFails: bool, updateFails: bool) returns (reply: Reply)
      requires Valid()
      modifies this
      ensures Valid()
      ensures var g := Authenticate(header, verify);
        !g.Proceed? ==> (reply == Reply(GateStatus(g), "")
          && users == old(users) && transactions == old(transactions) && offLedger == old(offLedger))
      ensures var g := Authenticate(header, verify);
        g.Proceed? && insertFails ==> (reply == Reply(500, "Transaction failed")
          && users == old(users) && transactions == old(transactions) && offLedger == old(offLedger))
      ensures var g := Authenticate(header, verify);
        g.Proceed? && !insertFails ==>
          transactions == old(transactions) + [Tx(g.user.id, body.kind, body.amount, body.game)]
      ensures var g := Authenticate(header, verify);
        g.Proceed? && !insertFails && updateFails ==> (reply == Reply(500, "Balance update failed")
          && users == old(users)
          && offLedger == Credit'(old(offLedger), g.user.id, -Signed(body.kind, body.amount)))
      ensures var g := Authenticate(header, verify);
        g.Proceed? && !insertFails && !updateFails ==> (reply == Reply(200, "Transaction successful")
          && users == Credit(old(users), g.user.id, Signed(body.kind, body.amount))
          && offLedger == old(offLedger))
    {
      var g := Authenticate(header, verify);
      if !g.Proceed? {
        return Reply(GateStatus(g), "");
      }
      if insertFails {
        return Reply(500, "Transaction failed");
      }
      var id := g.user.id;
      var delta := Signed(body.kind, body.amount);
      var t := Tx(id, body.kind, body.amount, body.game);
      forall k ensures NetFor(transactions + [t], k) == NetFor(transactions, k) + (if k == id then delta else 0.0) {
        NetForAppend(transactions, t, k);
      }
      transactions := transactions + [t];
      if updateFails {
        offLedger := Credit'(offLedger, id, -delta);
        return Reply(500, "Balance update failed");
      }
      users := Credit(users, id, delta);
      reply := Reply(200, "Transaction successful");
    }

    /** `/api/admin/balance`: a non-admin token gets 403; an admin adds the
        signed amount to the one named user, with no row recorded. */
    method AdjustBalance(header: Option<string>, verify: string -> Option<Claims>, userId: int, amount: real,
                         updateFails: bool) returns (reply: Reply)
      requires Valid()
      modifies this
      ensures Valid()
      ensures transactions == old(transactions)
      ensures var g := Authenticate(header, verify);
        !g.Proceed? ==> reply == Reply(GateStatus(g), "") && users == old(users) && offLedger == old(offLedger)
      ensures var g := Authenticate(header, verify);
        g.Proceed? && g.user.role != AdminRole ==> reply == Reply(403, "") && users == old(users) && offLedger == old(offLedger)
      ensures var g := Authenticate(header, verify);
        g.Proceed? && g.user.role == AdminRole && updateFails ==>
          reply == Reply(500, "Balance adjustment failed") && users == old(users) && offLedger == old(offLedger)
      ensures var g := Authenticate(header, verify);
        g.Proceed? && g.user.role == AdminRole && !updateFails ==>
          reply == Reply(200, "Balance adjusted successfully")
          && users == Credit(old(users), userId, amount)
          && offLedger == Credit'(old(offLedger), userId, amount)
    {
      var g := Authenticate(header, verify);
      if !g.Proceed? {
        return Reply(GateStatus(g), "");
      }
      if g.user.role != AdminRole {
        return Reply(403, "");
      }
      if updateFails {
        return Reply(500, "Balance adjustment failed");
      }
      users := Credit(users, userId, amount);
      offLedger := Credit'(offLedger, userId, amount);
      reply := Reply(200, "Balance adjusted successfully");
    }
  }

  /** `Credit` on the per-user off-ledger amounts. */
  ghost function Credit'(xs: seq<real>, id: int, delta: real): (r: seq<real>)
    ensures |r| == |xs|
    ensures forall i :: 0 <= i < |xs| ==> r[i] == xs[i] + (if i == id - 1 then delta else 0.0)
  {
    if 1 <= id <= |xs| then xs[id - 1 := xs[id - 1] + delta] else xs
  }

  // ---------------------------------------------------------------------
  // Socket rooms

  /** The `bet-placed` notice a socket broadcasts; `username` is None where
      the server sends `undefined`. */
  datatype BetNotice = BetNotice(room: string, username: Option<string>, amount: real, game: string)

  /** The name `place-bet` broadcasts: 'Anonymous' when the handshake token
      is missing or fails verification, otherwise `decoded.username`, which
      a login token (`{ id, role }`) does not carry. */
  function BroadcastName(token: Option<string>, verify: string -> Option<Claims>): (r: Option<string>)
    ensures r == Some("Anonymous") <==> token.None? || verify(token.value).None?
    ensures r.None? <==> token.Some? && verify(token.value).Some?
  {
    if token.None? || verify(token.value).None? then Some("Anonymous") else None
  }

  class Socket {
    var currentRoom: Option<string>
    var rooms: set<string>
    var notices: seq<BetNotice>

    /** JavaScript truthiness of `currentRoom`. */
    predicate InRoom()
      reads this
    {
      currentRoom.Some? && currentRoom.value != ""
    }

    /** The socket sits in its current room and in no other non-empty room. */
    ghost predicate Valid()
      reads this
    {
      && (currentRoom.None? ==> rooms == {})
      && (currentRoom.Some? ==> currentRoom.value in rooms && rooms - {currentRoom.value} <= {""})
    }

    constructor ()
      ensures Valid() && currentRoom == None && rooms == {} && notices == []
    {
      currentRoom := None;
      rooms := {};
      notices := [];
    }

    /** `join-game`: leave the previous (truthy) room, join the new one. */
    method JoinGame(gameId: string)
      requires Valid()
      modifies this
      ensures Valid()
      ensures currentRoom == Some(gameId)
      ensures rooms == (if old(InRoom()) then old(rooms) - {old(currentRoom).value} else old(rooms)) + {gameId}
      ensures notices == old(notices)
    {
      if InRoom() {
        rooms := rooms - {currentRoom.value};
      }
      rooms := rooms + {gameId};
      currentRoom := Some(gameId);
    }

    /** `place-bet`: ignored before a (truthy) join, otherwise broadcast to the room. */
    method PlaceBet(token: Option<string>, verify: string -> Option<Claims>, amount: real, game: string)
      requires Valid()
      modifies this`notices
      ensures Valid()
      ensures !InRoom() ==> notices == old(notices)
      ensures InRoom() ==> notices == old(notices) + [BetNotice(currentRoom.value, BroadcastName(token, verify), amount, game)]
    {
      if !InRoom() {
        return;
      }
      notices := notices + [BetNotice(currentRoom.value, BroadcastName(token, verify), amount, game)];
    }
  }
}
