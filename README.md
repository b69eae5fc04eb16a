# A verified model of the jeeto92 wagering site

jeeto92 is a small betting site with two parts:

- A browser side, `public/js/games.js`. It has five games: dice, coinflip, a simple crash game, colour trading and aviator.
- An Express/socket.io server, `server/server.js`. It keeps a `users` table and a `transactions` table, and it moves a player's balance whenever a game posts a decided wager to `/api/transaction`.

This project models the rules of both parts in Dafny and proves what they promise. The rules covered are:

- which colours a drawn digit carries, and what each bet pays;
- the guarded state machines of the crash and aviator rounds;
- the bounded history lists and the 100-point flight trail;
- the game-id format;
- the crash-point bands;
- registration, login and the token gate;
- the ledger rule of `/api/transaction` and the admin adjustment;
- the per-socket room.

Module layout, one module per file:

- `Api` (`api.dfy`): the body `API.recordTransaction(type, amount, game)` posts, and `Option`.
- `BoundedList` (`bounded_list.dfy`): the two capped buffers. `unshift` then `pop` is `PushFront`; `push` then `shift` is `PushBack`.
- `CrashPoint` (`crash_point.dfy`): the four-band generator shared by the aviator page and the server.
- `GameId` (`game_id.dfy`): `generateGameId` and the `slice(-10)` history label.
- `DiceCoinflip` (`dice_coinflip.dfy`): the two one-draw games, as functions.
- `CrashGame` (`crash_game.dfy`): the simple crash page, a `class Game` whose fields are the page's closure variables.
- `ColourTrading` (`colour_trading.dfy`): the digit table and bet evaluation as functions, and the page state as a `class Game`.
- `Aviator` (`aviator.dfy`): the flight curve and cash-out amount as functions, and the round as a `class Round`.
- `Server` (`server.dfy`): the token gate and login as functions. `class Database` holds the two tables and `class Socket` holds one connection's room.

Inputs from outside are parameters of the calls:

- every `Math.random()` draw (`draw`, `pick`, `offset`, `choice`);
- the clock (`now`, `Moment`);
- one timer tick or animation frame, which is one call of `Tick` or `GameLoop`;
- the outcome of each sqlite statement (`insertFails`, `updateFails`, `lookupFails`);
- `bcrypt.compare` and `jwt.verify`, which are function parameters (`compare`, `verify`).

What each page posts through `API.recordTransaction` is kept in an `outbox` sequence on the page's class. `Server.Signed` is the server's `type === 'win' ? amount : -amount`. Lemmas use it to state the balance effect of a posted round.

`Database` keeps a ghost per-user value `offLedger`, and its invariant is that each balance equals the signed sum of that user's transaction rows plus `offLedger`. Three things set or move `offLedger`:

- registration, which starts a new user at balance 0 and so sets its entry to minus the rows already recorded under that id (the `userId` column has no enforced foreign key);
- an admin adjustment, which changes a balance without writing a row;
- a balance update that fails after its row was inserted.

## Model

| member | source | states |
|---|---|---|
| Api.Record | public/js/api.js:46-51 | the posted body carries the amount and game unchanged; its type is 'win' exactly when the wager was won and 'loss' exactly when it was lost |
| BoundedList.PushFront | public/js/games.js:390-401 | the new entry heads the list, the previous entries follow in order, and only the oldest is dropped, only when the list would exceed the cap; a list within the cap stays within it |
| BoundedList.PushBack | public/js/games.js:734-738 | the new point ends the trail, the earlier points keep their order, and only the oldest is dropped, only when the trail would exceed the cap |
| BoundedList.PushAllFrontKeepsNewest | public/js/games.js:386-401 | after any number of insertions a history is the newest `cap` entries, newest first, then the earlier contents while room remains |
| BoundedList.PushAllBackKeepsNewest | public/js/games.js:734-738 | after any number of appended points the trail is exactly the newest `cap` points seen, in arrival order |
| CrashPoint.Band | server/server.js:171-181 | the first draw selects band 0..3 exactly when it lies between that band's thresholds 0/0.40/0.75/0.95/1 |
| CrashPoint.Generate | public/js/games.js:670-681 | the value lies in the band the first draw selects, so always in [1.0, 5.0) |
| CrashPoint.BandsTile | server/server.js:170-182 | the bands [1,2.2), [2.2,4), [4,4.8) and [4.8,5) cover [1.0, 5.0) without overlap |
| CrashPoint.GenerateOnto | server/server.js:173-181 | every value of the selected band is produced by some second draw |
| GameId.Decimal | public/js/games.js:286 | `toString()` of a non-negative integer is all digits, one character exactly below 10 |
| GameId.Pad2 | public/js/games.js:286-291 | `padStart(2, '0')` of a number below 100 is exactly two digits |
| GameId.ParseDecimalInverts | public/js/games.js:286 | reading `toString()` back gives the number |
| GameId.ParsePad2 | public/js/games.js:286-291 | reading a padded two-digit field back gives the number |
| GameId.DecimalOfYear | public/js/games.js:286 | a four-digit year prints as four characters |
| GameId.Suffix | public/js/games.js:291 | the random suffix is below 100 |
| GameId.Generate | public/js/games.js:284-292 | the id is all digits and begins with the year, followed by exactly ten more characters for a valid clock reading |
| GameId.GenerateDecodes | public/js/games.js:284-292 | a game id is 14 digits whose fields read back as year, 1-based month, day, hour, minute and the random suffix |
| GameId.LastTen | public/js/games.js:391 | `slice(-10)` is a suffix of the id, ten characters long or the whole of a shorter id |
| GameId.HistoryLabelDropsYear | public/js/games.js:391 | the history label of a game id is the id without its year |
| DiceCoinflip.Roll | public/js/games.js:54 | the roll is the face 1..6 whose sixth of [0,1) holds the draw |
| DiceCoinflip.RollOnto | public/js/games.js:54 | every face 1..6 is rolled by some draw |
| DiceCoinflip.DiceWins | public/js/games.js:60 | on a real die 'high' wins exactly on 4, 5 and 6 and 'low' exactly on 1, 2 and 3 |
| DiceCoinflip.DiceDirectionsComplement | public/js/games.js:60 | on any face exactly one of 'high' and 'low' wins, and 'high' wins on 4, 5 and 6 |
| DiceCoinflip.Flip | public/js/games.js:114 | heads exactly when the draw is below 0.5 |
| DiceCoinflip.PlayDice | public/js/games.js:38-70 | nothing is posted exactly when the amount is not positive; otherwise the stake is posted to 'dice', as 'win' exactly when the direction wins on the roll |
| DiceCoinflip.PlayCoinflip | public/js/games.js:98-128 | nothing is posted exactly when the amount is not positive; otherwise the stake is posted to 'coinflip', as 'win' exactly when the choice equals the flip |
| DiceCoinflip.DiceLedgerEffect | public/js/games.js:62-70 | once posted, a dice round moves the balance by plus the stake on a win and minus the stake on a loss |
| DiceCoinflip.CoinflipLedgerEffect | public/js/games.js:120-128 | once posted, a coinflip round moves the balance by plus or minus the stake, matching the outcome |
| CrashGame.Game.constructor | public/js/games.js:164-177 | the page opens with no active bet, at 1x, with the game interval running |
| CrashGame.Game.StartGame | public/js/games.js:176-180 | the multiplier restarts at 1x and the interval runs |
| CrashGame.Game.Bet | public/js/games.js:256-265 | a non-positive amount leaves the bet as it was; otherwise the amount becomes the active bet, replacing any earlier one, with nothing posted |
| CrashGame.Game.Cashout | public/js/games.js:234-250 | without an active bet nothing changes; otherwise the interval stops, the stake times the multiplier is posted as a 'win' and the bet is cleared |
| CrashGame.Game.Crash | public/js/games.js:212-232 | the interval stops, the crash multiplier heads the history, an active bet is posted as a 'loss', and `activeBet` itself is left set |
| CrashGame.Game.Tick | public/js/games.js:180-209 | a stopped game ignores the tick; a running one takes the tick's multiplier, cashes out when an active bet reaches the filled-in auto-stop, and crashes when the draw fires; the posts are exactly those of `TickPosts` |
| CrashGame.Winnings | public/js/games.js:238 | a positive stake is returned whole from 1x on and less than whole below 1x |
| CrashGame.AutoStops | public/js/games.js:201 | the auto-stop fires only with an active bet and a filled-in field, and then exactly when the multiplier has reached the field's value |
| CrashGame.TickPosts | public/js/games.js:200-208 | one tick posts at most one body, and nothing without an active bet |
| CrashGame.TickSettlesOnce | public/js/games.js:200-208 | in one tick an auto-stop pays a 'win' of at least stake times the auto-stop value; otherwise a crash posts the stake as a 'loss'; otherwise nothing is posted |
| ColourTrading.NumberColours | public/js/games.js:279-282 | every digit has a colour; green on 0 and the odd digits, red on the other even digits, violet exactly on 0 and 5 |
| ColourTrading.SizeOf | public/js/games.js:388 | a digit is 'Big' exactly when it is 5 to 9 and 'Small' exactly when it is 0 to 4 (the same rule as line 435) |
| ColourTrading.Evaluate | public/js/games.js:441-457 | a number bet wins exactly on its digit and pays 9; a colour bet wins exactly when the digit carries the colour and pays 2 for green or red and 4.5 for violet; no selection and a lost bet pay 0; the size toggle is not an input |
| ColourTrading.Amount | public/js/games.js:459-470 | a win records the floor of stake times multiplier; a loss records the stake |
| ColourTrading.AmountInIntegers | public/js/games.js:461 | in whole numbers the three multipliers pay `2 * stake`, `(9 * stake) / 2` and `9 * stake` |
| ColourTrading.Settle | public/js/games.js:459-470 | the posted body goes to 'color-trading', is a 'win' exactly when the selection won, and carries the recorded amount |
| ColourTrading.MakeEntry | public/js/games.js:386-396 | the history entry records the last ten characters of the id, the digit, whether it won and the amount; it is 'Big' exactly for digits 5 and up and carries the digit's colours |
| ColourTrading.NumberBetBreaksEven | public/js/games.js:451-470 | over the ten digits a number bet's posted effects sum to zero |
| ColourTrading.ColourBetNet | public/js/games.js:441-470 | over the ten digits the posted effects of a colour bet sum to `8 * stake` for green, `2 * stake` for red and two violet payouts less eight stakes for violet, since a win credits the full payout and no stake is debited |
| ColourTrading.RandomPick | public/js/games.js:355-374 | a colour is picked exactly when the first draw is below 0.33, otherwise a digit 0..9 |
| ColourTrading.Game.constructor | public/js/games.js:271-277 | the page opens with no selection, multiplier 5, a bet of 50, 'big' toggled and 27 seconds on the clock |
| ColourTrading.Game.UpdateBetAmount | public/js/games.js:376-380 | the bet becomes ten times the multiplier |
| ColourTrading.Game.SelectColour | public/js/games.js:314-322 | the selection becomes the colour and the bet stays ten times the multiplier |
| ColourTrading.Game.SelectNumber | public/js/games.js:325-333 | the selection becomes the number and the bet stays ten times the multiplier |
| ColourTrading.Game.SelectRandom | public/js/games.js:355-375 | the selection becomes the random pick and the bet stays ten times the multiplier |
| ColourTrading.Game.SelectMultiplier | public/js/games.js:336-343 | the multiplier changes and the bet becomes ten times it |
| ColourTrading.Game.ToggleSize | public/js/games.js:346-352 | the big/small toggle changes and nothing else does |
| ColourTrading.Game.AddToHistory | public/js/games.js:386-404 | the history is the entry pushed to the front, capped at 20 |
| ColourTrading.Game.PlayGame | public/js/games.js:420-487 | without a selection nothing changes; otherwise exactly one settled body is posted, the round's entry heads the history, and the selection is cleared |
| ColourTrading.Game.Tick | public/js/games.js:295-311 | above one second the clock counts down and nothing else changes; at zero the clock restarts at 30 and the next game id is taken, and a pending selection is played: one settled body is posted and the round's entry, labelled with the new game id because the unawaited `playGame` writes it after the reset, heads the history; bet and multiplier never change |
| Aviator.FlightMultiplier | public/js/games.js:821-828 | the multiplier is `1 + 0.15e^2 + 0.2e` whenever that is at most 5, and 5 otherwise; it is never above 5 nor, after take-off, below 1 |
| Aviator.Elapsed | public/js/games.js:821 | the elapsed seconds are the clock difference over 1000, non-negative once the clock has moved forward and at least 5 after 5000 ms |
| Aviator.FlightMultiplierMonotone | public/js/games.js:821-828 | the multiplier never falls as the flight goes on |
| Aviator.CapNeverBlocksCrash | public/js/games.js:670-681 | after five seconds the capped multiplier has reached every crash point the bands produce |
| Aviator.CashOutAmount | public/js/games.js:560 | the credit is the floor of bet times multiplier, between the bet and five bets while the multiplier is in [1, 5] |
| Aviator.RoundLedgerEffect | public/js/games.js:551-566 | the bet-time debit moves the balance by minus the bet, and with a cash-out the round nets between 0 and four bets |
| Aviator.Round.constructor | public/js/games.js:506-515 | a round opens waiting at 1x with no bet, no trail and no history |
| Aviator.Round.AddToHistory | public/js/games.js:898-911 | the history is the flight pushed to the front, capped at 20 |
| Aviator.Round.StartFlight | public/js/games.js:774-778 | the round flies from clock `now` with a crash point drawn from the bands and an empty trail |
| Aviator.Round.PlaceBet | public/js/games.js:536-555 | only a waiting round with a bet of at least 10 acts: the bet is held, posted as a 'loss' at once, and the flight starts; otherwise nothing changes |
| Aviator.Round.CashOut | public/js/games.js:557-582 | only a flying round with a stake acts: the floor of bet times multiplier is posted as a 'win', recorded in the history, and the stake drops to 0 while the round keeps flying |
| Aviator.Round.GameLoop | public/js/games.js:819-853 | a flying frame takes the capped curve value and appends the trail point; the round crashes exactly when the multiplier reaches the crash point, a held stake is then recorded as lost and dropped, and every flight has crashed after five seconds |
| Aviator.Round.StartNewRound | public/js/games.js:855-859 | the round waits again at 1x with no stake and an empty trail |
| Server.IndexOf | server/server.js:42 | the first position of the character, or none exactly when it does not occur |
| Server.SecondField | server/server.js:42 | `split(' ')[1]` is undefined exactly when there is no space; otherwise it is the text right after the first space up to the next space or the end, and contains no space |
| Server.BearerToken | server/server.js:42-43 | no token exactly when the header is absent, has no space, or has an empty second field; otherwise the token is that second field, non-empty and without spaces |
| Server.BearerTokenOf | server/server.js:42 | a header "scheme token" yields exactly the token |
| Server.Authenticate | server/server.js:41-50 | no token is Unauthorized, a token that fails verification is Forbidden, otherwise the request proceeds with the verified claims |
| Server.GateStatus | server/server.js:43-46 | Unauthorized answers 401 and Forbidden answers 403 |
| Server.FindUser | server/server.js:69 | the lookup finds the first row with the name, and none exactly when no row has it |
| Server.Login | server/server.js:66-78 | a failed lookup or unknown name is 'User not found'; a row whose password `compare` rejects is 'Invalid password'; a success signs the matching row's id and role |
| Server.LoginExact | server/server.js:69-76 | with unique names, logging in as a user succeeds with that user's id and role exactly when the password matches |
| Server.Signed | server/server.js:96 | the balance delta is plus or minus the amount: plus exactly for 'win' when the amount is positive, minus exactly for 'win' when it is negative; 'loss' always subtracts the amount, so a negative 'loss' credits |
| Server.Credit | server/server.js:95-96 | the update moves only the named user's balance by the delta, with no floor, and changes no other field or row |
| Server.DebitCanGoNegative | server/server.js:95-96 | for any user, a non-'win' amount larger than the balance is subtracted in full, leaving a negative balance |
| Server.CreditsCommute | server/server.js:95-96 | two relative balance updates give the same table in either order |
| Server.Database.constructor | server/server.js:15-33 | both tables start empty |
| Server.Database.Register | server/server.js:53-64 | a taken name or a failed insert answers 400 'Username taken' and adds nothing; otherwise one user with balance 0 and role 'user' is appended and 201 is answered; names stay unique |
| Server.Database.PostTransaction | server/server.js:88-104 | the gate's 401/403 and a failed insert change nothing; otherwise exactly one row is appended, then only the caller's balance moves by +amount for 'win' and -amount for any other type; a failed update leaves the row, and every balance stays its rows' sum plus its off-ledger part |
| Server.Database.AdjustBalance | server/server.js:107-118 | a rejected token or a non-admin gets 401/403 and nothing changes; a failed update answers 500 and changes nothing; otherwise an admin call adds the signed amount to at most one user's balance (none for an id with no row, still answered 200) and writes no row |
| Server.BroadcastName | server/server.js:150-158 | the broadcast name is 'Anonymous' exactly when the handshake token is missing or fails verification, and undefined otherwise |
| Server.Socket.constructor | server/server.js:122 | a connection starts in no room |
| Server.Socket.JoinGame | server/server.js:124-131 | the previous room, if truthy, is left, the new one is joined and becomes the current room; the socket stays in no other room except possibly `''`, which is falsy and so never left |
| Server.Socket.PlaceBet | server/server.js:146-166 | before a truthy join nothing is broadcast; otherwise exactly one notice goes to the current room |

## Left out

- Drawing, the DOM, canvas, SVG trail paths, plane positioning, notifications, result texts and button enable/disable states. They do not affect the rules.
- `fetch`, `localStorage`, redirects and the client `API` wrapper beyond the request body. They are HTTP plumbing.
- `API.updateBalance` and `/api/balance` (server/server.js:81-86). They read a value and change nothing.
- The crash game's `Math.exp(timeElapsed / 2000)` curve and its per-tick `Math.random() < 0.003` crash draw. Both are transcendental or random, so the tick's multiplier and "crashes" are parameters of `CrashGame.Game.Tick`.
- Timers, `setTimeout` restarts and the interleaving of async callbacks. Each handler, tick or frame is one sequential method call. The crash game's restart after both an auto-stop cash-out and a crash in the same tick, which would start two intervals, is not modelled.
- The per-socket aviator broadcast interval (server/server.js:132-143). It is a timer that emits crash points; the crash points come from `CrashPoint.Generate`.
- Floating-point rounding, `toFixed` and `toLocaleTimeString`. Amounts and multipliers are exact reals or integers, and the aviator history keeps the crash point instead of its formatted text and time.
- Non-numeric or empty form input (`parseInt`/`parseFloat` giving NaN, string comparisons on `betAmount.value`). Amounts are numbers, and the dice/coinflip/crash guards are `amount <= 0`.
- The random history seeding at page load (public/js/games.js:497-501 and the aviator loop near line 969). These are only repeated `AddToHistory` calls with random arguments.
- `bcrypt.hash` and `jwt.sign`. The stored password is the hash passed to `Register`, and a login result carries the claims it would sign.
- Register: a failing INSERT for reasons other than a duplicate name is the `insertFails` parameter. It gets the same 400 reply as in the source.
- sqlite's UNIQUE constraint is modelled by `FindUser` before the append. Ids are positions plus one because rows are never deleted.
- ColourTrading.Game.Tick: the unawaited `playGame` is applied whole within the tick. In the source, a selection made while it waits on the server is later cleared by it, and the displayed bet it already read is kept; the model has no such window.
- Aviator.Round.PlaceBet: the source sets `currentBet` and posts the debit while still 'waiting', and moves to 'flying' only after two awaits (public/js/games.js:545-554). A second `placeBet` in that window, for example from the handler bound both by `addEventListener` (line 927) and by `onclick` (lines 571 and 869), passes the guard and posts a second debit. The model's method is atomic and its invariant excludes a stake held while waiting, so that double debit is not captured.
- Server.Database.PostTransaction: the foreign key on `userId` is not enforced by sqlite by default, so a row for an id with no user is appended and no balance changes. The model keeps this as written.
- Server.BroadcastName: `decoded.username` is `undefined` for every token login issues, because those tokens carry only `id` and `role`. The model returns None there instead of modelling arbitrary token payloads.
