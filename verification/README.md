# Electron-Angular-App core, modelled in Dafny

This project models the logic of an Electron/Angular desktop application and
its Spring back end.

- **The chess component** (`ChessGame`). It keeps an 8×8 board of one-letter
  piece codes, the side to move and the selected square. It generates
  pseudo-legal moves per piece, plays a random computer move, and runs a
  click-to-select / click-to-move state machine.
  - `ChessRules`: the move generator, as functions over board values.
  - `ChessRuleFacts`: what the generator guarantees.
  - `ChessPlay`: the handlers as transition functions.
  - `ChessComponent`: the component as a class whose board is an `array2`
    written in place. Each of its methods is proved equal to the value-level
    model.
- **The in-memory CRUD stores** `UsersService` and `CustomersService`
  (`ListStore`). A list of records plus a `nextId` counter, changed by push,
  index assignment and splice.
- **OAuth sign-in on the back end** (`UserService`, `Accounts`):
  - `makeUsernameUnique`;
  - `createOrUpdateOAuth2User` and `disconnectOAuth2Provider` over in-memory
    user and provider-link tables;
  - `convertToUserDTO`;
  - the two duplicate full-name builders of `User` and `UserDTO`.
- **Analytics helpers** (`AnalyticsData`, `EmailInsights`): page slicing, the
  CSV serialiser, and the domain table with its classifier and colours.
- **Dashboard aggregations** of `DataService`: the e-mail join, headline
  counts, status charts, and the per-department / per-industry charts with
  cyclic colours.
- **Shared pieces**: `Tally` is the insertion-ordered group-by-count that the
  stats and charts share; `Decimal` renders integers as text.

**Off-board pawn probes throw.** The pawn's diagonal probe
(`src/app/chess-game/chess-game.ts:142-146`) reads `board[y + dir]?.[nx]`,
which is `undefined` off the board; `isWhite` / `isBlack` then call a string
method on `undefined` and throw a TypeError. This happens for every pawn on
file 0 or 7 or on its last rank, so `getAllMoves` throws from the starting
position. The result type `ChessRules.Result` has a `TypeError` case for it;
`ChessRuleFacts.StartPositionAllMovesThrow` and
`ChessPlay.OpeningAgainstComputerThrows` state the consequences.

## Model

| member | source | states |
|---|---|---|
| ChessRules.Opponent | src/app/chess-game/chess-game.ts:92 | The turn flip gives the other colour. |
| ChessRules.Code | src/app/chess-game/chess-game.ts:6 | A piece's code is a single letter, and is empty exactly for the empty square. |
| ChessRules.ToUpperCase | src/app/chess-game/chess-game.ts:43 | `toUpperCase` keeps the length. |
| ChessRules.ToLowerCase | src/app/chess-game/chess-game.ts:44 | `toLowerCase` keeps the length. |
| ChessRules.IsWhite | src/app/chess-game/chess-game.ts:43 | `isWhite` holds iff the code is non-empty and equals its upper-case form. |
| ChessRules.IsBlack | src/app/chess-game/chess-game.ts:44 | `isBlack` holds iff the code is non-empty and equals its lower-case form. |
| ChessRules.Probe | src/app/chess-game/chess-game.ts:136-143 | `board[y]?.[x]` is defined iff (x, y) is on the board, and then it is that square. |
| ChessRules.StartGrid | src/app/chess-game/chess-game.ts:29-38 | The starting array is an 8×8 board. |
| ChessRules.AddMove | src/app/chess-game/chess-game.ts:126-132 | The `addMove` closure as a function; ChessRuleFacts.AddMoveWellFormed states that it records only on-board, empty or enemy targets with the right capture. |
| ChessRules.Ray | src/app/chess-game/chess-game.ts:181-191 | The `while` of `rayMoves` for one direction; ChessRuleFacts.RayShape and RayWellFormed state what it yields. |
| ChessRules.Rays | src/app/chess-game/chess-game.ts:179-193 | `rayMoves` over a list of directions; ChessRuleFacts.RaysWellFormed, RaysSnoc and RaysConcat state its facts. |
| ChessRules.Steps | src/app/chess-game/chess-game.ts:157-174 | The knight and king `forEach`; ChessRuleFacts.StepsDestinations and StepsWellFormed state its facts. |
| ChessRules.Diagonals | src/app/chess-game/chess-game.ts:142-146 | The pawn's diagonal `forEach`, with the throwing probe; ChessRuleFacts.DiagonalsGeneral and DiagonalsFacts state its facts. |
| ChessRules.PawnPushes | src/app/chess-game/chess-game.ts:136-141 | The pawn's straight steps; ChessRuleFacts.PawnPushesFacts states its facts. |
| ChessRules.PawnMoves | src/app/chess-game/chess-game.ts:135-146 | The pawn branch of `getMoves`; ChessRuleFacts.PawnMovesFacts states its facts. |
| ChessRules.Moves | src/app/chess-game/chess-game.ts:117-177 | `getMoves`; ChessRuleFacts.MovesFacts states when it throws and that its moves are well formed. |
| ChessRules.ScanBefore | src/app/chess-game/chess-game.ts:104-112 | The row-major loops of `getAllMoves` up to a square; ChessRuleFacts.ScanThrows and ScanGathered state its facts. |
| ChessRules.AllMoves | src/app/chess-game/chess-game.ts:102-115 | `getAllMoves`; ChessRuleFacts.AllMovesFacts states when it throws and what it gathers. |
| ChessRuleFacts.NotOwnEnemy | src/app/chess-game/chess-game.ts:121-124 | A piece's colour as `getMoves` computes it is its own colour, and `enemyCheck` never accepts a piece of that colour. |
| ChessRuleFacts.AddMoveWellFormed | src/app/chess-game/chess-game.ts:126-132 | `addMove` records only moves from (x, y) with that square's piece, to another on-board square that is empty or an enemy, with `capture` equal to the enemy occupant. |
| ChessRuleFacts.RayWellFormed | src/app/chess-game/chess-game.ts:179-193 | Every move of one ray is well formed in that sense. |
| ChessRuleFacts.AllWellFormedConcat | src/app/chess-game/chess-game.ts:179-193 | Well-formed moves gathered one after another stay well formed. |
| ChessRuleFacts.RaysWellFormed | src/app/chess-game/chess-game.ts:179-193 | Every move of `rayMoves` over any directions is well formed. |
| ChessRuleFacts.RayShape | src/app/chess-game/chess-game.ts:181-191 | A ray's destinations are consecutive squares along the direction, and all but the last are empty. The ray ends on an enemy capture, or after its last empty square where the edge or an own piece blocks it. Nothing beyond the stop is added. |
| ChessRuleFacts.ShapedCons | src/app/chess-game/chess-game.ts:184-185 | Adding an empty square in front of a shaped ray gives a shaped ray. |
| ChessRuleFacts.RaysSnoc | src/app/chess-game/chess-game.ts:180 | One more direction appends its ray at the end. |
| ChessRuleFacts.RaysConcat | src/app/chess-game/chess-game.ts:180 | `rayMoves` over a concatenation of direction lists is the concatenation of the two results. |
| ChessRuleFacts.QueenDirsSplit | src/app/chess-game/chess-game.ts:148-156 | The queen's direction list is the rook's followed by the bishop's. |
| ChessRuleFacts.QueenIsRookThenBishop | src/app/chess-game/chess-game.ts:148-156 | The queen's moves are the rook's moves followed by the bishop's moves from the same square. |
| ChessRuleFacts.StepsWellFormed | src/app/chess-game/chess-game.ts:157-174 | Every knight or king move is well formed. |
| ChessRuleFacts.StepTargetSnoc | src/app/chess-game/chess-game.ts:158-164 | One more offset adds exactly its own square to the possible targets. |
| ChessRuleFacts.StepsDestinations | src/app/chess-game/chess-game.ts:157-174 | Knight and king destinations are exactly the squares at the fixed offsets that are on the board and empty or enemy-occupied. |
| ChessRuleFacts.StepsDestsSnoc | src/app/chess-game/chess-game.ts:157-164 | One more knight/king offset adds its square to the destinations exactly when that square is on the board and empty or an enemy. |
| ChessRuleFacts.PawnPushesFacts | src/app/chess-game/chess-game.ts:136-141 | The straight pawn moves are well formed. The pawn steps one square forward only onto an empty square, and steps two only from its start row with both squares empty. |
| ChessRuleFacts.DiagonalsGeneral | src/app/chess-game/chess-game.ts:142-146 | The diagonal probes over any file list throw at the first file that is off the board. Otherwise they add exactly the enemy-occupied diagonal squares. |
| ChessRuleFacts.DiagonalsFacts | src/app/chess-game/chess-game.ts:142-146 | For files x-1 and x+1 the probes throw iff the pawn is on file 0 or 7 or its forward row is off the board. Otherwise the pawn moves diagonally only onto enemy pieces. |
| ChessRuleFacts.PawnMovesFacts | src/app/chess-game/chess-game.ts:135-147 | The pawn branch throws exactly when the probe does. Otherwise it gives the pushes followed by the diagonal captures, all well formed. |
| ChessRuleFacts.MovesFacts | src/app/chess-game/chess-game.ts:117-177 | `getMoves` gives [] on an empty square, throws exactly for a pawn whose probe throws, and otherwise returns only well-formed moves. |
| ChessRuleFacts.ScanStep | src/app/chess-game/chess-game.ts:104-113 | One more square of the scan throws iff the scan had thrown or that square holds a stuck pawn of the colour. |
| ChessRuleFacts.StuckBeforeRowStart | src/app/chess-game/chess-game.ts:104-105 | The squares before the start of row y are those before the end of row y-1. |
| ChessRuleFacts.StuckBeforeNextSquare | src/app/chess-game/chess-game.ts:105 | The squares before (x, y) are those before (x-1, y) plus (x-1, y) itself. |
| ChessRuleFacts.ScanThrows | src/app/chess-game/chess-game.ts:102-115 | The scan up to (x, y) throws iff a stuck pawn of the colour stands before (x, y) in row-major order. |
| ChessRuleFacts.ScanGathered | src/app/chess-game/chess-game.ts:102-115 | While the scan has not thrown, it has gathered only well-formed moves of pieces of the colour. |
| ChessRuleFacts.ScanSticky | src/app/chess-game/chess-game.ts:102-115 | Once the scan has thrown, `getAllMoves` throws. |
| ChessRuleFacts.AllMovesFacts | src/app/chess-game/chess-game.ts:102-115 | `getAllMoves(c)` throws iff some piece of colour c is a pawn on file 0 or 7 or on its last rank. Otherwise it returns only well-formed moves of pieces of colour c. |
| ChessRuleFacts.StartPositionAllMovesThrow | src/app/chess-game/chess-game.ts:28-38 | From the starting position, `getAllMoves` throws for both colours. |
| ChessPlay.Reset | src/app/chess-game/chess-game.ts:28-41 | `resetBoard` installs the starting array, white to move and no selection. It keeps the computer settings, and the selection invariant holds. |
| ChessPlay.Relocate | src/app/chess-game/chess-game.ts:89-91 | The origin becomes empty and the destination gets the origin's piece. Every other square is unchanged. |
| ChessPlay.ApplyMove | src/app/chess-game/chess-game.ts:88-93 | `makeMove` relocates the piece, flips the side to move and changes nothing else. |
| ChessPlay.TwoMovesRestoreTurn | src/app/chess-game/chess-game.ts:92 | Two moves in a row give the turn back. |
| ChessPlay.Pick | src/app/chess-game/chess-game.ts:98 | `Math.floor(Math.random() * n)` is an index below n. |
| ChessPlay.ComputerMove | src/app/chess-game/chess-game.ts:95-100 | `makeComputerMove` keeps the board 8×8 and the selection on the board. |
| ChessPlay.ComputerMoveFacts | src/app/chess-game/chess-game.ts:95-100 | `makeComputerMove` throws exactly when `getAllMoves` does, and then changes nothing. With no moves it changes nothing. Otherwise it applies exactly one generated move of a computer piece onto an empty or enemy square. |
| ChessPlay.Select | src/app/chess-game/chess-game.ts:82-85 | The game is unchanged except that the selection becomes (x, y) exactly when that square holds a piece of the side to move. It never throws on the board and keeps the game well formed. |
| ChessPlay.Click | src/app/chess-game/chess-game.ts:64-86 | `onSquareClick` keeps the board 8×8 and the selection on the board. |
| ChessPlay.ClickSelectedClears | src/app/chess-game/chess-game.ts:66-70 | Re-clicking the selected square only clears the selection. |
| ChessPlay.ClickWithoutMove | src/app/chess-game/chess-game.ts:64-86 | A click that is not a generated destination changes only the selection. On the board, when it does not throw, it selects the clicked square if that holds a piece of the side to move and otherwise keeps the selection. It throws only off the board or when the selected piece's generation throws, and then nothing changes. |
| ChessPlay.ClickMove | src/app/chess-game/chess-game.ts:71-78 | A click on a generated destination moves the piece, clears the selection and flips the turn. The computer then moves iff it is enabled and now to move. |
| ChessPlay.ClickKeepsSelectionOwned | src/app/chess-game/chess-game.ts:64-86 | Every click keeps the selected square on a piece of the side to move. |
| ChessPlay.NewGame | src/app/chess-game/chess-game.ts:18-26 | The initialised component holds the starting position with white to move and the computer off, and keeps the selection invariant. |
| ChessPlay.OpeningKingsPawn | src/app/chess-game/chess-game.ts:64-93 | Clicking e2 then e4 selects the pawn, then moves it two squares with black to move. |
| ChessPlay.OpeningAgainstComputerThrows | src/app/chess-game/chess-game.ts:73-76 | Against a computer playing black, that opening throws after the human move, which stays applied. |
| ChessPlay.AfterKingsPawnBlackThrows | src/app/chess-game/chess-game.ts:102-115 | After 1. e4, black's `getAllMoves` throws, because of its pawn on file 0. |
| ChessComponent.DiagonalsSticky | src/app/chess-game/chess-game.ts:142-146 | Once a diagonal probe has thrown, the whole `forEach` throws. |
| ChessComponent.RayStep | src/app/chess-game/chess-game.ts:182-186 | An empty square in the ray loop adds its quiet move; the rest of the ray is still to come, and the walk gets closer to the edge, so the loop ends. |
| ChessComponent.RayCapture | src/app/chess-game/chess-game.ts:187-189 | An enemy piece in the ray loop adds its capture as the last move of the ray. |
| ChessComponent.RayBlocked | src/app/chess-game/chess-game.ts:182-189 | A piece of its own side, or the edge of the board, ends the ray with nothing more added. |
| ChessComponent.StepsNext | src/app/chess-game/chess-game.ts:158-164 | One more knight/king offset adds exactly the move to its square, when that square is on the board and empty or an enemy. |
| ChessComponent.AddMoveEmpty | src/app/chess-game/chess-game.ts:126-130 | `addMove` onto an empty square of the board records one quiet move. |
| ChessComponent.DiagonalsNext | src/app/chess-game/chess-game.ts:142-146 | One more diagonal file throws off the board, and otherwise appends that file's capture if any. |
| ChessComponent.ChessGame.Snapshot | src/app/chess-game/chess-game.ts:18-22 | The fields read as a well-formed game value. |
| ChessComponent.ChessGame.constructor | src/app/chess-game/chess-game.ts:18-26 | The field initialisers and `ngOnInit` give the new game. |
| ChessComponent.ChessGame.ResetBoard | src/app/chess-game/chess-game.ts:28-41 | A fresh array holds the starting position, white is to move, nothing is selected, and the computer settings are kept. |
| ChessComponent.ChessGame.MakeMove | src/app/chess-game/chess-game.ts:88-93 | The two in-place writes and the turn flip give exactly `ApplyMove` of the previous state, on the same array. |
| ChessComponent.ChessGame.AddMoveAt | src/app/chess-game/chess-game.ts:126-132 | The closure gives `AddMove` on the current board. |
| ChessComponent.ChessGame.RayAlong | src/app/chess-game/chess-game.ts:181-191 | The `while` loop for one direction gives exactly that direction's ray. |
| ChessComponent.ChessGame.RayMoves | src/app/chess-game/chess-game.ts:179-193 | The loop over the directions gives the rays in direction order. |
| ChessComponent.ChessGame.StepMoves | src/app/chess-game/chess-game.ts:157-174 | The knight/king `forEach` gives exactly the offset moves. |
| ChessComponent.ChessGame.PawnPushesAt | src/app/chess-game/chess-game.ts:136-141 | The straight pawn steps. |
| ChessComponent.ChessGame.DiagonalMoves | src/app/chess-game/chess-game.ts:142-146 | The diagonal `forEach` gives the captures, or throws as the model does. |
| ChessComponent.ChessGame.PawnMovesAt | src/app/chess-game/chess-game.ts:135-147 | The pawn branch gives the pushes, then the diagonal captures, or throws. |
| ChessComponent.ChessGame.GetMoves | src/app/chess-game/chess-game.ts:117-177 | `getMoves` equals the move generator on the current board. |
| ChessComponent.ChessGame.GetAllMoves | src/app/chess-game/chess-game.ts:102-115 | The nested row-major loops equal `getAllMoves` on the current board, including where it throws. |
| ChessComponent.ChessGame.MakeComputerMove | src/app/chess-game/chess-game.ts:95-100 | The new state and the thrown flag are exactly `ComputerMove` of the previous state. |
| ChessComponent.ChessGame.OnSquareClick | src/app/chess-game/chess-game.ts:64-86 | The new state and the thrown flag are exactly `Click` of the previous state. |
| ListStore.Merge | src/app/services/users.ts:40 | The spread `{ ...e, ...p }` keeps the id. Each given field overrides; each absent field is kept. |
| ListStore.IndexOf | src/app/services/users.ts:38 | `findIndex` gives the first position holding the id, or -1 iff there is none. |
| ListStore.RemoveAt | src/app/services/users.ts:50 | `splice(i, 1)` drops exactly position i and keeps the order of the rest. |
| ListStore.SeedUsers | src/app/services/users.ts:9-15 | The five seeded users; ListStore.SeedsValid states their ids are distinct and below 6. |
| ListStore.SeedCustomers | src/app/services/customers.ts:9-15 | The five seeded customers; ListStore.SeedsValid states their ids are distinct and below 6. |
| ListStore.SeedsValid | src/app/services/users.ts:9-18 | Both seed lists have distinct ids, all below the first `nextId` of 6. |
| ListStore.FindAppended | src/app/services/users.ts:30-35 | A record appended with an id above all others is the one found for that id. |
| ListStore.RemovedIsGone | src/app/services/users.ts:47-55 | With distinct ids, after deleting the match no record has the id. |
| ListStore.UpdatedIsFound | src/app/services/users.ts:37-45 | After an update, the id is found at the same position. |
| ListStore.Store.Users | src/app/services/users.ts:9-18 | The users store starts with the five seeded users and `nextId` 6, and ids are distinct and below `nextId`. |
| ListStore.Store.Customers | src/app/services/customers.ts:9-18 | The customers store starts with the five seeded customers and `nextId` 6. |
| ListStore.Store.GetById | src/app/services/customers.ts:26-28 | `getUserById` / `getCustomerById` returns nothing iff no record has the id, and otherwise the first record with it. |
| ListStore.Store.Add | src/app/services/users.ts:30-35 | The new record gets id `nextId` and is appended. `nextId` goes up by one, and ids stay distinct and below `nextId`. |
| ListStore.Store.Update | src/app/services/customers.ts:37-45 | An unknown id returns null and changes nothing. A known id merges the patch into the first match only, at the same position, and returns it. |
| ListStore.Store.Delete | src/app/services/users.ts:47-55 | A present id removes exactly the first match and returns true. An absent id returns false and changes nothing. |
| ListStore.Store.GetStats | src/app/services/users.ts:57-65 | `total` is the number of records. One count per distinct role/status, each the number of records with it, and the counts sum to `total`. |
| Tally.Bump | src/app/services/users.ts:60 | One count step; Tally.BumpKeys, BumpSum and BumpCounts state its facts. |
| Tally.Tally | src/app/services/users.ts:59-62 | The counting `reduce` (and the `Map` counts of the department and industry charts); Tally.TallyFacts states its facts. |
| Tally.FirstIndex | src/app/services/users.ts:59-62 | Helper with no code of its own: the first position where a key appears, used to state the key order the reduce produces. |
| Tally.BumpKeys | src/app/services/users.ts:60 | `acc[k] = (acc[k] \|\| 0) + 1` keeps the keys distinct: a present key stays in place, and an absent key is appended. |
| Tally.BumpSum | src/app/services/users.ts:60 | Counting one key raises the sum of the counts by one. |
| Tally.BumpCounts | src/app/services/users.ts:60 | Counting k adds one to k's count (starting at 1 when absent) and leaves the other counts alone. |
| Tally.TallyFacts | src/app/services/data.service.ts:229-233 | The tally of a key list has distinct keys, exactly the keys of the list, in first-appearance order. Each count is the key's number of occurrences, and the counts sum to the list length. |
| Tally.OccurrencesAbsent | src/app/services/data.service.ts:232 | A key that does not occur has count 0. |
| Tally.FirstIndexPrefix | src/app/services/data.service.ts:231 | Extending the list keeps the first positions of keys already present. |
| Tally.FirstIndexAt | src/app/services/data.service.ts:231 | A key that first appears at the end has that position. |
| DataService.FindUser | src/app/services/data.service.ts:174 | `find` gives nothing iff no user has the id, and otherwise the first user with it. |
| DataService.FindCustomer | src/app/services/data.service.ts:181 | `find` gives nothing iff no customer has the id, and otherwise the first customer with it. |
| DataService.Relate | src/app/services/data.service.ts:170-187 | The address is kept. `userName` is set iff `userId` is truthy and a user matches, and equals first name, space, last name of the first match. `customerName` is set iff `customerId` is truthy and a customer matches, and equals its `companyName`. |
| DataService.EmailAddressesWithRelations | src/app/services/data.service.ts:169-191 | One related record per address, in order, each keeping the address. |
| DataService.UsersWithStatus | src/app/services/data.service.ts:196 | A filter count is at most the list length. |
| DataService.CountStatus | src/app/services/data.service.ts:198 | A filter count is at most the list length. |
| DataService.TotalRevenue | src/app/services/data.service.ts:199 | The revenue `reduce`; DataService.TotalRevenueBound states its bounds. |
| DataService.TotalRevenueBound | src/app/services/data.service.ts:199 | With no negative revenue, the total is non-negative and at least each single revenue. |
| DataService.GetDashboardStats | src/app/services/data.service.ts:193-204 | The totals are the list lengths. The active counts are the filter counts, at most the totals. The revenue is the sum. |
| DataService.UserStatusChart | src/app/services/data.service.ts:206-214 | Two entries, "Active Users" and "Inactive Users", with their fixed colours; their values are the active and inactive filter counts. |
| DataService.StatusesDisjoint | src/app/services/data.service.ts:207-208 | The counts of two different statuses add up to at most the number of users, and to exactly that number iff every user has one of the two. |
| DataService.UserStatusChartSum | src/app/services/data.service.ts:206-214 | The two values add up to at most the number of users, and to exactly that number iff every user is active or inactive. |
| DataService.CustomerStatusChart | src/app/services/data.service.ts:216-226 | Three entries, Active, Inactive and Pending, in green, red and orange; their values are the three status filter counts. |
| DataService.StatusCountsSum | src/app/services/data.service.ts:217-219 | The active, inactive and pending counts add up to the number of customers. |
| DataService.CustomerStatusChartSum | src/app/services/data.service.ts:216-226 | The customer status chart's values sum to the number of customers. |
| DataService.Colored | src/app/services/data.service.ts:239-246 | One chart entry per counted key. |
| DataService.ChartByKey | src/app/services/data.service.ts:229-246 | The counting `forEach` and the `colorIndex` loop give the tally of the keys, entry i coloured `colors[i mod \|colors\|]`. |
| DataService.KeyChartOrder | src/app/services/data.service.ts:229-246 | The entries of a key chart have distinct captions, in first-appearance order of the keys. |
| DataService.KeyChartMembers | src/app/services/data.service.ts:229-246 | A key chart has an entry for every key and for nothing else. |
| DataService.KeyChartValues | src/app/services/data.service.ts:235-245 | Each entry holds its key's number of occurrences. The values sum to the number of keys, and entry i has colour `colors[i mod \|colors\|]`. |
| DataService.ColoredTotal | src/app/services/data.service.ts:239-246 | Colouring keeps the total of the counts. |
| DataService.SameValuesSameTotal | src/app/services/data.service.ts:242 | Entries with the same values as a table have the same total. |
| DataService.DepartmentChart | src/app/services/data.service.ts:228-249 | `getDepartmentChartData` is the key chart of the users' departments in the department colours. |
| DataService.IndustryChart | src/app/services/data.service.ts:251-272 | `getIndustryChartData` is the key chart of the customers' industries in the industry colours. |
| AnalyticsData.ResolveIndex | src/app/analytics/services/analytics-data.ts:97 | A `slice` index is clamped to [0, len], and an index already in range is kept. |
| AnalyticsData.Slice | src/app/analytics/services/analytics-data.ts:97 | A slice is no longer than the list. |
| AnalyticsData.Page | src/app/analytics/services/analytics-data.ts:97 | `slice((page - 1) * limit, page * limit)` over any table; AnalyticsData.PageWindow and PagesCover state its facts. |
| AnalyticsData.GetUserList | src/app/analytics/services/analytics-data.ts:90-98 | `getUserList` over the three seeded rows; AnalyticsData.DefaultListsAll states that the defaults list them all. |
| AnalyticsData.PageWindow | src/app/analytics/services/analytics-data.ts:90-98 | For page ≥ 1 and limit ≥ 0, the page holds, in order, the elements with index in [(page-1)·limit, page·limit) that exist, and so at most `limit` of them. |
| AnalyticsData.PagesCover | src/app/analytics/services/analytics-data.ts:97 | Pages 1 to n, one after the other, are the first n·limit elements. |
| AnalyticsData.DefaultListsAll | src/app/analytics/services/analytics-data.ts:90-97 | With the default page and limit, all seeded users are listed. |
| AnalyticsData.Cell | src/app/analytics/services/analytics-data.ts:237-238 | A string is wrapped in double quotes, unescaped. A number or boolean is written unquoted. Null and a missing key give an empty cell. |
| AnalyticsData.Keys | src/app/analytics/services/analytics-data.ts:233 | `Object.keys(data[0])`, the header order; AnalyticsData.CsvCellsOfLine states the cells follow it. |
| AnalyticsData.Lookup | src/app/analytics/services/analytics-data.ts:237 | `row[header]`, nothing for a missing key; AnalyticsData.LookupCellFree and CsvCellsOfLine state its facts. |
| AnalyticsData.Join | src/app/analytics/services/analytics-data.ts:235-242 | `join` with a one-character separator; AnalyticsData.SplitJoin states that `Split` undoes it. |
| AnalyticsData.Split | src/app/analytics/services/analytics-data.ts:235-242 | Helper with no code of its own: the read-back inverse of `join`, used to state AnalyticsData.CsvLineCount and AnalyticsData.CsvCellsOfLine. Splitting gives at least one piece. |
| AnalyticsData.IndexOfChar | src/app/analytics/services/analytics-data.ts:235-242 | Helper with no code of its own: used by `Split` to read back what `join` wrote. It finds the first occurrence of a character. |
| AnalyticsData.SplitJoin | src/app/analytics/services/analytics-data.ts:235-242 | Splitting what `join` produced gives the parts back when no part holds the separator. |
| AnalyticsData.Cells | src/app/analytics/services/analytics-data.ts:236 | One cell per header. |
| AnalyticsData.CsvLines | src/app/analytics/services/analytics-data.ts:234-240 | The header line plus one line per row. |
| AnalyticsData.ConvertToCsv | src/app/analytics/services/analytics-data.ts:231 | Empty data gives the empty text. |
| AnalyticsData.LookupCellFree | src/app/analytics/services/analytics-data.ts:237 | A cell looked up by key holds no character that none of the row's cells holds. |
| AnalyticsData.JoinFree | src/app/analytics/services/analytics-data.ts:239 | Joining parts that lack a character, with another separator, gives a text that lacks it. |
| AnalyticsData.CsvLineCount | src/app/analytics/services/analytics-data.ts:230-243 | When no key or cell holds a newline, the text splits into the header line and one line per row, data.length + 1 lines. |
| AnalyticsData.CsvLineFree | src/app/analytics/services/analytics-data.ts:230-243 | A line of the text, the header line or a record's line, holds no newline when no key or cell does. |
| AnalyticsData.RecordLineFree | src/app/analytics/services/analytics-data.ts:236-239 | A record's line holds no character other than the comma that none of its values' cells holds. |
| AnalyticsData.CsvCellsOfLine | src/app/analytics/services/analytics-data.ts:233-239 | When no key or cell holds a comma, each row's line splits into one cell per header, in the first row's key order. A missing key gives an empty cell. |
| EmailInsights.GetDomainType | src/app/analytics/email-insights/email-insights.ts:137-144 | Business domains map to "Business", checked first. Tech domains map to "Technology", anything else to "Other". |
| EmailInsights.GetTypeColor | src/app/analytics/email-insights/email-insights.ts:146-152 | Business is '#3f51b5', Technology '#ff9800', anything else '#4caf50'. |
| EmailInsights.ToRecord | src/app/analytics/email-insights/email-insights.ts:128-134 | A row's domain, users and customers are copied, and `totalUsage` is users + customers. |
| EmailInsights.GetDomainData | src/app/analytics/email-insights/email-insights.ts:124-135 | Absent `topDomains` gives []. Otherwise the header row is skipped and there is one record per remaining row, in order. |
| EmailInsights.DomainColors | src/app/analytics/email-insights/email-insights.ts:137-152 | Each domain is coloured by its class. |
| Decimal.NatToString | backend/src/main/java/com/electronapp/authbackend/service/UserService.java:117 | The decimal text of a counter is non-empty and all digits, with no leading zero. |
| Decimal.NatToStringValue | backend/src/main/java/com/electronapp/authbackend/service/UserService.java:117 | Reading the decimal text back gives the number. |
| Decimal.NatToStringInjective | backend/src/main/java/com/electronapp/authbackend/service/UserService.java:117 | Different counters give different texts. |
| Decimal.IntToString | src/app/analytics/services/analytics-data.ts:238 | A number's text starts with '-' iff it is negative, and is otherwise digits. |
| Accounts.BuildFullName | backend/src/main/java/com/electronapp/authbackend/dto/UserDTO.java:34-42 | Both names: first, one space, last. Only a non-blank first name: that name. Only a non-blank last name: that name alone. Both null or empty: `username`, possibly null. |
| Accounts.NoLeadingSpace | backend/src/main/java/com/electronapp/authbackend/dto/UserDTO.java:37-39 | A built name that is not the fallback starts with a character of a name, never with the inserted space. |
| Accounts.GetFullName | backend/src/main/java/com/electronapp/authbackend/entity/User.java:90-98 | `User.getFullName` agrees with `UserDTO.buildFullName` on every input. |
| Accounts.NewUser | backend/src/main/java/com/electronapp/authbackend/entity/User.java:43-49 | The four-argument constructor sets email, username and both names as given. The rest is null. |
| Accounts.NewUserDTO | backend/src/main/java/com/electronapp/authbackend/dto/UserDTO.java:23-32 | Each argument is copied. `fullName` is `buildFullName` of the names and username, and the provider list is null. |
| Accounts.ConvertToUserDTO | backend/src/main/java/com/electronapp/authbackend/service/UserService.java:87-107 | The DTO of the user's fields, with the user's full name. The provider list is null iff the user's is, and otherwise holds one (name, external id) pair per link. |
| UserService.BeforeAt | backend/src/main/java/com/electronapp/authbackend/service/UserService.java:70 | The text before the first '@' is a prefix without '@'. It is followed by '@' unless it is the whole address. |
| UserService.LocalPart | backend/src/main/java/com/electronapp/authbackend/service/UserService.java:70 | `email.split("@")[0]` throws iff the address is non-empty and all '@', and otherwise is the text before the first '@'. |
| UserService.UserIndex | backend/src/main/java/com/electronapp/authbackend/service/UserService.java:50 | The saved user with an id, or -1 iff none. |
| UserService.EmailIndex | backend/src/main/java/com/electronapp/authbackend/service/UserService.java:54 | `findByEmail`: the user with the address, or -1 iff none. |
| UserService.LinkIndex | backend/src/main/java/com/electronapp/authbackend/service/UserService.java:45-46 | `findByProviderNameAndProviderUserId`: the link for the identity, or -1 iff none. |
| UserService.MatchIndex | backend/src/main/java/com/electronapp/authbackend/service/UserService.java:134 | `findByUserAndProviderName`: a link of that user and provider, or -1 iff there are none. |
| UserService.MatchCountConcat | backend/src/main/java/com/electronapp/authbackend/service/UserService.java:134 | The links matching a user and provider in two tables, one after the other, are the matches of the first plus those of the second. |
| UserService.RemoveOnlyMatch | backend/src/main/java/com/electronapp/authbackend/service/UserService.java:136-138 | Deleting the only matching link leaves no link of that user and provider. |
| UserService.CandidateInjective | backend/src/main/java/com/electronapp/authbackend/service/UserService.java:113-118 | Different counters give different candidate names. |
| UserService.UsernamesBound | backend/src/main/java/com/electronapp/authbackend/service/UserService.java:116 | There are no more taken names than users. |
| UserService.TriesCard | backend/src/main/java/com/electronapp/authbackend/service/UserService.java:113-118 | The first n tries are n different names. |
| UserService.LinksRemove | backend/src/main/java/com/electronapp/authbackend/service/UserService.java:137 | Deleting a link keeps the link table valid. |
| UserService.LinksAppend | backend/src/main/java/com/electronapp/authbackend/service/UserService.java:78-79 | Saving a fresh link for an unlinked identity to a saved user keeps the link table valid. |
| UserService.LinksUserAdded | backend/src/main/java/com/electronapp/authbackend/service/UserService.java:74 | Saving a user keeps every link pointing at a saved user. |
| UserService.UserService.constructor | backend/src/main/java/com/electronapp/authbackend/service/UserService.java:23-27 | The two repositories start as empty, valid tables. |
| UserService.UserService.MakeUsernameUnique | backend/src/main/java/com/electronapp/authbackend/service/UserService.java:112-122 | The result is free, and it is the first free try among base, base+1, base+2, …; every earlier try is taken. The loop ends because there are fewer taken names than users. |
| UserService.UserService.CreateOrUpdateOAuth2User | backend/src/main/java/com/electronapp/authbackend/service/UserService.java:42-82 | A known identity returns its user and saves nothing. Otherwise the user with the address is reused, or a new user is saved with the given e-mail, names and avatar and the first free name from the text before '@'. Exactly one link is then saved. An all-'@' address throws before saving. Afterwards a link from the identity to the returned user exists. |
| UserService.UserService.SaveUser | backend/src/main/java/com/electronapp/authbackend/service/UserService.java:74 | Saving a new user appends it and advances the id sequence; the tables stay valid. |
| UserService.UserService.SaveLink | backend/src/main/java/com/electronapp/authbackend/service/UserService.java:78-79 | Saving a link appends it with the next link id; the tables stay valid. |
| UserService.UserService.DisconnectOAuth2Provider | backend/src/main/java/com/electronapp/authbackend/service/UserService.java:127-142 | No user with the address, or no matching link: false, nothing deleted. Exactly one link: it is deleted and the result is true. More than one: the single-result query throws and nothing changes. |

## Left out

- `getPieceSymbol` and the Angular decorators, template and styles are presentation only.
- `Math.random()` is the parameter `rand` in [0, 1). The computer's pick is `Floor(rand * n)`.
- The `BehaviorSubject` emissions of the CRUD stores, and the `Observable` wrapping (`of(...)`) in `DataService` and the analytics service, are reactive plumbing. Only the arrays and `nextId` are modelled.
- `UsersService` and `CustomersService` are the same code. One class models both; its fourth field stands for `role` or `status`.
- ListStore.Store.GetStats: the counts are an insertion-ordered list of pairs, with every role or status an ordinary key (the same holds of Tally.Tally). The source counts into a plain object, which differs in two ways that are not modelled. First, integer-like keys come first when the object is enumerated. Second, keys inherited from `Object.prototype` start from that member rather than from 0: a role named "constructor" or "toString" gets a string built from a function's text plus "1", and a role named "__proto__" is never counted.
- ListStore.Store.Update: a patch field given explicitly as `undefined` overwrites with `undefined` in a JavaScript spread. The model treats it as absent.
- `DataService` works on tables passed as parameters. The contents of its mock tables, and `getUsers` / `getCustomers` / `getEmailAddresses`, which return them, are not modelled.
- The `createdAt` / `updatedAt` dates of every record, the `signupDate` / `lastActive` dates in the analytics user table, and `LocalDateTime.now()` are clocks and are left out.
- AnalyticsData.GetUserList: `page` and `limit` are integers. In the source they are JavaScript numbers, and `slice` truncates fractional indices and reads NaN as 0; those inputs are not modelled.
- AnalyticsData.Cell: numbers are integers. Non-integral numbers, `Date` and object values and their `toString` are not modelled.
- AnalyticsData.CsvLineCount: splitting into lines is stated only when no key or cell contains a newline, since the output does no escaping. Likewise for cells and commas in AnalyticsData.CsvCellsOfLine.
- EmailInsights.GetDomainData: rows are typed as (domain, users, customers). The header row, whose entries are strings, is skipped, so only its presence is modelled.
- Revenue is an unbounded integer. JavaScript floating-point sums are not modelled.
- The JPA repositories are in-memory tables inside the `UserService` class. `@Autowired`, `passwordEncoder`, transactions and the database's own constraints are left out.
- The `OAuth2Provider` tokens and timestamps, and the `User` password hash, are not modelled.
- UserService.UserService.CreateOrUpdateOAuth2User: the e-mail is not null. `email.split` on a null address throws `NullPointerException`, and that case is not modelled.
- UserService.UserService.CreateOrUpdateOAuth2User: the mapped collection `User.oauth2Providers` (`@OneToMany(mappedBy = "user")`, filled from the link table when JPA loads it) is not modelled. Each stored user's `oauth2Providers` field is kept as written and is not tied to the link table, so the user this method returns does not list the link it has just saved, and `Accounts.ConvertToUserDTO` of a stored user says nothing about the link table.
- UserService.UserService.MakeUsernameUnique: the Java `int counter` would wrap after 2^31 - 1 tries. The model's counter is unbounded; the loop ends long before that on any table smaller than that.
- Accounts.ConvertToUserDTO: the user's providers are a Java `Set`, whose stream order is unspecified. The model takes them as a list in a fixed order.
