# System-Design-in-Python, modelled in Dafny

This project models the logic of a set of small "system design" scripts and
proves properties about that model. Each script gets one Dafny module:

- `chess.dfy` (`Chess`): the per-piece move rules, the sliding-path scan, the
  8x8 starting position, `move_piece` and the turn flip.
- `tictactoe_func.dfy` (`TicTacToeFunctional`): the functional 3x3 game. It
  covers the winner and draw tests and one pass of the game loop.
- `tictactoe_class.dfy` (`TicTacToeBoard`): the class-based N x N game,
  modelled as written.
  - The row test looks only at the first cell of each row.
  - The draw test fires when any one row is full.
- `atm_handler.dfy` (`AtmHandler`): the ATM chain of note handlers
  (2000, then 500, then 100).
- `logger.dfy` (`LoggerChain`): the logger chain. Each logger writes a message
  of its own level and passes any other level on.
- `snake_and_ladder.dfy` (`SnakeAndLadder`): the board's jump rule, its
  validity and win tests, and one turn.
- `delivery_boy.dfy` (`DeliveryBoys`): the delivery boy's available/busy state
  machine.
- `delivery_strategy.dfy` (`DeliveryStrategies`): the round-robin strategy and
  the oldest-last-order strategy.
- `food_delivery.dfy` (`FoodDelivery`): menus, restaurant locations, and the
  (place, food type) restaurant index with its searches.
- `car_rental.dfy` (`CarRental`): cars, locations, reservations and the car
  searches.
- `flight_booking.dfy` (`FlightBooking`): flight schedules, the schedule
  search, login and the system's registries.
- `wrappers.dfy` (`Wrappers`): the shared `Option` type.

## How the model is shaped

Code that only computes a value becomes functions and lemmas. Code that
updates objects becomes classes whose methods carry `modifies` clauses and
state the whole new state. Loops that update variables become methods with
loop invariants, and each is proved against a specification function.

- `Chess.Board.MovePiece` and `TicTacToeBoard.PlaneBoard.MakeMove` update an
  `array2` in place.
- `Chess.IsPathClear` is the source's while loop, proved equal to the
  predicate `PathClear`.
- Each of these is a loop proved equal to a function that lemmas describe:
  - `TicTacToeBoard.PlaneBoard.CheckWinner` against `Winner`;
  - `FoodDelivery.FoodOrderingSystem.AddRestaurant` against `IndexItems`;
  - `FlightBooking.Flight.GetFlightSchedule` against `Matching`;
  - `FlightBooking.FlightBookingSystem.GetSchedules` against `AllMatching`.

Python-specific behaviour is written out explicitly:

- Python list indexing accepts negative indices in the functional tic-tac-toe
  (`PyIndex`).
- Floor division of seconds by 3600 and by 86400 is Dafny's Euclidean division
  (`GetDuration`, `DateOf`, `TimeOfDay`). It agrees with Python's for a
  positive divisor.
- A truthiness test on an optional argument becomes an `Option` parameter.
  `None`, `""` and `0.0` are the falsy values.

Timestamps are whole seconds on a naive clock. The delivery boy's initial
stamp `pd.to_datetime('2024-12-10')` is the constant 1733788800. The clock
reading `pd.to_datetime('now')` is a parameter of `CompleteOrder`.

The chess model has only what `Chess/chess.py` itself does:

- There is no check, checkmate or stalemate detection.
- There is no turn-ownership test: any colour may move on any turn. The turn
  flips after every successful move.
- A move from a square to itself is always refused (`Chess.NullMoveRejected`).
  King, knight and pawn geometry already refuses it. Queen, rook and bishop
  geometry accepts it (`Chess.SliderAcceptsNullMove`); for them it is refused
  only because the destination then holds a piece of the mover's own colour.

## Model

| member | source | states |
|---|---|---|
| Chess.IsPathClear | Chess/chess.py:52-64 | The loop answers true exactly when every square strictly between start and end, along the unit step, is empty. The start and end squares are never examined. |
| Chess.PieceCanMove | Chess/chess.py:72-147 | The answer is the kind-specific rule `CanMove`. The sliding pieces consult the path scan. |
| Chess.KingMovesToNeighbours | Chess/chess.py:72-75 | A king may move exactly to the eight neighbouring offsets, whatever the board holds. |
| Chess.KnightMovesToJumps | Chess/chess.py:122-125 | A knight may move exactly to the eight (1,2)/(2,1) jumps, whatever the board holds. |
| Chess.QueenIsRookOrBishop | Chess/chess.py:83-114 | A queen may move exactly where a rook or a bishop of its colour may. |
| Chess.SliderBlocked | Chess/chess.py:52-114 | An occupied square strictly between start and end forbids the move for queen, rook and bishop. |
| Chess.SliderAcceptsNullMove | Chess/chess.py:52-64 | The geometry and path scan of every sliding piece accept start = end. |
| Chess.PawnStraight | Chess/chess.py:135-143 | A pawn moves straight exactly onto an empty square. That square is one step forward, or two steps forward from its starting row; the square passed over is not tested. Forward is +y for White and -y for Black. |
| Chess.PawnDiagonal | Chess/chess.py:144-147 | A pawn moves one file sideways exactly when the move is one step forward onto a piece of the other colour. |
| Chess.PawnStaysNearFile | Chess/chess.py:133-147 | Every pawn move changing the file by two or more is refused. |
| Chess.NoFriendlyCapture | Chess/chess.py:216-217 | An allowed move starts on a piece and ends on an empty square or an opposite-colour piece. |
| Chess.NullMoveRejected | Chess/chess.py:212-221 | `move_piece` refuses start = end on every board. |
| Chess.InitialKingsUnique | Chess/chess.py:187-199 | The starting position has exactly one king per colour, on column 4 of that colour's back rank. |
| Chess.InitialPiecesAtHome | Chess/chess.py:187-199 | In the starting position rows 0, 1, 6 and 7 are occupied and rows 2-5 are empty. White is on rows 0-1 and Black on rows 6-7, with pawns exactly on the pawn rows. |
| Chess.Board.constructor | Chess/chess.py:183-185 | A new board holds exactly the starting position. |
| Chess.Board.InitializeBoard | Chess/chess.py:187-199 | Rows 0, 1, 6 and 7 get the back ranks (R,N,B,Q,K,B,N,R) and the pawn rows. Rows 2-5 keep what they held. |
| Chess.Board.MovePiece | Chess/chess.py:212-221 | The move succeeds exactly when the start holds a piece, that piece can move there, and the end is empty or holds the other colour. On success the piece is at the end, the start is empty and every other cell is unchanged. On failure the board is unchanged. |
| Chess.ChessGame.constructor | Chess/chess.py:225-227 | A new game has the starting position and White to move. |
| Chess.ChessGame.Play | Chess/chess.py:238-242 | The turn passes to the other colour exactly when the move succeeded. The board changes as for `MovePiece`. |
| TicTacToeFunctional.FirstWon | TicTacTOe/tic_tac_toe_using_func.py:8-23 | The result is the first cell of the first won line in the given order. It is never blank, and it is None exactly when no line is won. |
| TicTacToeFunctional.ScanFromIsFirstWon | TicTacTOe/tic_tac_toe_using_func.py:11-21 | The scan order is row i, then column i, for i = 0..2, then the main diagonal, then the anti-diagonal. It finds the first won line in that order. |
| TicTacToeFunctional.CheckWinner | TicTacTOe/tic_tac_toe_using_func.py:8-23 | A mark is returned exactly when some line has three equal non-blank cells, and it comes from the first such line in scan order. None is returned exactly when no line is won. |
| TicTacToeFunctional.DrawnBoardRefusesEveryCell | TicTacTOe/tic_tac_toe_using_func.py:26-28 | On a board where all nine cells are taken, every entry is out of range or refused. |
| TicTacToeFunctional.PyIndex | TicTacTOe/tic_tac_toe_using_func.py:44-51 | An index is accepted exactly when it lies in -3..2, as Python list indexing accepts it. A negative index counts from the end. |
| TicTacToeFunctional.PlayTurn | TicTacTOe/tic_tac_toe_using_func.py:41-69 | An invalid or taken cell leaves the board unchanged and the same player retries. Otherwise only that cell gets the player's mark, and a win is tested before a draw. Only then does the turn pass to player 1 - current, which stays in {0,1}. |
| TicTacToeBoard.PlaneBoard.constructor | TicTacTOe/Tic_tac_toe_class_based.py:13-15 | A new board is size x size with every cell EMPTY. |
| TicTacToeBoard.PlaneBoard.MakeMove | TicTacTOe/Tic_tac_toe_class_based.py:23-27 | The answer is true exactly when the cell was EMPTY. Then the cell holds the player; otherwise the board is unchanged. |
| TicTacToeBoard.PlaneBoard.EmptyCountZero | TicTacTOe/Tic_tac_toe_class_based.py:31 | A row's count of EMPTY cells is zero exactly when no cell of the row is EMPTY. |
| TicTacToeBoard.PlaneBoard.IsDraw | TicTacTOe/Tic_tac_toe_class_based.py:29-33 | The draw test is true exactly when at least one row has no EMPTY cell. |
| TicTacToeBoard.PlaneBoard.FirstMarkedRow | TicTacTOe/Tic_tac_toe_class_based.py:38-46 | The row scan stops at the first row whose first cell is not EMPTY. Earlier rows start with EMPTY. |
| TicTacToeBoard.PlaneBoard.FirstWonColumn | TicTacTOe/Tic_tac_toe_class_based.py:49-53 | The column scan stops at the first column whose top cell is not EMPTY and equals every cell below it. |
| TicTacToeBoard.PlaneBoard.CheckWinner | TicTacTOe/Tic_tac_toe_class_based.py:35-61 | The three loops return `Winner()`: rows first, then columns, then the two diagonals. |
| TicTacToeBoard.PlaneBoard.CheckDiagonals | TicTacTOe/Tic_tac_toe_class_based.py:56-61 | The main diagonal is tried before the anti-diagonal that starts at `board[size-1][0]`. None is returned when neither is won. |
| TicTacToeBoard.PlaneBoard.WinnerNotEmpty | TicTacTOe/Tic_tac_toe_class_based.py:35-61 | The winner returned is never EMPTY. |
| TicTacToeBoard.PlaneBoard.MarkedRowWins | TicTacTOe/Tic_tac_toe_class_based.py:38-46 | Any row whose first cell is a mark produces a winner, whatever the rest of that row holds. The winner is the first cell of that row or of an earlier one. |
| TicTacToeBoard.PlaneBoard.DiagonalsNeverDecide | TicTacTOe/Tic_tac_toe_class_based.py:56-61 | The diagonal tests never change the result. A non-EMPTY `board[0][0]` or `board[size-1][0]` is already caught by the row scan. |
| TicTacToeBoard.PlaneBoard.NoWinnerIff | TicTacTOe/Tic_tac_toe_class_based.py:35-61 | There is no winner exactly when every row starts with EMPTY and no column or diagonal is won. |
| TicTacToeBoard.TicTacToe.constructor | TicTacTOe/Tic_tac_toe_class_based.py:65-68 | A new game has an empty board of the given size, the given players, and player 0 to move. |
| TicTacToeBoard.TicTacToe.PlayTurn | TicTacTOe/Tic_tac_toe_class_based.py:82-109 | Out-of-range coordinates are refused before `make_move`, and a taken cell is refused. A win is tested before a draw. Only otherwise does the player index advance, to (cur+1) mod len(players), and it stays in range. |
| AtmHandler.Split | Logger/Atm_Handler.py:26-32 | For an amount a >= 0, notes·d + remainder = a, with 0 <= remainder < d. A negative amount issues nothing. |
| AtmHandler.SplitIsDivMod | Logger/Atm_Handler.py:26-32 | Both branches of the handler equal a div d and a mod d. |
| AtmHandler.HandleRequest | Logger/Atm_Handler.py:21-38 | Along the whole chain, the value of the notes issued plus the leftover equals the amount. The leftover is below the last denomination. Only denominations with at least one note are reported. "Cannot dispense" can only be the last event. |
| AtmHandler.LeftoverStep | Logger/Atm_Handler.py:26-38 | The remainder is forwarded only when it is positive and a next handler exists. At the end of the chain exactly that remainder is reported. |
| AtmHandler.LeftoverOfDispensing | Logger/Atm_Handler.py:21-38 | The reported leftover is the amount reduced modulo each denomination in turn. |
| AtmHandler.ConfiguredLeftover | Logger/Atm_Handler.py:54-56 | With the chain 2000, 500, 100, what cannot be dispensed is the amount mod 100, so it is always below 100. |
| AtmHandler.Withdraw2500 | Logger/Atm_Handler.py:59-61 | 2500 gives 1 x 2000 and 1 x 500. |
| AtmHandler.Withdraw3700 | Logger/Atm_Handler.py:63-65 | 3700 gives 1 x 2000, 3 x 500 and 2 x 100. |
| AtmHandler.Withdraw75 | Logger/Atm_Handler.py:67-69 | 75 is reported as undispensable. |
| LoggerChain.Owner | Logger/Logger.py:43-46 | Finds the first logger in the chain whose level matches, or -1 when no logger matches. |
| LoggerChain.Log | Logger/Logger.py:39-48 | The message is written exactly when some logger of the chain has its level, and it is written by the first such logger. Otherwise it is reported unhandled once, with its level and text. |
| LoggerChain.LaterLoggersIrrelevant | Logger/Logger.py:43-46 | Loggers after the handling one are never consulted. |
| LoggerChain.ConfiguredChainOutput | Logger/Logger.py:69-78 | With Error -> Debug -> Info, the INFO, DEBUG and ERROR messages are written by their own loggers. WARNING is unhandled. |
| SnakeAndLadder.FirstStarting | SnakeAndLadder/snake_and_ladder.py:80-83 | Finds the first jump in list order that starts at the cell, or -1 when none does. |
| SnakeAndLadder.Resolve | SnakeAndLadder/snake_and_ladder.py:79-86 | The result is one snake lookup step followed by one ladder lookup step. A step takes the first matching jump, or keeps the cell when none matches. |
| SnakeAndLadder.JumpStepUnique | SnakeAndLadder/snake_and_ladder.py:80-85 | A lookup step has exactly one outcome, so `Resolve` is the only result it allows. |
| SnakeAndLadder.NoJumpKeepsCell | SnakeAndLadder/snake_and_ladder.py:79-86 | A cell where no snake or ladder starts is returned unchanged. |
| SnakeAndLadder.ResolveLandsOnAnEnd | SnakeAndLadder/snake_and_ladder.py:79-86 | The result is the cell itself or the end of some snake or ladder. |
| SnakeAndLadder.DemoLadderFromStart | SnakeAndLadder/snake_and_ladder.py:111-112 | On the demo board, cell 1 leads to 38. |
| SnakeAndLadder.DemoLadderOntoSnakeHead | SnakeAndLadder/snake_and_ladder.py:111-112 | On the demo board, cell 4 climbs to 14 and stays there, though a snake starts at 14. |
| SnakeAndLadder.DemoSnakeOnly | SnakeAndLadder/snake_and_ladder.py:111-112 | On the demo board, cell 14 falls to 3. |
| SnakeAndLadder.DemoPlainCell | SnakeAndLadder/snake_and_ladder.py:111-112 | On the demo board, cell 50 stays 50. |
| SnakeAndLadder.Board.constructor | SnakeAndLadder/snake_and_ladder.py:60-65 | A new board has the given size, snakes and ladders. |
| SnakeAndLadder.Board.AddSnake | SnakeAndLadder/snake_and_ladder.py:67-68 | The snake is appended and earlier snakes are kept. |
| SnakeAndLadder.Board.AddLadder | SnakeAndLadder/snake_and_ladder.py:70-71 | The ladder is appended and earlier ladders are kept. |
| SnakeAndLadder.Player.constructor | SnakeAndLadder/snake_and_ladder.py:54-56 | A new player has the given name and position. |
| SnakeAndLadder.Game.constructor | SnakeAndLadder/snake_and_ladder.py:90-92 | A new game has the given board and players. |
| SnakeAndLadder.Game.PlayTurn | SnakeAndLadder/snake_and_ladder.py:97-106 | The new cell is `get_new_position(cur + roll)`. The player moves there only if it is at most `num_cells`, with validity tested after the jumps; otherwise the player stays put. The turn wins exactly when the player moves onto `num_cells`. |
| SnakeAndLadder.Game.PlayRound | SnakeAndLadder/snake_and_ladder.py:95-106 | Players move in list order, each to the cell its own turn gives, and no one ever stands beyond the last cell. The round stops at the first player whose roll reaches the last cell, who is returned. The players after that one do not move. -1 is returned when no roll reached it; then, if nobody started on the last cell, nobody stands on it. |
| DeliveryBoys.FoodOrder.UpdateOrderStatus | FoodDelivery/DeliveryBoy.py:38 | The order's status becomes the given one. |
| DeliveryBoys.DeliveryBoy.constructor | FoodDelivery/DeliveryBoy.py:7-13 | A new boy has the given status, no order and the stamp 2024-12-10. |
| DeliveryBoys.DeliveryBoy.Fresh | FoodDelivery/DeliveryBoy.py:7-13 | With the default status a new boy is "available", carries no order, and status "busy" holds exactly when an order is carried. |
| DeliveryBoys.DeliveryBoy.AssignOrder | FoodDelivery/DeliveryBoy.py:32-40 | An available boy becomes busy, stores the order and marks it "dispatched". A boy in any other status changes nothing. The busy-iff-carrying invariant is preserved. |
| DeliveryBoys.DeliveryBoy.CompleteOrder | FoodDelivery/DeliveryBoy.py:42-49 | With an order: the order is marked "completed", the boy becomes available, the order is cleared and the stamp is refreshed. Without one nothing changes. The invariant is preserved. |
| DeliveryStrategies.Availables | FoodDelivery/DeliveryAssignmentStrategy.py:39 | Exactly the boys whose status is "available" are kept. |
| DeliveryStrategies.AvailablesAppend | FoodDelivery/DeliveryAssignmentStrategy.py:39 | Filtering a concatenation filters each part and keeps the parts in order, so the available boys keep their list order and multiplicity. |
| DeliveryStrategies.Earliest | FoodDelivery/DeliveryAssignmentStrategy.py:59-66 | Picks a boy with the minimal last-order stamp. Ties go to the earliest in the list, as a stable sort gives. |
| DeliveryStrategies.RoundRobin.constructor | FoodDelivery/DeliveryAssignmentStrategy.py:34-35 | The index starts at -1. |
| DeliveryStrategies.RoundRobin.AssignDeliveryBoy | FoodDelivery/DeliveryAssignmentStrategy.py:37-49 | With no available boy: returns null, leaves the index unchanged and assigns nobody. Otherwise the index becomes (last+1) mod len(available) and stays in range. The boy at that index is the one returned and given the order. His stamp is unchanged. No other boy changes. |
| DeliveryStrategies.AssignByLastOrderTime | FoodDelivery/DeliveryAssignmentStrategy.py:54-68 | With no available boy: returns null and assigns nobody. Otherwise the returned boy is the available boy with the oldest stamp (first among ties), and that boy is the one given the order. His stamp is unchanged. No other boy changes. |
| FoodDelivery.Food.constructor | FoodDelivery/food_delivery.py:77-82 | A new item has the given fields. |
| FoodDelivery.Food.UpdateFood | FoodDelivery/food_delivery.py:84-88 | Price and status are overwritten only by truthy arguments. A falsy argument leaves its field unchanged. |
| FoodDelivery.WithoutId | FoodDelivery/food_delivery.py:99-100 | Exactly the items with a different id are kept, in order. |
| FoodDelivery.WithoutIdAppend | FoodDelivery/food_delivery.py:99-100 | Deleting from a concatenation deletes from each part. |
| FoodDelivery.WithoutIdIdempotent | FoodDelivery/food_delivery.py:99-100 | Deleting the same id twice removes nothing more. |
| FoodDelivery.DeleteUndoesAdd | FoodDelivery/food_delivery.py:96-100 | Deleting an id right after adding an item with that id gives the same menu as deleting it before. |
| FoodDelivery.Menu.constructor | FoodDelivery/food_delivery.py:91-94 | A new menu has no items. |
| FoodDelivery.Menu.AddFood | FoodDelivery/food_delivery.py:96-97 | The item is appended. |
| FoodDelivery.Menu.DeleteFood | FoodDelivery/food_delivery.py:99-100 | The menu becomes the filtered list. |
| FoodDelivery.Location.constructor | FoodDelivery/food_delivery.py:103-110 | A new location has the given fields. |
| FoodDelivery.Location.UpdateLocation | FoodDelivery/food_delivery.py:112-116 | City and state are overwritten only by non-empty arguments. |
| FoodDelivery.Restaurant.constructor | FoodDelivery/food_delivery.py:119-123 | A new restaurant has the given fields. |
| FoodDelivery.User.constructor | FoodDelivery/food_delivery.py:125-130 | A new user has the given id, name, user type and location, which may be absent. |
| FoodDelivery.User.SetLocation | FoodDelivery/food_delivery.py:138-139 | The user's location becomes the given one. |
| FoodDelivery.IndexKeepsOtherPlaces | FoodDelivery/food_delivery.py:175-180 | Registering a restaurant leaves the lists of every other place unchanged. |
| FoodDelivery.IndexOnlyAppends | FoodDelivery/food_delivery.py:175-180 | Registering only appends, and every earlier list is a prefix of its new value. |
| FoodDelivery.IndexAppendsOnlyR | FoodDelivery/food_delivery.py:175-180 | Every entry a registration appends under any key is the registered restaurant, so no other restaurant appears. |
| FoodDelivery.IndexListsActiveTypes | FoodDelivery/food_delivery.py:177-180 | An active item of type t lists the restaurant under (city, t) and (pincode, t). |
| FoodDelivery.IndexNeedsActiveItem | FoodDelivery/food_delivery.py:177-180 | Without an active item of type t, the (city, t) and (pincode, t) lists are unchanged, so inactive items add nothing. |
| FoodDelivery.ActiveItems | FoodDelivery/food_delivery.py:185-188 | Exactly the active items are kept, and only those of the type when one is given. |
| FoodDelivery.ActiveItemsAppend | FoodDelivery/food_delivery.py:185-188 | Filtering a concatenation filters each part and keeps the parts in order, so the items keep their menu order. |
| FoodDelivery.TypedLookupWithinUntyped | FoodDelivery/food_delivery.py:190-201 | Narrowing the search to a food type never finds more restaurants. |
| FoodDelivery.UntypedLookupIsUnion | FoodDelivery/food_delivery.py:190-201 | The untyped search is the union of the veg and non-veg searches. |
| FoodDelivery.RegisteredRestaurantIsFound | FoodDelivery/food_delivery.py:175-195 | After registration, a search at the restaurant's city and pincode for the type of one of its active items finds it. |
| FoodDelivery.FoodOrderingSystem.constructor | FoodDelivery/food_delivery.py:167-170 | A new system is empty. |
| FoodDelivery.FoodOrderingSystem.AddUsers | FoodDelivery/food_delivery.py:172-173 | The user is appended and nothing else changes. |
| FoodDelivery.FoodOrderingSystem.AddRestaurant | FoodDelivery/food_delivery.py:175-180 | The restaurant is appended. The index becomes the registration of each menu item in turn. |
| CarRental.Location.constructor | CarRental/car_rental.py:61-67 | A new location has the five given fields. |
| CarRental.Location.UpdateLocation | CarRental/car_rental.py:69-74 | All five fields are overwritten. |
| CarRental.Location.DeleteLocation | CarRental/car_rental.py:85-90 | All five fields become None. |
| CarRental.User.constructor | CarRental/car_rental.py:95-100 | A new user has the given fields. |
| CarRental.Car.constructor | CarRental/car_rental.py:114-121 | A new car has the given fields. |
| CarRental.Car.ReserveVehicle | CarRental/car_rental.py:123-128 | VACANT becomes BOOKED; any other status is unchanged. |
| CarRental.Car.UpdateCarDetails | CarRental/car_rental.py:130-135 | The five editable fields are overwritten. The id and chassis number cannot change. |
| CarRental.Reserve.constructor | CarRental/car_rental.py:140-147 | A new reservation has the given fields, which its price and duration getters return. |
| CarRental.OfType | CarRental/car_rental.py:168-169 | Exactly the cars of the type are returned. |
| CarRental.OfTypeAppend | CarRental/car_rental.py:168-169 | Searching a concatenation searches each part and keeps the parts in order, so the cars keep their list order. |
| CarRental.TypesPartitionCars | CarRental/car_rental.py:168-169 | Every car is found by exactly one type search. |
| CarRental.CarReservationSystem.constructor | CarRental/car_rental.py:158-163 | A new system is empty. |
| CarRental.CarReservationSystem.BookCar | CarRental/car_rental.py:171-173 | The car is reserved, and the reservation is appended even when the car was not vacant. The car's name, type, licence and location stay as they were, so the type and location searches are unaffected. |
| FlightBooking.DateOf | FlightBooking/FlightBooking.py:106 | The day of a moment is the unique d with d·86400 <= t < (d+1)·86400. |
| FlightBooking.TimeOfDay | FlightBooking/FlightBooking.py:107 | The time of day lies in [0, 86400) and, added to the day's start, gives back the moment. |
| FlightBooking.Airline.constructor | FlightBooking/FlightBooking.py:61-64 | A new airline has the given fields. |
| FlightBooking.Airport.constructor | FlightBooking/FlightBooking.py:67-73 | A new airport has the given fields. |
| FlightBooking.FlightSchedule.constructor | FlightBooking/FlightBooking.py:76-82 | A new schedule has the given fields. |
| FlightBooking.FlightSchedule.GetDuration | FlightBooking/FlightBooking.py:84-85 | The duration is floor((end - start) / 3600): h·3600 <= end - start < (h+1)·3600. |
| FlightBooking.MatchingAppend | FlightBooking/FlightBooking.py:102-109 | Filtering a concatenation filters each part and keeps the parts in order, so the schedules keep their insertion order. |
| FlightBooking.Matching | FlightBooking/FlightBooking.py:102-109 | Exactly the schedules passing the filter are kept. The filter checks the departure date, both airports, departure time of day <= arrival time, and arrival time of day >= departure time. |
| FlightBooking.Flight.constructor | FlightBooking/FlightBooking.py:89-94 | A new flight has no schedules. |
| FlightBooking.Flight.UpdateStatus | FlightBooking/FlightBooking.py:96-97 | The status is overwritten. |
| FlightBooking.Flight.AddSchedule | FlightBooking/FlightBooking.py:99-100 | The schedule is appended. |
| FlightBooking.Flight.GetFlightSchedule | FlightBooking/FlightBooking.py:102-109 | The loop returns `Matching` of the flight's schedules. |
| FlightBooking.AllMatchingMembers | FlightBooking/FlightBooking.py:186-194 | A schedule is in the search result exactly when it passes the filter and belongs to an admitted flight. All flights are admitted when no airline is given; otherwise the flight's airline must be the given one. |
| FlightBooking.AllMatchingAppend | FlightBooking/FlightBooking.py:186-194 | Searching a list of flights split in two gives the first part's matches followed by the second part's, so the result follows flight order. |
| FlightBooking.User.constructor | FlightBooking/FlightBooking.py:115-121 | A new user has status None. The personal details passed in are not stored. |
| FlightBooking.User.Login | FlightBooking/FlightBooking.py:123-127 | The answer is true exactly when both username and password match. Then the status becomes "logged_in"; otherwise it is unchanged. |
| FlightBooking.FlightBookingSystem.constructor | FlightBooking/FlightBooking.py:165-172 | A new system is empty. |
| FlightBooking.FlightBookingSystem.AddAirline | FlightBooking/FlightBooking.py:174-175 | The airline is appended and the other lists are unchanged. |
| FlightBooking.FlightBookingSystem.AddAirport | FlightBooking/FlightBooking.py:177-178 | The airport is appended and the other lists are unchanged. |
| FlightBooking.FlightBookingSystem.AddFlights | FlightBooking/FlightBooking.py:180-181 | The flight is appended and the other lists are unchanged. |
| FlightBooking.FlightBookingSystem.AddUser | FlightBooking/FlightBooking.py:183-184 | The user is appended and the other lists are unchanged. |
| FlightBooking.FlightBookingSystem.GetSchedules | FlightBooking/FlightBooking.py:186-194 | The loop returns `AllMatching`: the matches of the admitted flights, concatenated in flight order. |

Some members are plain reads without a contract of their own:

- `Chess.Board.GetCell` (`get_cell`);
- `TicTacToeFunctional.IsDraw` (`is_draw`): all nine cells differ from blank. `DrawnBoardRefusesEveryCell` states its consequence;
- `SnakeAndLadder.Board.GetNewPosition` (`get_new_position`): `Resolve` on the board's snake and ladder lists, whose lemmas describe it;
- `SnakeAndLadder.Board.IsCellValid` and `IsWinner`, which `Game.PlayTurn` states;
- `CarRental.CarReservationSystem.GetCarByLocation`, the mapped list or an empty list;
- `CarRental.CarReservationSystem.GetCarByType`, which is `OfType`;
- `FoodDelivery.FoodOrderingSystem.GetFoodItems`, which is `ActiveItems`;
- `FoodDelivery.FoodOrderingSystem.GetAllRestaurants`, which is `Lookup`;
- `CarRental.Location.GetLocation`;
- `FoodDelivery.User.GetLocation`, which returns the stored location.

## Left out

- Console I/O and the interactive loops. This covers the `while True` loops of
  `ChessGame.start_game`, `tic_tac_toe()`, `TicTacToe.start_game` and
  `SnakeAndLadder.start_game`, `get_player_move`, `print_board`, `__str__`, the
  pawn's debug print, and every printed message. Single turns take their inputs
  as parameters, and printed outcomes are returned as values.
- Chess coordinates outside 0..7: these are a precondition here. Python would
  wrap negative indices or raise `IndexError`, which the game loop catches.
  The same holds for the class-based tic-tac-toe's `make_move`, which is only
  reached after the range check.
- `Dice.roll`, which is random: the roll is a parameter in 1..6.
- Floating point:
  - `DeliveryBoy.distance_from` (haversine) and the
    `NearestDeliveryBoyStrategy` built on it;
  - latitude and longitude in the food-delivery `Location`;
  - prices are plain `real` values that are stored and compared with zero.
- Sub-second precision: `FlightSchedule.GetDuration` works on whole seconds, so
  `total_seconds()` fractions are not modelled.
- FlightBooking.Flight.GetFlightSchedule: the `date`, `arrival_time` and
  `departure_time` arguments are a day number and two times of day. These are
  the only types against which the source's `date()`/`time()` comparisons are
  meaningful.
- `pandas`, `datetime` and `uuid`. Stamps are integers, and the current time
  is a parameter.
- `BookingDetails.confirm` and `FlightBookingSystem.confirm_booking`. They use
  `uuid` and write to attributes the object does not have, so they raise.
- Payment, notification and the system's `payments`/`notifications`/
  `booking_details` lists, which only those two operations touch.
- Meals and `Flight.meals`, which no modelled operation reads.
- The food-delivery observers (`Observer` and its three notifications,
  `FoodBooking`, `confirm_booking`) and the sign-in/sign-up prints. They are
  print-only.
- `FoodOrder` is not defined in the repository. `DeliveryBoys.FoodOrder` is a
  stand-in: its booking id, plus a status that `update_order_status` sets.
- The shared mutable default arguments of the snake-and-ladder `Board`
  constructor, which make boards built without lists alias one list. Each
  `Board` here owns its own lists.
- `Reserve.get_price` and `Reserve.get_duration`: they return the constant
  fields `rentalPrice` and `durationInHr` unchanged, so they are those fields.
- The module-level demo scripts. They appear only as fixture lemmas: the ATM
  withdrawals, the logger messages and the snake-and-ladder board.
- TicTacToeBoard.PlaneBoard.CheckWinner: requires a board of size at least 1,
  and so do `Winner` and the functions behind it. On a size-0 board the source
  raises `IndexError` at `self.board[0][0]`; that error path is not modelled.
- SnakeAndLadder.Game.PlayRound: requires each player to appear once in the
  list. A list holding the same `Player` object twice, which would move that
  player twice in one round, is not modelled.
- AtmHandler.HandleRequest: requires positive denominations. With a zero
  denomination the source divides by zero.
