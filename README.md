# Clue-Less computer player: data model

A Dafny model of the data structures the autonomous Clue-Less player is built
on, in the `auto` package of the repository:

- `Board` (`auto/board.py`): the fixed undirected graph of 9 rooms and
  12 hallways, with two secret passages (Conservatory–Lounge, Kitchen–Study),
  and the query `neighborhood(node, n)`: the locations whose unweighted
  shortest-path distance from `node` is exactly `n`. The graph library's
  Dijkstra search is replaced by breadth-first layers, which are proved equal
  to shortest walk length. A node name the graph does not hold is an error
  (`NodeNotFound`), as the graph library raises one.
- `GameEntity` (`auto/gameentity.py`): the `Person`, `Weapon`, `Room` and
  `Lobby` enumerations with their unique integer values.
- `PlayerMatrix` (`auto/playermatrix.py`): one player's sub-table, a row per
  card (21 lower-case card names) with a `c1` column filled with one
  placeholder and a `c2` column holding an empty set per card. The table is a
  value: two maps from card name to cell. The row order of the data frame
  comes from iterating a Python set and is arbitrary; the constructor is
  modelled over any ordering of the card set and proved to give the same
  table for all of them.
- `Pad` (`auto/pad.py`): a class whose map field goes from the ids
  `'p0' + str(x)`, x = 1..n, to fresh sub-tables, filled by the constructor's
  loop, with the `players_list` and `get_player_table` lookups.
- `Automaton` (`auto/automaton.py`): the player stub. Python attribute
  lookup is modelled explicitly: the class attribute `player_count` lives in a
  separate `PlayerClass` object; the constructor's guard reads it, and
  `self.player_count += 1` creates an instance attribute one above it and
  leaves the class attribute unchanged. `random.choice` is an arbitrary member
  of the list.
- `Vocabulary`: how the enumerations line up with the board's node names and
  with the sub-table's card index. `Strings` and `Results` are helpers.

The model follows the code where the code and its own messages and tests
disagree:

- `receive_cards` (auto/automaton.py:30-42) validates nothing. Its guard
  counts occurrences of the player object in the list, and `count >= 3 or
  count <= 6` holds for every count, so every hand is stored and returned.
  The IndexError of auto/automaton.py:40 is never raised. The tests at
  auto/tests/auto_core_unit_tests.py:73-108 expect that IndexError for a
  seven-card hand and a ValueError for an unknown card name. Neither can
  happen with this code.
- The "no more than 5 computer players" IndexError of auto/automaton.py:19
  is never raised through construction. The class attribute it reads
  (auto/automaton.py:5, 8) is never incremented; line 14 creates an
  instance attribute instead. Even if the counter were kept, the guard
  `player_count <= 5` would admit a sixth player.
- The tests also call members of the player that auto/automaton.py does
  not define (`_next_moves`, `_pad`, `update`, `take_turn`, `player_id`).
  They are not part of this model. The tests' one-step move answers are
  read as `neighborhood(X, 1)` on the board.

## Model

| member | source | states |
|---|---|---|
| `GameEntity.PersonEnumeration` | auto/gameentity.py:3-10 | `Person` has exactly the 6 listed members and the member with value v sits at position v-1 |
| `GameEntity.PersonValues` | auto/gameentity.py:3-10 | Person values are unique, and a value belongs to some member exactly when it is in 1..6 |
| `GameEntity.PersonOf` | auto/gameentity.py:3-10 | lookup by value returns only the member carrying that value |
| `GameEntity.WeaponEnumeration` | auto/gameentity.py:12-19 | `Weapon` has exactly the 6 listed members, indexed by value |
| `GameEntity.WeaponValues` | auto/gameentity.py:12-19 | Weapon values are unique and are exactly 1..6 |
| `GameEntity.WeaponOf` | auto/gameentity.py:12-19 | lookup by value returns only the member carrying that value |
| `GameEntity.RoomEnumeration` | auto/gameentity.py:21-31 | `Room` has exactly the 9 listed members, indexed by value |
| `GameEntity.RoomValues` | auto/gameentity.py:21-31 | Room values are unique and are exactly 1..9 |
| `GameEntity.RoomOf` | auto/gameentity.py:21-31 | lookup by value returns only the member carrying that value |
| `GameEntity.LobbyEnumeration` | auto/gameentity.py:33-46 | `Lobby` has exactly the 12 hallways, indexed by value |
| `GameEntity.LobbyValues` | auto/gameentity.py:33-46 | Lobby values are unique and are exactly 1..12 |
| `GameEntity.LobbyOf` | auto/gameentity.py:33-46 | lookup by value returns only the member carrying that value |
| `GameEntity.LobbyValueIsSuffix` | auto/gameentity.py:35-46 | each hallway's value is the two-digit suffix of its name |
| `Board.Adjacent` | auto/board.py:17-30 | the neighbours of each location in the undirected graph the constructor builds; no location is its own neighbour (AdjacentMatchesEdges ties it to the edge list) |
| `Board.Neighborhood` | auto/board.py:32-41 | the answer is a set of board locations, the source alone at distance 0, and never contains the source at any other distance |
| `Board.NameQueryOneStep` | auto/board.py:32-41 | on a node's name, the distance-1 answer is the names of its adjacency list |
| `Board.AdjacentMatchesEdges` | auto/board.py:17-30 | v and w are adjacent exactly when the edge list holds (v, w) or (w, v): the graph is undirected |
| `Board.NodeSet` | auto/board.py:18-30 | the graph's node set is the 9 rooms and the 12 hallways, disjoint, 21 nodes |
| `Board.HallwayJoinsTwoRooms` | auto/board.py:18-29 | every hallway has exactly two neighbours, both rooms |
| `Board.NoHallwayToHallwayEdge` | auto/board.py:18-30 | every edge has a room at one end at least |
| `Board.NoSelfLoop` | auto/board.py:18-30 | no location is its own neighbour |
| `Board.NeighborhoodOneIsAdjacent` | auto/board.py:32-41 | the distance-1 answer is exactly the adjacency list |
| `Board.NeighborhoodSymmetric` | auto/board.py:17 | w is at distance 1 from v exactly when v is at distance 1 from w |
| `Board.SecretPassages` | auto/board.py:30 | Conservatory and Lounge, and Kitchen and Study, are at distance 1 from each other |
| `Board.WithinMonotonic` | auto/board.py:40 | the breadth-first balls grow with the radius |
| `Board.WithinIsReach` | auto/board.py:40 | the ball of radius k holds exactly the locations reachable by a walk of at most k steps |
| `Board.LayerIsDistance` | auto/board.py:40-41 | on any graph, the n-th breadth-first layer is exactly the set of locations at shortest distance n |
| `Board.NeighborhoodIsDistance` | auto/board.py:32-41 | `neighborhood(v, n)` holds w exactly when the shortest path from v to w has n edges |
| `Board.SourceOnlyAtZero` | auto/board.py:40-41 | the answer at distance 0 is the source alone, and the source is in no other answer |
| `Board.LayersDisjoint` | auto/board.py:40-41 | on any graph, breadth-first layers for different distances are disjoint |
| `Board.NeighborhoodsDisjoint` | auto/board.py:40-41 | answers for different distances share no location |
| `Board.WithinClosed` | auto/board.py:40 | a ball never leaves a set that holds the source and is closed under adjacency |
| `Board.NeighborhoodOnBoard` | auto/board.py:40-41 | every answer is a subset of the board's nodes |
| `Board.ParseLocation` | auto/board.py:18-30 | a name parses only to the node that carries it |
| `Board.ParseName` | auto/board.py:18-30 | every node's name parses back to that node |
| `Board.NeighborhoodOfName` | auto/board.py:40 | the query on names fails exactly for a name that is not a node, with `NodeNotFound` naming it |
| `Board.NameQueryDefinedOnBoard` | auto/board.py:40 | the query on names succeeds exactly for the names of board nodes |
| `Board.NameQueryOnNode` | auto/board.py:40-41 | on a node's name the query answers the names of that node's layer |
| `Board.NextMovesFromHallway01` | auto/tests/auto_move_unit_tests.py:37 | the one-step answer the test expects of `_next_moves('Hallway_01')`, read as `neighborhood('Hallway_01', 1)`: {Study, Hall} |
| `Board.NextMovesFromBilliard` | auto/tests/auto_move_unit_tests.py:38-39 | the one-step answer the test expects of `_next_moves('Billiard')`, read as `neighborhood('Billiard', 1)`: {Hallway_04, Hallway_06, Hallway_07, Hallway_09} |
| `Board.NextMovesFromKitchen` | auto/tests/auto_move_unit_tests.py:40 | the one-step answer the test expects of `_next_moves('Kitchen')`, read as `neighborhood('Kitchen', 1)`: {Hallway_10, Hallway_12, Study}, Study by the secret passage |
| `PlayerMatrix.NewTable` | auto/playermatrix.py:24-32 | building the table over an ordering of the index succeeds exactly when the ordering has 21 cards (the `c2` list's length), with those cards as the rows of both columns and every `c2` cell empty |
| `PlayerMatrix.Initial` | auto/playermatrix.py:26-32 | the initial table has 21 rows in each column and no `c1` cell marked 1 |
| `PlayerMatrix.CardIndex` | auto/playermatrix.py:12-24 | 6 suspects, 9 rooms and 6 weapons, pairwise disjoint, so the card index has 21 names |
| `PlayerMatrix.SeriesOf` | auto/playermatrix.py:27-29 | a column from a list succeeds exactly when the list fits the index, and puts the i-th value at the i-th label |
| `PlayerMatrix.SeriesFill` | auto/playermatrix.py:26 | a column from one value has every index label as a row, each holding that value |
| `PlayerMatrix.C2ListFitsIndex` | auto/playermatrix.py:27-29 | the `c2` list holds 21 sets, as many as any ordering of the card index |
| `PlayerMatrix.DistinctCount` | auto/playermatrix.py:24-29 | an ordering without repetitions is as long as its set |
| `PlayerMatrix.CountDistinct` | auto/playermatrix.py:24-29 | a list as long as its set has no repetitions |
| `PlayerMatrix.UniformColumn` | auto/playermatrix.py:27-29 | a list of equal values over an ordering of a set gives that value on every card of the set |
| `PlayerMatrix.NewTableIsInitial` | auto/playermatrix.py:26-32 | for every ordering of the index the table is built, has the 21 cards as rows in both columns, every `c1` cell the placeholder (never 1) and every `c2` cell empty |
| `PlayerMatrix.NewTableOfCardOrder` | auto/playermatrix.py:24-32 | the constructor over one concrete ordering yields that initial table |
| `Pad.PlayerId` | auto/pad.py:16 | every id starts with 'p0' and is three characters long exactly for players 1..9 |
| `Pad.PadKeys` | auto/pad.py:15-16 | every id the loop adds is 'p0' + decimal(x) for some x in 1..n |
| `Pad.PlayerIdInjective` | auto/pad.py:16 | different player numbers give different ids |
| `Pad.PadKeysMembers` | auto/pad.py:15-16 | the pad for n players holds exactly the ids 'p0' + decimal(x) for x in 1..n |
| `Pad.PadSize` | auto/pad.py:15-16 | the pad for n players has exactly n entries, and none when n <= 0 |
| `Pad.Pad.constructor` | auto/pad.py:9-16 | the loop leaves exactly the ids of players 1..n as keys, each with a freshly built initial sub-table |
| `Pad.NewSubTable` | auto/pad.py:16 | each call yields the initial sub-table |
| `Pad.Pad.PlayersList` | auto/pad.py:18-26 | the key set, of size n, and nothing is changed |
| `Pad.Pad.GetPlayerTable` | auto/pad.py:28-34 | succeeds exactly for ids 'p01'..'p0n' and returns that id's table; any other id is a KeyError |
| `Pad.FourPlayerIds` | auto/tests/auto_pad_unit_tests.py:40-41 | a four-player pad holds 'p01'..'p04', and that list is sorted |
| `Automaton.PlayerClass.constructor` | auto/automaton.py:5 | the class attribute starts at 0 |
| `Automaton.Player.Create` | auto/automaton.py:7-19 | construction fails only when the class counter exceeds 5 or the list is empty; otherwise the selected suspect is in the list, the instance counter is the class counter plus 1, the hand is empty and the class counter is unchanged |
| `Automaton.Player.Init` | auto/automaton.py:11-17 | the new player holds the chosen suspect, an instance counter one above the class counter and an empty hand |
| `Automaton.Player.GetPlayer` | auto/automaton.py:22-28 | returns some member of the list; an empty list is an error |
| `Automaton.Player.ReceiveCards` | auto/automaton.py:30-42 | always succeeds, stores exactly the given hand (replacing any earlier one) and returns it; the selected suspect and the counter are unchanged |
| `Automaton.CreatePlayers` | auto/automaton.py:8-19 | any number of constructions in a row all succeed, each with instance counter one above the unchanged class counter |
| `Vocabulary.RoomLocation` | auto/gameentity.py:21-31 | each Room member names a room node of the board |
| `Vocabulary.LobbyLocation` | auto/gameentity.py:33-46 | each Lobby member names a hallway node of the board |
| `Vocabulary.BoardVocabulary` | auto/board.py:18-30 | the names of the Room and Lobby members are exactly the names of the board's nodes |
| `Vocabulary.CardVocabulary` | auto/playermatrix.py:12-24 | lower-cased, the Person, Weapon and Room names are the three card categories and together the 21-card index |
| `Strings.Decimal` | auto/pad.py:16 | `str(x)` of a natural number has one digit exactly when x < 10 |
| `Strings.DecimalInjective` | auto/pad.py:16 | different numbers have different decimal representations |

## Left out

- The graph library itself (Dijkstra's priority queue, its exception type): the distance query is stated as breadth-first layers and proved equal to shortest walk length.
- `Board.__init__`'s thirteen successive `add_edges_from` calls: the edge list is a constant set; insertion order does not affect the graph.
- `neighborhood` with a non-integer `n`: `n` is an integer; a negative `n` gives the empty set, as the comprehension does.
- pandas and numpy mechanics: the data frame is two maps from card name to cell; its row order (taken from a Python set) is a parameter, and the result is proved the same for every order.
- Automaton.Player.ReceiveCards, Pad.Pad.GetPlayerTable, Pad.Pad.PlayersList: the model returns values and copies. The source stores and returns the caller's own list (auto/automaton.py:38, 42), returns the pad's live data frame, through which callers mark the pad (auto/pad.py:34), and returns a live view of the keys in insertion order, 'p01' … 'p09', 'p010' (auto/pad.py:26). Aliasing and that order are not modelled.
- Object identity of the `c2` sets: the model has value semantics, so each cell is its own value and updating one cannot change another; aliasing is not represented.
- The `c1` placeholder (the `int` type object) is the single value `Unmarked`.
- The lower-case card names of `auto/playermatrix.py` are kept apart from the capitalised names of `auto/gameentity.py` and the board; `Vocabulary` relates them through lower-casing.
- `random.choice`: an arbitrary member of the list; which one is not specified.
- Logging, the socket server `auto/autoserver.py` and packaging: I/O with no logic of the player's own.
- The move, suggestion, accusation and update engine, the starting-location mapping and the ledger operations: they are not present in `auto/automaton.py`.
