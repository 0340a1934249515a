/**
 * The Clue-Less board: a fixed undirected graph of 9 rooms and 12 hallways,
 * with two secret passages joining diagonally opposite rooms, and the query
 * "which locations lie exactly n steps from this one".
 */
module Board {
  import opened Results

  /** The 21 node names the board graph is built from. */
  datatype Location =
    | Study | Hall | Lounge | Library | Billiard | Dining | Conservatory | Ballroom | Kitchen
    | Hallway_01 | Hallway_02 | Hallway_03 | Hallway_04 | Hallway_05 | Hallway_06
    | Hallway_07 | Hallway_08 | Hallway_09 | Hallway_10 | Hallway_11 | Hallway_12
  {
    /** The string the graph uses for this node. */
    function Name(): string {
      match this
      case Study => "Study"
      case Hall => "Hall"
      case Lounge => "Lounge"
      case Library => "Library"
      case Billiard => "Billiard"
      case Dining => "Dining"
      case Conservatory => "Conservatory"
      case Ballroom => "Ballroom"
      case Kitchen => "Kitchen"
      case Hallway_01 => "Hallway_01"
      case Hallway_02 => "Hallway_02"
      case Hallway_03 => "Hallway_03"
      case Hallway_04 => "Hallway_04"
      case Hallway_05 => "Hallway_05"
      case Hallway_06 => "Hallway_06"
      case Hallway_07 => "Hallway_07"
      case Hallway_08 => "Hallway_08"
      case Hallway_09 => "Hallway_09"
      case Hallway_10 => "Hallway_10"
      case Hallway_11 => "Hallway_11"
      case Hallway_12 => "Hallway_12"
    }

    predicate IsRoom() {
      Study? || Hall? || Lounge? || Library? || Billiard? || Dining? || Conservatory? || Ballroom? || Kitchen?
    }

    predicate IsHallway() { !IsRoom() }
  }

  type Edge = (Location, Location)

  /** The edges the constructor adds, in thirteen batches of two. */
  const Edges: set<Edge> := {
    (Study, Hallway_01), (Study, Hallway_03),
    (Hallway_01, Hall), (Hallway_03, Library),
    (Library, Hallway_08), (Hallway_08, Conservatory),
    (Conservatory, Hallway_11), (Hallway_11, Ballroom),
    (Ballroom, Hallway_12), (Hallway_12, Kitchen),
    (Hall, Hallway_04), (Hallway_04, Billiard),
    (Billiard, Hallway_09), (Hallway_09, Ballroom),
    (Hall, Hallway_02), (Hallway_02, Lounge),
    (Lounge, Hallway_05), (Hallway_05, Dining),
    (Dining, Hallway_10), (Hallway_10, Kitchen),
    (Library, Hallway_06), (Hallway_06, Billiard),
    (Billiard, Hallway_07), (Hallway_07, Dining),
    // the two secret passages
    (Conservatory, Lounge), (Kitchen, Study)
  }

  /** The nine rooms. */
  const Rooms: set<Location> :=
    {Study, Hall, Lounge, Library, Billiard, Dining, Conservatory, Ballroom, Kitchen}

  /** The twelve hallways. */
  const Hallways: set<Location> := {
    Hallway_01, Hallway_02, Hallway_03, Hallway_04, Hallway_05, Hallway_06,
    Hallway_07, Hallway_08, Hallway_09, Hallway_10, Hallway_11, Hallway_12
  }

  const AllLocations: set<Location> := Rooms + Hallways

  /** The graph's node set: every endpoint of an edge. */
  function Nodes(): set<Location> {
    (set e | e in Edges :: e.0) + (set e | e in Edges :: e.1)
  }

  /**
   * The adjacency lists of the undirected graph built from Edges
   * (AdjacentMatchesEdges proves that they are exactly the edge relation
   * taken in both directions). No location is its own neighbour.
   */
  function Adjacent(v: Location): (r: set<Location>)
    ensures v !in r
  {
    match v
    case Study => {Hallway_01, Hallway_03, Kitchen}
    case Hall => {Hallway_01, Hallway_04, Hallway_02}
    case Lounge => {Hallway_02, Hallway_05, Conservatory}
    case Library => {Hallway_03, Hallway_08, Hallway_06}
    case Billiard => {Hallway_04, Hallway_09, Hallway_06, Hallway_07}
    case Dining => {Hallway_05, Hallway_10, Hallway_07}
    case Conservatory => {Hallway_08, Hallway_11, Lounge}
    case Ballroom => {Hallway_11, Hallway_12, Hallway_09}
    case Kitchen => {Hallway_12, Hallway_10, Study}
    case Hallway_01 => {Study, Hall}
    case Hallway_02 => {Hall, Lounge}
    case Hallway_03 => {Study, Library}
    case Hallway_04 => {Hall, Billiard}
    case Hallway_05 => {Lounge, Dining}
    case Hallway_06 => {Library, Billiard}
    case Hallway_07 => {Billiard, Dining}
    case Hallway_08 => {Library, Conservatory}
    case Hallway_09 => {Billiard, Ballroom}
    case Hallway_10 => {Dining, Kitchen}
    case Hallway_11 => {Conservatory, Ballroom}
    case Hallway_12 => {Ballroom, Kitchen}
  }

  /** An adjacency function: the neighbours of each location. */
  type Graph = Location -> set<Location>

  /** Every location one step away from some member of s. */
  function Step(adj: Graph, s: set<Location>): set<Location> {
    set u, w | u in s && w in adj(u) :: w
  }

  /** Breadth-first ball: the locations reachable from v in at most k steps. */
  function Within(adj: Graph, v: Location, k: nat): set<Location>
    decreases k
  {
    if k == 0 then {v} else Within(adj, v, k - 1) + Step(adj, Within(adj, v, k - 1))
  }

  /** The n-th breadth-first layer around v; no layer has a negative index. */
  function Layer(adj: Graph, v: Location, n: int): set<Location> {
    if n < 0 then {}
    else if n == 0 then {v}
    else Within(adj, v, n) - Within(adj, v, n - 1)
  }

  /**
   * The locations whose shortest unweighted distance from v on the board is
   * exactly n (NeighborhoodIsDistance).
   */
  function Neighborhood(v: Location, n: int): (r: set<Location>)
    ensures r <= AllLocations
    ensures n == 0 ==> r == {v}
    ensures n != 0 ==> v !in r
  {
    if n > 0 then
      WithinMonotonic(Adjacent, v, 0, n - 1);
      BallOnBoard(v, n);
      Layer(Adjacent, v, n)
    else
      IsListed(v);
      Layer(Adjacent, v, n)
  }

  /** The node with the given name, if the board has one. */
  function ParseLocation(s: string): (r: Option<Location>)
    ensures r.Some? ==> r.value.Name() == s
  {
    if |s| == 10 && s[..8] == "Hallway_" then
      var h := ParseHallway(s[8], s[9]);
      assert s == "Hallway_" + [s[8], s[9]];
      h
    else if s == "Study" then Some(Study)
    else if s == "Hall" then Some(Hall)
    else if s == "Lounge" then Some(Lounge)
    else if s == "Library" then Some(Library)
    else if s == "Billiard" then Some(Billiard)
    else if s == "Dining" then Some(Dining)
    else if s == "Conservatory" then Some(Conservatory)
    else if s == "Ballroom" then Some(Ballroom)
    else if s == "Kitchen" then Some(Kitchen)
    else None
  }

  /** The hallway whose name ends in the two digits d1 d2. */
  function ParseHallway(d1: char, d2: char): (r: Option<Location>)
    ensures r.Some? ==> r.value.Name() == "Hallway_" + [d1, d2]
  {
    match (d1, d2)
    case ('0', '1') => Some(Hallway_01)
    case ('0', '2') => Some(Hallway_02)
    case ('0', '3') => Some(Hallway_03)
    case ('0', '4') => Some(Hallway_04)
    case ('0', '5') => Some(Hallway_05)
    case ('0', '6') => Some(Hallway_06)
    case ('0', '7') => Some(Hallway_07)
    case ('0', '8') => Some(Hallway_08)
    case ('0', '9') => Some(Hallway_09)
    case ('1', '0') => Some(Hallway_10)
    case ('1', '1') => Some(Hallway_11)
    case ('1', '2') => Some(Hallway_12)
    case _ => None
  }

  datatype BoardError = NodeNotFound(name: string)

  function Names(s: set<Location>): set<string> {
    set v | v in s :: v.Name()
  }

  /** The query on node names: an unknown source node is an error, as in the graph library. */
  function NeighborhoodOfName(node: string, n: int): (r: Result<set<string>, BoardError>)
    ensures r.Err? <==> ParseLocation(node).None?
    ensures r.Err? ==> r.error == NodeNotFound(node)
  {
    match ParseLocation(node)
    case None => Err(NodeNotFound(node))
    case Some(v) => Ok(Names(Neighborhood(v, n)))
  }

  // ---------------------------------------------------------------------
  // Shortest-path distance, stated independently of the breadth-first layers

  /** A walk: a non-empty sequence of locations, each adjacent to the next. */
  ghost predicate IsWalk(adj: Graph, p: seq<Location>) {
    |p| >= 1 && forall i :: 0 <= i < |p| - 1 ==> p[i + 1] in adj(p[i])
  }

  /** w can be reached from v by a walk of exactly k steps. */
  ghost predicate Reaches(adj: Graph, v: Location, w: Location, k: nat) {
    exists p :: IsWalk(adj, p) && |p| == k + 1 && p[0] == v && p[k] == w
  }

  /** The shortest path from v to w has exactly n edges. */
  ghost predicate AtDistance(adj: Graph, v: Location, w: Location, n: nat) {
    Reaches(adj, v, w, n) && forall j :: 0 <= j < n ==> !Reaches(adj, v, w, j)
  }

  // ---------------------------------------------------------------------
  // Breadth-first layers on any graph

  /** The breadth-first balls grow with k. */
  lemma {:induction false} WithinMonotonic(adj: Graph, v: Location, j: nat, k: nat)
    requires j <= k
    ensures Within(adj, v, j) <= Within(adj, v, k)
    decreases k
  {
    if j < k {
      WithinMonotonic(adj, v, j, k - 1);
    }
  }

  /** A walk of j steps extends by one adjacent location. */
  lemma ExtendWalk(adj: Graph, v: Location, u: Location, w: Location, j: nat)
    requires Reaches(adj, v, u, j) && w in adj(u)
    ensures Reaches(adj, v, w, j + 1)
  {
    var p :| IsWalk(adj, p) && |p| == j + 1 && p[0] == v && p[j] == u;
    var q := p + [w];
    assert IsWalk(adj, q);
    assert q[j + 1] == w;
  }

  /** A walk of k + 1 steps ends one step after a walk of k steps. */
  lemma ShortenWalk(adj: Graph, v: Location, w: Location, k: nat) returns (u: Location)
    requires Reaches(adj, v, w, k + 1)
    ensures Reaches(adj, v, u, k) && w in adj(u)
  {
    var p :| IsWalk(adj, p) && |p| == k + 2 && p[0] == v && p[k + 1] == w;
    var q := p[..k + 1];
    assert IsWalk(adj, q);
    u := p[k];
  }

  /** Whatever the k-th ball holds is reachable in at most k steps. */
  lemma {:induction false} WithinReached(adj: Graph, v: Location, w: Location, k: nat) returns (j: nat)
    requires w in Within(adj, v, k)
    ensures j <= k && Reaches(adj, v, w, j)
    decreases k
  {
    if k == 0 {
      assert IsWalk(adj, [v]);
      j := 0;
    } else if w in Within(adj, v, k - 1) {
      j := WithinReached(adj, v, w, k - 1);
    } else {
      var u :| u in Within(adj, v, k - 1) && w in adj(u);
      var i := WithinReached(adj, v, u, k - 1);
      ExtendWalk(adj, v, u, w, i);
      j := i + 1;
    }
  }

  /** Whatever is reachable in j steps lies in every ball of radius at least j. */
  lemma {:induction false} ReachedWithin(adj: Graph, v: Location, w: Location, j: nat, k: nat)
    requires j <= k && Reaches(adj, v, w, j)
    ensures w in Within(adj, v, k)
    decreases k
  {
    if j < k {
      ReachedWithin(adj, v, w, j, k - 1);
    } else if k == 0 {
      var p :| IsWalk(adj, p) && |p| == 1 && p[0] == v && p[0] == w;
    } else {
      var u := ShortenWalk(adj, v, w, k - 1);
      ReachedWithin(adj, v, u, k - 1, k - 1);
    }
  }

  /** The k-th ball holds exactly the locations reachable in at most k steps. */
  lemma WithinIsReach(adj: Graph, v: Location, w: Location, k: nat)
    ensures w in Within(adj, v, k) <==> exists j :: 0 <= j <= k && Reaches(adj, v, w, j)
  {
    if w in Within(adj, v, k) {
      var j := WithinReached(adj, v, w, k);
    }
    if exists j :: 0 <= j <= k && Reaches(adj, v, w, j) {
      var j :| 0 <= j <= k && Reaches(adj, v, w, j);
      ReachedWithin(adj, v, w, j, k);
    }
  }

  /** The n-th layer holds exactly the locations at shortest distance n from v. */
  lemma LayerIsDistance(adj: Graph, v: Location, w: Location, n: nat)
    ensures w in Layer(adj, v, n) <==> AtDistance(adj, v, w, n)
  {
    if n == 0 {
      WithinIsReach(adj, v, w, 0);
    } else {
      WithinIsReach(adj, v, w, n);
      WithinIsReach(adj, v, w, n - 1);
    }
  }

  /** Layers for different distances are disjoint. */
  lemma LayersDisjoint(adj: Graph, v: Location, m: int, n: int)
    requires m < n
    ensures Layer(adj, v, m) !! Layer(adj, v, n)
  {
    if 0 <= m {
      WithinMonotonic(adj, v, m, n - 1);
    }
  }

  /** A ball stays inside any set that holds v and is closed under adj. */
  lemma {:induction false} WithinClosed(adj: Graph, v: Location, k: nat, s: set<Location>)
    requires v in s
    requires forall u :: u in s ==> adj(u) <= s
    ensures Within(adj, v, k) <= s
    decreases k
  {
    if k > 0 {
      WithinClosed(adj, v, k - 1, s);
    }
  }

  // ---------------------------------------------------------------------
  // The board

  /** The adjacency lists are exactly the edge list, read in both directions. */
  lemma AdjacentMatchesEdges(v: Location, w: Location)
    ensures w in Adjacent(v) <==> (v, w) in Edges || (w, v) in Edges
  {
    if (v, w) in Edges { EdgeIsListed((v, w)); }
    if (w, v) in Edges { EdgeIsListed((w, v)); }
  }

  lemma EdgeIsListed(e: Edge)
    requires e in Edges
    ensures e.1 in Adjacent(e.0) && e.0 in Adjacent(e.1)
  {
  }

  /** Every location is an endpoint of some edge. */
  lemma IsEdgeSource(v: Location)
    ensures exists w :: (v, w) in Edges || (w, v) in Edges
  {
    match v
    case Study => assert (Study, Hallway_01) in Edges;
    case Hall => assert (Hall, Hallway_04) in Edges;
    case Lounge => assert (Lounge, Hallway_05) in Edges;
    case Library => assert (Library, Hallway_08) in Edges;
    case Billiard => assert (Billiard, Hallway_09) in Edges;
    case Dining => assert (Dining, Hallway_10) in Edges;
    case Conservatory => assert (Conservatory, Hallway_11) in Edges;
    case Ballroom => assert (Ballroom, Hallway_12) in Edges;
    case Kitchen => assert (Kitchen, Study) in Edges;
    case Hallway_01 => assert (Hallway_01, Hall) in Edges;
    case Hallway_02 => assert (Hallway_02, Lounge) in Edges;
    case Hallway_03 => assert (Hallway_03, Library) in Edges;
    case Hallway_04 => assert (Hallway_04, Billiard) in Edges;
    case Hallway_05 => assert (Hallway_05, Dining) in Edges;
    case Hallway_06 => assert (Hallway_06, Billiard) in Edges;
    case Hallway_07 => assert (Hallway_07, Dining) in Edges;
    case Hallway_08 => assert (Hallway_08, Conservatory) in Edges;
    case Hallway_09 => assert (Hallway_09, Ballroom) in Edges;
    case Hallway_10 => assert (Hallway_10, Kitchen) in Edges;
    case Hallway_11 => assert (Hallway_11, Ballroom) in Edges;
    case Hallway_12 => assert (Hallway_12, Kitchen) in Edges;
  }

  lemma IsNode(v: Location)
    ensures v in Nodes()
  {
    IsEdgeSource(v);
    var w :| (v, w) in Edges || (w, v) in Edges;
    if (v, w) in Edges {
      assert v == (v, w).0;
    } else {
      assert v == (w, v).1;
    }
  }

  lemma IsListed(v: Location)
    ensures v in Rooms + Hallways
  {
  }

  lemma LocationCounts()
    ensures |Rooms| == 9 && |Hallways| == 12 && Rooms !! Hallways
  {
    RoomCount();
    HallwayCount();
    RoomsAreNotHallways();
  }

  lemma RoomCount()
    ensures |Rooms| == 9
  {
  }

  lemma HallwayCount()
    ensures |Hallways| == 12
  {
  }

  lemma RoomsAreNotHallways()
    ensures Rooms !! Hallways
  {
    forall v | v in Rooms ensures v !in Hallways {
      assert v.IsRoom();
    }
  }

  /** The board's nodes are exactly the 9 rooms and the 12 hallways, 21 in all. */
  lemma NodeSet()
    ensures Nodes() == Rooms + Hallways
    ensures |Rooms| == 9 && |Hallways| == 12 && Rooms !! Hallways
    ensures |Nodes()| == 21
  {
    forall v: Location ensures v in Nodes() && v in Rooms + Hallways {
      IsNode(v);
      IsListed(v);
    }
    LocationCounts();
  }

  /** Every hallway lies between exactly two locations, both of them rooms. */
  lemma HallwayJoinsTwoRooms(h: Location)
    requires h.IsHallway()
    ensures |Adjacent(h)| == 2
    ensures forall w :: w in Adjacent(h) ==> w.IsRoom()
  {
  }

  /** No edge joins two hallways. */
  lemma NoHallwayToHallwayEdge(e: Edge)
    requires e in Edges
    ensures e.0.IsRoom() || e.1.IsRoom()
  {
  }

  /** The one-step neighbourhood is the adjacency list: the graph has no self-loops. */
  lemma NeighborhoodOneIsAdjacent(v: Location)
    ensures Neighborhood(v, 1) == Adjacent(v)
  {
    NoSelfLoop(v);
    LayerOne(Adjacent, v);
  }

  lemma NoSelfLoop(v: Location)
    ensures v !in Adjacent(v)
  {
    match v
    case Study =>
    case Hall =>
    case Lounge =>
    case Library =>
    case Billiard =>
    case Dining =>
    case Conservatory =>
    case Ballroom =>
    case Kitchen =>
    case Hallway_01 =>
    case Hallway_02 =>
    case Hallway_03 =>
    case Hallway_04 =>
    case Hallway_05 =>
    case Hallway_06 =>
    case Hallway_07 =>
    case Hallway_08 =>
    case Hallway_09 =>
    case Hallway_10 =>
    case Hallway_11 =>
    case Hallway_12 =>
  }

  /** In a graph without a loop at v, the first layer around v is v's adjacency list. */
  lemma LayerOne(adj: Graph, v: Location)
    requires v !in adj(v)
    ensures Layer(adj, v, 1) == adj(v)
  {
    assert Step(adj, {v}) == adj(v);
  }

  /** Being one step apart is symmetric: the graph is undirected. */
  lemma NeighborhoodSymmetric(v: Location, w: Location)
    ensures w in Neighborhood(v, 1) <==> v in Neighborhood(w, 1)
  {
    NeighborhoodOneIsAdjacent(v);
    NeighborhoodOneIsAdjacent(w);
    AdjacentMatchesEdges(v, w);
    AdjacentMatchesEdges(w, v);
  }

  /** Each room reaches its diagonal partner through a secret passage in one step. */
  lemma SecretPassages()
    ensures Lounge in Neighborhood(Conservatory, 1) && Conservatory in Neighborhood(Lounge, 1)
    ensures Study in Neighborhood(Kitchen, 1) && Kitchen in Neighborhood(Study, 1)
  {
    NeighborhoodOneIsAdjacent(Conservatory);
    NeighborhoodOneIsAdjacent(Lounge);
    NeighborhoodOneIsAdjacent(Kitchen);
    NeighborhoodOneIsAdjacent(Study);
  }

  /** The query answers exactly the locations at shortest distance n from v. */
  lemma NeighborhoodIsDistance(v: Location, w: Location, n: nat)
    ensures w in Neighborhood(v, n) <==> AtDistance(Adjacent, v, w, n)
  {
    LayerIsDistance(Adjacent, v, w, n);
  }

  /** The source is the whole answer at distance 0 and lies in no other answer. */
  lemma SourceOnlyAtZero(v: Location, n: int)
    ensures Neighborhood(v, 0) == {v}
    ensures n != 0 ==> v !in Neighborhood(v, n)
  {
    if n > 0 {
      WithinMonotonic(Adjacent, v, 0, n - 1);
    }
  }

  /** Answers for different distances are disjoint. */
  lemma NeighborhoodsDisjoint(v: Location, m: int, n: int)
    requires m != n
    ensures Neighborhood(v, m) !! Neighborhood(v, n)
  {
    if m < n {
      LayersDisjoint(Adjacent, v, m, n);
    } else {
      LayersDisjoint(Adjacent, v, n, m);
    }
  }

  lemma AdjacentOnBoard(u: Location)
    ensures Adjacent(u) <= AllLocations
  {
  }

  /** Every answer is a set of board nodes. */
  lemma NeighborhoodOnBoard(v: Location, n: int)
    ensures Neighborhood(v, n) <= Nodes()
  {
    NodeSet();
    if n >= 0 {
      BallOnBoard(v, n);
    }
  }

  lemma BallOnBoard(v: Location, k: nat)
    ensures Within(Adjacent, v, k) <= AllLocations
  {
    forall u | u in AllLocations ensures Adjacent(u) <= AllLocations {
      AdjacentOnBoard(u);
    }
    WithinClosed(Adjacent, v, k, AllLocations);
  }

  // ---------------------------------------------------------------------
  // The query on node names

  /** Each node's name parses back to the node. */
  lemma ParseName(v: Location)
    ensures ParseLocation(v.Name()) == Some(v)
  {
    match v
    case Study =>
    case Hall =>
    case Lounge =>
    case Library =>
    case Billiard =>
    case Dining =>
    case Conservatory =>
    case Ballroom =>
    case Kitchen =>
    case Hallway_01 =>
    case Hallway_02 =>
    case Hallway_03 =>
    case Hallway_04 =>
    case Hallway_05 =>
    case Hallway_06 =>
    case Hallway_07 =>
    case Hallway_08 =>
    case Hallway_09 =>
    case Hallway_10 =>
    case Hallway_11 =>
    case Hallway_12 =>
  }

  /** The name-level query is defined exactly for the names of board nodes. */
  lemma NameQueryDefinedOnBoard(node: string, n: int)
    ensures NeighborhoodOfName(node, n).Ok? <==> exists v :: v in Nodes() && v.Name() == node
  {
    if exists v :: v in Nodes() && v.Name() == node {
      var v :| v in Nodes() && v.Name() == node;
      ParseName(v);
    }
    if ParseLocation(node).Some? {
      IsNode(ParseLocation(node).value);
    }
  }

  /** On a node's name, the query answers the names of that node's layer. */
  lemma NameQueryOnNode(v: Location, n: int)
    ensures NeighborhoodOfName(v.Name(), n) == Ok(Names(Neighborhood(v, n)))
  {
    ParseName(v);
  }

  lemma NamesOfTwo(a: Location, b: Location)
    ensures Names({a, b}) == {a.Name(), b.Name()}
  {
  }

  lemma NamesOfThree(a: Location, b: Location, c: Location)
    ensures Names({a, b, c}) == {a.Name(), b.Name(), c.Name()}
  {
  }

  lemma NamesOfFour(a: Location, b: Location, c: Location, d: Location)
    ensures Names({a, b, c, d}) == {a.Name(), b.Name(), c.Name(), d.Name()}
  {
  }

  /** On a node's name, the one-step query answers the names of its adjacency list. */
  lemma NameQueryOneStep(v: Location, answer: set<string>)
    requires Names(Adjacent(v)) == answer
    ensures NeighborhoodOfName(v.Name(), 1) == Ok(answer)
  {
    NeighborhoodOneIsAdjacent(v);
    NameQueryOnNode(v, 1);
  }

  /**
   * The one-step answers the unit tests expect of Hallway_01, Billiard and
   * Kitchen. The tests ask the player's `_next_moves`, which is not part of
   * this model; they are read here as `neighborhood(X, 1)` on the board.
   */
  lemma NextMovesFromHallway01()
    ensures NeighborhoodOfName("Hallway_01", 1) == Ok({"Study", "Hall"})
  {
    NamesOfTwo(Study, Hall);
    NameQueryOneStep(Hallway_01, {"Study", "Hall"});
  }

  lemma NextMovesFromBilliard()
    ensures NeighborhoodOfName("Billiard", 1) == Ok({"Hallway_04", "Hallway_06", "Hallway_07", "Hallway_09"})
  {
    assert Names(Adjacent(Billiard)) == {"Hallway_04", "Hallway_06", "Hallway_07", "Hallway_09"} by {
      assert Adjacent(Billiard) == {Hallway_04, Hallway_06, Hallway_07, Hallway_09};
      NamesOfFour(Hallway_04, Hallway_06, Hallway_07, Hallway_09);
    }
    NameQueryOneStep(Billiard, {"Hallway_04", "Hallway_06", "Hallway_07", "Hallway_09"});
  }

  lemma NextMovesFromKitchen()
    ensures NeighborhoodOfName("Kitchen", 1) == Ok({"Hallway_10", "Hallway_12", "Study"})
  {
    assert Names(Adjacent(Kitchen)) == {"Hallway_10", "Hallway_12", "Study"} by {
      assert Adjacent(Kitchen) == {Hallway_10, Hallway_12, Study};
      NamesOfThree(Hallway_10, Hallway_12, Study);
    }
    NameQueryOneStep(Kitchen, {"Hallway_10", "Hallway_12", "Study"});
  }
}
