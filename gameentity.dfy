/**
 * The game's vocabulary: four enumerations with unique integer values
 * (suspects, weapons, rooms and the hallways between rooms).
 */
module GameEntity {
  import opened Results
  import Strings

  datatype Person = Mustard | Scarlet | White | Plum | Green | Peacock {
    function Value(): int {
      match this
      case Mustard => 1
      case Scarlet => 2
      case White => 3
      case Plum => 4
      case Green => 5
      case Peacock => 6
    }

    function Name(): string {
      match this
      case Mustard => "Mustard"
      case Scarlet => "Scarlet"
      case White => "White"
      case Plum => "Plum"
      case Green => "Green"
      case Peacock => "Peacock"
    }
  }

  datatype Weapon = Knife | Wrench | Revolver | Pipe | Rope | Candlestick {
    function Value(): int {
      match this
      case Knife => 1
      case Wrench => 2
      case Revolver => 3
      case Pipe => 4
      case Rope => 5
      case Candlestick => 6
    }

    function Name(): string {
      match this
      case Knife => "Knife"
      case Wrench => "Wrench"
      case Revolver => "Revolver"
      case Pipe => "Pipe"
      case Rope => "Rope"
      case Candlestick => "Candlestick"
    }
  }

  datatype Room = Study | Hall | Lounge | Library | Billiard | Dining | Conservatory | Ballroom | Kitchen {
    function Value(): int {
      match this
      case Study => 1
      case Hall => 2
      case Lounge => 3
      case Library => 4
      case Billiard => 5
      case Dining => 6
      case Conservatory => 7
      case Ballroom => 8
      case Kitchen => 9
    }

    function Name(): string {
      match this
      case Study => "Study"
      case Hall => "Hall"
      case Lounge => "Lounge"
      case Library => "Library"
      case Billiard => "Billiard"
      case Dining => "Dining"
      case Conservatory => "Conservatory"
      case Ballroom => "Ballroom"
      case Kitchen => "Kitchen"
    }
  }

  datatype Lobby =
    | Hallway_01 | Hallway_02 | Hallway_03 | Hallway_04 | Hallway_05 | Hallway_06
    | Hallway_07 | Hallway_08 | Hallway_09 | Hallway_10 | Hallway_11 | Hallway_12
  {
    function Value(): int {
      match this
      case Hallway_01 => 1
      case Hallway_02 => 2
      case Hallway_03 => 3
      case Hallway_04 => 4
      case Hallway_05 => 5
      case Hallway_06 => 6
      case Hallway_07 => 7
      case Hallway_08 => 8
      case Hallway_09 => 9
      case Hallway_10 => 10
      case Hallway_11 => 11
      case Hallway_12 => 12
    }

    function Name(): string {
      match this
      case Hallway_01 => "Hallway_01"
      case Hallway_02 => "Hallway_02"
      case Hallway_03 => "Hallway_03"
      case Hallway_04 => "Hallway_04"
      case Hallway_05 => "Hallway_05"
      case Hallway_06 => "Hallway_06"
      case Hallway_07 => "Hallway_07"
      case Hallway_08 => "Hallway_08"
      case Hallway_09 => "Hallway_09"
      case Hallway_10 => "Hallway_10"
      case Hallway_11 => "Hallway_11"
      case Hallway_12 => "Hallway_12"
    }
  }

  /** The members of each enumeration in declaration order. */
  const Persons: seq<Person> := [Mustard, Scarlet, White, Plum, Green, Peacock]
  const Weapons: seq<Weapon> := [Knife, Wrench, Revolver, Pipe, Rope, Candlestick]
  const Rooms: seq<Room> := [Study, Hall, Lounge, Library, Billiard, Dining, Conservatory, Ballroom, Kitchen]
  const Lobbies: seq<Lobby> := [
    Hallway_01, Hallway_02, Hallway_03, Hallway_04, Hallway_05, Hallway_06,
    Hallway_07, Hallway_08, Hallway_09, Hallway_10, Hallway_11, Hallway_12
  ]

  /** Lookup by value, Person(v) in the enumeration: the member with value v, if any. */
  function PersonOf(v: int): (r: Option<Person>)
    ensures r.Some? ==> r.value.Value() == v
  {
    if 1 <= v <= 6 then Some(Persons[v - 1]) else None
  }

  function WeaponOf(v: int): (r: Option<Weapon>)
    ensures r.Some? ==> r.value.Value() == v
  {
    if 1 <= v <= 6 then Some(Weapons[v - 1]) else None
  }

  function RoomOf(v: int): (r: Option<Room>)
    ensures r.Some? ==> r.value.Value() == v
  {
    if 1 <= v <= 9 then Some(Rooms[v - 1]) else None
  }

  function LobbyOf(v: int): (r: Option<Lobby>)
    ensures r.Some? ==> r.value.Value() == v
  {
    if 1 <= v <= 12 then Some(Lobbies[v - 1]) else None
  }

  // ---------------------------------------------------------------------
  // Each enumeration is exactly its members, with the unique values 1..N

  lemma PersonEnumeration(p: Person)
    ensures p in Persons && |Persons| == 6
    ensures Persons[p.Value() - 1] == p
    ensures PersonOf(p.Value()) == Some(p)
  {
    match p
    case Mustard =>
    case Scarlet =>
    case White =>
    case Plum =>
    case Green =>
    case Peacock =>
  }

  lemma WeaponEnumeration(w: Weapon)
    ensures w in Weapons && |Weapons| == 6
    ensures Weapons[w.Value() - 1] == w
    ensures WeaponOf(w.Value()) == Some(w)
  {
    match w
    case Knife =>
    case Wrench =>
    case Revolver =>
    case Pipe =>
    case Rope =>
    case Candlestick =>
  }

  lemma RoomEnumeration(r: Room)
    ensures r in Rooms && |Rooms| == 9
    ensures Rooms[r.Value() - 1] == r
    ensures RoomOf(r.Value()) == Some(r)
  {
    match r
    case Study =>
    case Hall =>
    case Lounge =>
    case Library =>
    case Billiard =>
    case Dining =>
    case Conservatory =>
    case Ballroom =>
    case Kitchen =>
  }

  lemma LobbyEnumeration(l: Lobby)
    ensures l in Lobbies && |Lobbies| == 12
    ensures Lobbies[l.Value() - 1] == l
    ensures LobbyOf(l.Value()) == Some(l)
  {
    match l
    case Hallway_01 =>
    case Hallway_02 =>
    case Hallway_03 =>
    case Hallway_04 =>
    case Hallway_05 =>
    case Hallway_06 =>
    case Hallway_07 =>
    case Hallway_08 =>
    case Hallway_09 =>
    case Hallway_10 =>
    case Hallway_11 =>
    case Hallway_12 =>
  }

  /** The values are unique (the `unique` decorator) and exactly 1..6. */
  lemma PersonValues(a: Person, b: Person, v: int)
    ensures a.Value() == b.Value() ==> a == b
    ensures (exists p: Person :: p.Value() == v) <==> 1 <= v <= 6
  {
    PersonEnumeration(a);
    PersonEnumeration(b);
    if 1 <= v <= 6 {
      assert Persons[v - 1].Value() == v;
    }
  }

  lemma WeaponValues(a: Weapon, b: Weapon, v: int)
    ensures a.Value() == b.Value() ==> a == b
    ensures (exists w: Weapon :: w.Value() == v) <==> 1 <= v <= 6
  {
    WeaponEnumeration(a);
    WeaponEnumeration(b);
    if 1 <= v <= 6 {
      assert Weapons[v - 1].Value() == v;
    }
  }

  lemma RoomValues(a: Room, b: Room, v: int)
    ensures a.Value() == b.Value() ==> a == b
    ensures (exists r: Room :: r.Value() == v) <==> 1 <= v <= 9
  {
    RoomEnumeration(a);
    RoomEnumeration(b);
    if 1 <= v <= 9 {
      assert Rooms[v - 1].Value() == v;
    }
  }

  lemma LobbyValues(a: Lobby, b: Lobby, v: int)
    ensures a.Value() == b.Value() ==> a == b
    ensures (exists l: Lobby :: l.Value() == v) <==> 1 <= v <= 12
  {
    LobbyEnumeration(a);
    LobbyEnumeration(b);
    if 1 <= v <= 12 {
      assert Lobbies[v - 1].Value() == v;
    }
  }

  /** Each hallway's value is the two-digit suffix of its name. */
  lemma LobbyValueIsSuffix(l: Lobby)
    ensures 1 <= l.Value() <= 12
    ensures l.Name() == "Hallway_" + [Strings.DigitChar(l.Value() / 10), Strings.DigitChar(l.Value() % 10)]
  {
    match l
    case Hallway_01 =>
    case Hallway_02 =>
    case Hallway_03 =>
    case Hallway_04 =>
    case Hallway_05 =>
    case Hallway_06 =>
    case Hallway_07 =>
    case Hallway_08 =>
    case Hallway_09 =>
    case Hallway_10 =>
    case Hallway_11 =>
    case Hallway_12 =>
  }
}
