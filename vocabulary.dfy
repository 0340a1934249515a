/**
 * How the entity enumerations line up with the board and with the card index
 * of a player's sub-table. Each source file keeps its own spelling: the
 * enumerations and the board use capitalised names, the sub-table lower-case
 * ones.
 */
module Vocabulary {
  import GameEntity
  import Board
  import PlayerMatrix
  import Strings

  /** The board location a room member names. */
  function RoomLocation(r: GameEntity.Room): (v: Board.Location)
    ensures v.IsRoom() && v.Name() == r.Name()
  {
    match r
    case Study => Board.Study
    case Hall => Board.Hall
    case Lounge => Board.Lounge
    case Library => Board.Library
    case Billiard => Board.Billiard
    case Dining => Board.Dining
    case Conservatory => Board.Conservatory
    case Ballroom => Board.Ballroom
    case Kitchen => Board.Kitchen
  }

  /** The board location a lobby member names. */
  function LobbyLocation(l: GameEntity.Lobby): (v: Board.Location)
    ensures v.IsHallway() && v.Name() == l.Name()
  {
    match l
    case Hallway_01 => Board.Hallway_01
    case Hallway_02 => Board.Hallway_02
    case Hallway_03 => Board.Hallway_03
    case Hallway_04 => Board.Hallway_04
    case Hallway_05 => Board.Hallway_05
    case Hallway_06 => Board.Hallway_06
    case Hallway_07 => Board.Hallway_07
    case Hallway_08 => Board.Hallway_08
    case Hallway_09 => Board.Hallway_09
    case Hallway_10 => Board.Hallway_10
    case Hallway_11 => Board.Hallway_11
    case Hallway_12 => Board.Hallway_12
  }

  /** The enumeration member that names a board location. */
  datatype Named = NamedRoom(room: GameEntity.Room) | NamedLobby(lobby: GameEntity.Lobby)

  function NamedBy(v: Board.Location): Named {
    match v
    case Study => NamedRoom(GameEntity.Room.Study)
    case Hall => NamedRoom(GameEntity.Room.Hall)
    case Lounge => NamedRoom(GameEntity.Room.Lounge)
    case Library => NamedRoom(GameEntity.Room.Library)
    case Billiard => NamedRoom(GameEntity.Room.Billiard)
    case Dining => NamedRoom(GameEntity.Room.Dining)
    case Conservatory => NamedRoom(GameEntity.Room.Conservatory)
    case Ballroom => NamedRoom(GameEntity.Room.Ballroom)
    case Kitchen => NamedRoom(GameEntity.Room.Kitchen)
    case Hallway_01 => NamedLobby(GameEntity.Lobby.Hallway_01)
    case Hallway_02 => NamedLobby(GameEntity.Lobby.Hallway_02)
    case Hallway_03 => NamedLobby(GameEntity.Lobby.Hallway_03)
    case Hallway_04 => NamedLobby(GameEntity.Lobby.Hallway_04)
    case Hallway_05 => NamedLobby(GameEntity.Lobby.Hallway_05)
    case Hallway_06 => NamedLobby(GameEntity.Lobby.Hallway_06)
    case Hallway_07 => NamedLobby(GameEntity.Lobby.Hallway_07)
    case Hallway_08 => NamedLobby(GameEntity.Lobby.Hallway_08)
    case Hallway_09 => NamedLobby(GameEntity.Lobby.Hallway_09)
    case Hallway_10 => NamedLobby(GameEntity.Lobby.Hallway_10)
    case Hallway_11 => NamedLobby(GameEntity.Lobby.Hallway_11)
    case Hallway_12 => NamedLobby(GameEntity.Lobby.Hallway_12)
  }

  /** Every board location is named by a room or by a lobby member. */
  lemma LocationIsNamed(v: Board.Location)
    ensures NamedBy(v).NamedRoom? ==> RoomLocation(NamedBy(v).room) == v
    ensures NamedBy(v).NamedLobby? ==> LobbyLocation(NamedBy(v).lobby) == v
  {
    match v
    case Study =>
    case Hall =>
    case Lounge =>
    case Library =>
    case Billiard =>
    case Dining =>
    case Conservatory =>
    case Ballroom =>
    case Kitchen =>
    case Hallway_01 =>
    case Hallway_02 =>
    case Hallway_03 =>
    case Hallway_04 =>
    case Hallway_05 =>
    case Hallway_06 =>
    case Hallway_07 =>
    case Hallway_08 =>
    case Hallway_09 =>
    case Hallway_10 =>
    case Hallway_11 =>
    case Hallway_12 =>
  }

  function RoomNames(): set<string> {
    set r | r in GameEntity.Rooms :: r.Name()
  }

  function LobbyNames(): set<string> {
    set l | l in GameEntity.Lobbies :: l.Name()
  }

  /** The names of the Room and Lobby members are exactly the names of the board's nodes. */
  lemma BoardVocabulary()
    ensures RoomNames() + LobbyNames() == Board.Names(Board.Nodes())
  {
    forall x | x in RoomNames() + LobbyNames() ensures x in Board.Names(Board.Nodes()) {
      if x in RoomNames() {
        var r :| r in GameEntity.Rooms && r.Name() == x;
        Board.IsNode(RoomLocation(r));
      } else {
        var l :| l in GameEntity.Lobbies && l.Name() == x;
        Board.IsNode(LobbyLocation(l));
      }
    }
    forall x | x in Board.Names(Board.Nodes()) ensures x in RoomNames() + LobbyNames() {
      var v :| v in Board.Nodes() && v.Name() == x;
      LocationIsNamed(v);
      match NamedBy(v)
      case NamedRoom(r) => GameEntity.RoomEnumeration(r);
      case NamedLobby(l) => GameEntity.LobbyEnumeration(l);
    }
  }

  function SuspectNames(): set<string> {
    set p | p in GameEntity.Persons :: Strings.Lower(p.Name())
  }

  function WeaponNames(): set<string> {
    set w | w in GameEntity.Weapons :: Strings.Lower(w.Name())
  }

  function RoomCardNames(): set<string> {
    set r | r in GameEntity.Rooms :: Strings.Lower(r.Name())
  }

  /**
   * Lower-cased, the Person, Weapon and Room names are exactly the three card
   * categories of the sub-table, and so together its 21-card index.
   */
  lemma CardVocabulary()
    ensures SuspectNames() == PlayerMatrix.Suspects
    ensures WeaponNames() == PlayerMatrix.WeaponCards
    ensures RoomCardNames() == PlayerMatrix.RoomCards
    ensures SuspectNames() + (RoomCardNames() + WeaponNames()) == PlayerMatrix.Cards
  {
    SuspectVocabulary();
    WeaponVocabulary();
    RoomCardVocabulary();
  }

  lemma SuspectVocabulary()
    ensures SuspectNames() == PlayerMatrix.Suspects
  {
    forall p | p in GameEntity.Persons ensures Strings.Lower(p.Name()) in PlayerMatrix.Suspects {
      LowerPersonName(p);
    }
    SuspectCardsNamed();
  }

  /** Each Person member, lower-cased, is a card of its category. */
  lemma LowerPersonName(p: GameEntity.Person)
    ensures Strings.Lower(p.Name()) in PlayerMatrix.Suspects
  {
    match p
    case Mustard => Strings.LowerIs("Mustard", "mustard");
    case Scarlet => Strings.LowerIs("Scarlet", "scarlet");
    case White => Strings.LowerIs("White", "white");
    case Plum => Strings.LowerIs("Plum", "plum");
    case Green => Strings.LowerIs("Green", "green");
    case Peacock => Strings.LowerIs("Peacock", "peacock");
  }

  /** Every card of the category is the lower-cased name of a Person member. */
  lemma SuspectCardsNamed()
    ensures PlayerMatrix.Suspects <= SuspectNames()
  {
    SuspectCardsNamed1();
    SuspectCardsNamed2();
  }

  lemma SuspectCardsNamed1()
    ensures {"mustard", "scarlet", "white"} <= SuspectNames()
  {
    PersonNamed(GameEntity.Person.Mustard);
    Strings.LowerIs("Mustard", "mustard");
    PersonNamed(GameEntity.Person.Scarlet);
    Strings.LowerIs("Scarlet", "scarlet");
    PersonNamed(GameEntity.Person.White);
    Strings.LowerIs("White", "white");
  }

  lemma SuspectCardsNamed2()
    ensures {"plum", "green", "peacock"} <= SuspectNames()
  {
    PersonNamed(GameEntity.Person.Plum);
    Strings.LowerIs("Plum", "plum");
    PersonNamed(GameEntity.Person.Green);
    Strings.LowerIs("Green", "green");
    PersonNamed(GameEntity.Person.Peacock);
    Strings.LowerIs("Peacock", "peacock");
  }

  lemma PersonNamed(p: GameEntity.Person)
    ensures Strings.Lower(p.Name()) in SuspectNames()
  {
    GameEntity.PersonEnumeration(p);
  }

  lemma WeaponVocabulary()
    ensures WeaponNames() == PlayerMatrix.WeaponCards
  {
    forall w | w in GameEntity.Weapons ensures Strings.Lower(w.Name()) in PlayerMatrix.WeaponCards {
      LowerWeaponName(w);
    }
    WeaponCardsNamed();
  }

  /** Each Weapon member, lower-cased, is a card of its category. */
  lemma LowerWeaponName(w: GameEntity.Weapon)
    ensures Strings.Lower(w.Name()) in PlayerMatrix.WeaponCards
  {
    match w
    case Knife => Strings.LowerIs("Knife", "knife");
    case Wrench => Strings.LowerIs("Wrench", "wrench");
    case Revolver => Strings.LowerIs("Revolver", "revolver");
    case Pipe => Strings.LowerIs("Pipe", "pipe");
    case Rope => Strings.LowerIs("Rope", "rope");
    case Candlestick => Strings.LowerIs("Candlestick", "candlestick");
  }

  /** Every card of the category is the lower-cased name of a Weapon member. */
  lemma WeaponCardsNamed()
    ensures PlayerMatrix.WeaponCards <= WeaponNames()
  {
    WeaponCardsNamed1();
    WeaponCardsNamed2();
  }

  lemma WeaponCardsNamed1()
    ensures {"knife", "wrench", "revolver"} <= WeaponNames()
  {
    WeaponNamed(GameEntity.Weapon.Knife);
    Strings.LowerIs("Knife", "knife");
    WeaponNamed(GameEntity.Weapon.Wrench);
    Strings.LowerIs("Wrench", "wrench");
    WeaponNamed(GameEntity.Weapon.Revolver);
    Strings.LowerIs("Revolver", "revolver");
  }

  lemma WeaponCardsNamed2()
    ensures {"pipe", "rope", "candlestick"} <= WeaponNames()
  {
    WeaponNamed(GameEntity.Weapon.Pipe);
    Strings.LowerIs("Pipe", "pipe");
    WeaponNamed(GameEntity.Weapon.Rope);
    Strings.LowerIs("Rope", "rope");
    WeaponNamed(GameEntity.Weapon.Candlestick);
    Strings.LowerIs("Candlestick", "candlestick");
  }

  lemma WeaponNamed(w: GameEntity.Weapon)
    ensures Strings.Lower(w.Name()) in WeaponNames()
  {
    GameEntity.WeaponEnumeration(w);
  }

  lemma RoomCardVocabulary()
    ensures RoomCardNames() == PlayerMatrix.RoomCards
  {
    forall r | r in GameEntity.Rooms ensures Strings.Lower(r.Name()) in PlayerMatrix.RoomCards {
      LowerRoomName(r);
    }
    RoomCardsNamed();
  }

  /** Each Room member, lower-cased, is a card of its category. */
  lemma LowerRoomName(r: GameEntity.Room)
    ensures Strings.Lower(r.Name()) in PlayerMatrix.RoomCards
  {
    match r
    case Study => Strings.LowerIs("Study", "study");
    case Hall => Strings.LowerIs("Hall", "hall");
    case Lounge => Strings.LowerIs("Lounge", "lounge");
    case Library => Strings.LowerIs("Library", "library");
    case Billiard => Strings.LowerIs("Billiard", "billiard");
    case Dining => Strings.LowerIs("Dining", "dining");
    case Conservatory => Strings.LowerIs("Conservatory", "conservatory");
    case Ballroom => Strings.LowerIs("Ballroom", "ballroom");
    case Kitchen => Strings.LowerIs("Kitchen", "kitchen");
  }

  /** Every card of the category is the lower-cased name of a Room member. */
  lemma RoomCardsNamed()
    ensures PlayerMatrix.RoomCards <= RoomCardNames()
  {
    RoomCardsNamed1();
    RoomCardsNamed2();
    RoomCardsNamed3();
  }

  lemma RoomCardsNamed1()
    ensures {"study", "hall", "lounge"} <= RoomCardNames()
  {
    RoomNamed(GameEntity.Room.Study);
    Strings.LowerIs("Study", "study");
    RoomNamed(GameEntity.Room.Hall);
    Strings.LowerIs("Hall", "hall");
    RoomNamed(GameEntity.Room.Lounge);
    Strings.LowerIs("Lounge", "lounge");
  }

  lemma RoomCardsNamed2()
    ensures {"library", "billiard", "dining"} <= RoomCardNames()
  {
    RoomNamed(GameEntity.Room.Library);
    Strings.LowerIs("Library", "library");
    RoomNamed(GameEntity.Room.Billiard);
    Strings.LowerIs("Billiard", "billiard");
    RoomNamed(GameEntity.Room.Dining);
    Strings.LowerIs("Dining", "dining");
  }

  lemma RoomCardsNamed3()
    ensures {"conservatory", "ballroom", "kitchen"} <= RoomCardNames()
  {
    RoomNamed(GameEntity.Room.Conservatory);
    Strings.LowerIs("Conservatory", "conservatory");
    RoomNamed(GameEntity.Room.Ballroom);
    Strings.LowerIs("Ballroom", "ballroom");
    RoomNamed(GameEntity.Room.Kitchen);
    Strings.LowerIs("Kitchen", "kitchen");
  }

  lemma RoomNamed(r: GameEntity.Room)
    ensures Strings.Lower(r.Name()) in RoomCardNames()
  {
    GameEntity.RoomEnumeration(r);
  }
}
