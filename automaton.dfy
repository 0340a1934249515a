/**
 * The computer player as it stands in the repository: construction picks a
 * suspect from the available list and starts an empty hand; receiving cards
 * stores the hand the dealer gives.
 *
 * Python attribute lookup is modelled explicitly. `player_count` is a class
 * attribute, held here by one shared `PlayerClass` object. Inside the
 * constructor `self.player_count` first reads that class attribute (the
 * instance has none yet); `self.player_count += 1` then creates an instance
 * attribute, the `playerCount` field of `Player`, and leaves the class
 * attribute as it was.
 */
module Automaton {
  import opened Results

  /** The class object of `Player`, holding the class attribute `player_count`. */
  class PlayerClass {
    var playerCount: int

    /** The class body sets the attribute to 0. */
    constructor ()
      ensures playerCount == 0
    {
      playerCount := 0;
    }
  }

  /** The exceptions construction can raise: the guard's IndexError, and random.choice's on an empty list. */
  datatype PlayerError = TooManyPlayers | NoPlayerToChoose

  /** The largest class counter value for which construction goes ahead. */
  const MaxCount := 5

  class Player {
    /** The class this object is an instance of. */
    const cls: PlayerClass
    var selectedPlayer: string
    /** The instance attribute `player_count` that construction creates. */
    var playerCount: int
    var dealtCards: seq<string>

    constructor Init(cls: PlayerClass, selected: string)
      ensures this.cls == cls
      ensures selectedPlayer == selected
      ensures playerCount == cls.playerCount + 1
      ensures dealtCards == []
    {
      this.cls := cls;
      selectedPlayer := selected;
      playerCount := cls.playerCount + 1;
      dealtCards := [];
    }

    /**
     * Construction: the guard reads the class attribute; past the guard a
     * player is chosen from the list, the instance counter is set one above
     * the class counter and the hand starts empty. The class attribute is
     * not among the things this may change.
     */
    static method Create(cls: PlayerClass, available: seq<string>) returns (r: Result<Player, PlayerError>)
      ensures cls.playerCount > MaxCount ==> r == Err(TooManyPlayers)
      ensures cls.playerCount <= MaxCount && available == [] ==> r == Err(NoPlayerToChoose)
      ensures r.Ok? <==> cls.playerCount <= MaxCount && available != []
      ensures r.Ok? ==> fresh(r.value) && r.value.cls == cls
      ensures r.Ok? ==> r.value.selectedPlayer in available
      ensures r.Ok? ==> r.value.playerCount == cls.playerCount + 1
      ensures r.Ok? ==> r.value.dealtCards == []
      ensures cls.playerCount == old(cls.playerCount)
    {
      if cls.playerCount <= MaxCount {
        var choice := GetPlayer(available);
        if choice.Ok? {
          var p := new Player.Init(cls, choice.value);
          r := Ok(p);
        } else {
          r := Err(choice.error);
        }
      } else {
        r := Err(TooManyPlayers);
      }
    }

    /**
     * Some element of the list, chosen at random; the choice is left
     * arbitrary. An empty list has nothing to choose.
     */
    static method GetPlayer(available: seq<string>) returns (r: Result<string, PlayerError>)
      ensures r.Ok? <==> available != []
      ensures r.Ok? ==> r.value in available
      ensures r.Err? ==> r == Err(NoPlayerToChoose)
    {
      if available == [] {
        r := Err(NoPlayerToChoose);
      } else {
        var i :| 0 <= i < |available|;
        r := Ok(available[i]);
      }
    }

    /**
     * Storing the dealt hand. The guard counts the occurrences of the player
     * object itself in the list (0 for a list of card names), but `count >= 3
     * or count <= 6` holds whatever the count is, so the hand is always
     * stored and returned; the error branch cannot be taken. The count is
     * left unspecified here to show that.
     */
    method ReceiveCards(cards: seq<string>) returns (r: Result<seq<string>, PlayerError>)
      modifies this
      ensures r == Ok(cards)
      ensures dealtCards == cards
      ensures selectedPlayer == old(selectedPlayer) && playerCount == old(playerCount)
    {
      var selfCount: int :| true;
      if selfCount >= 3 || selfCount <= 6 {
        dealtCards := cards;
      } else {
        assert false;
      }
      r := Ok(dealtCards);
    }
  }

  /**
   * Creating k players one after another from the same class: every creation
   * succeeds, since construction never raises the class counter, and every
   * player gets the same instance counter.
   */
  method CreatePlayers(cls: PlayerClass, available: seq<string>, k: nat) returns (players: seq<Player>)
    requires cls.playerCount <= MaxCount && available != []
    ensures |players| == k
    ensures forall i :: 0 <= i < k ==> players[i].cls == cls
    ensures forall i :: 0 <= i < k ==> players[i].playerCount == cls.playerCount + 1
    ensures forall i :: 0 <= i < k ==> players[i].selectedPlayer in available
    ensures forall i :: 0 <= i < k ==> players[i].dealtCards == []
  {
    players := [];
    while |players| < k
      invariant |players| <= k
      invariant forall i :: 0 <= i < |players| ==> players[i].cls == cls
      invariant forall i :: 0 <= i < |players| ==> players[i].playerCount == cls.playerCount + 1
      invariant forall i :: 0 <= i < |players| ==> players[i].selectedPlayer in available
      invariant forall i :: 0 <= i < |players| ==> players[i].dealtCards == []
    {
      var r := Player.Create(cls, available);
      players := players + [r.value];
    }
  }
}
