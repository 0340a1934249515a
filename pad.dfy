/**
 * The note pad a computer player keeps: one sub-table per player id
 * 'p01', 'p02', ..., built when the pad is created.
 */
module Pad {
  import opened Results
  import Strings
  import PlayerMatrix

  /** The id of the x-th player: 'p0' followed by x in decimal (so the tenth is 'p010'). */
  function PlayerId(x: nat): (id: string)
    ensures |id| >= 3 && id[..2] == "p0"
    ensures x < 10 <==> |id| == 3
  {
    "p0" + Strings.Decimal(x)
  }

  /** The ids a pad for n players holds, as the constructor's loop adds them. */
  function PadKeys(n: int): (ids: set<string>)
    ensures forall id :: id in ids ==> exists x :: 1 <= x <= n && id == PlayerId(x)
    decreases n
  {
    if n <= 0 then {} else PadKeys(n - 1) + {PlayerId(n)}
  }

  datatype PadError = KeyError(id: string)

  class Pad {
    /** The player ids the pad was created for (not a field of the original object). */
    ghost const numberOfPlayers: int

    var playerPad: map<string, PlayerMatrix.Table>

    ghost predicate Valid()
      reads this
    {
      playerPad.Keys == PadKeys(numberOfPlayers)
    }

    /** One freshly built sub-table for each of players 1..numberOfPlayers. */
    constructor (numberOfPlayers: int)
      ensures this.numberOfPlayers == numberOfPlayers
      ensures Valid()
      ensures forall id :: id in playerPad ==> playerPad[id] == PlayerMatrix.Initial()
    {
      this.numberOfPlayers := numberOfPlayers;
      playerPad := map[];
      new;
      if numberOfPlayers > 0 {
        for x := 1 to numberOfPlayers + 1
          invariant playerPad.Keys == PadKeys(x - 1)
          invariant forall id :: id in playerPad ==> playerPad[id] == PlayerMatrix.Initial()
        {
          var table := NewSubTable();
          playerPad := playerPad[PlayerId(x) := table];
        }
      }
    }

    /** The ids of the players in this pad. */
    function PlayersList(): (ids: set<string>)
      reads this
      requires Valid()
      ensures ids == PadKeys(numberOfPlayers)
      ensures |ids| == if numberOfPlayers <= 0 then 0 else numberOfPlayers
    {
      PadSize(numberOfPlayers);
      playerPad.Keys
    }

    /** The sub-table of one player; an id the pad does not hold is a KeyError. */
    function GetPlayerTable(id: string): (r: Result<PlayerMatrix.Table, PadError>)
      reads this
      requires Valid()
      ensures r.Ok? <==> exists x :: 1 <= x <= numberOfPlayers && id == PlayerId(x)
      ensures r.Ok? ==> id in playerPad && r.value == playerPad[id]
      ensures r.Err? ==> r == Err(KeyError(id))
    {
      PadKeysMembers(numberOfPlayers, id);
      if id in playerPad then Ok(playerPad[id]) else Err(KeyError(id))
    }
  }

  /** A call of the sub-table constructor, over the card index order CardOrder. */
  method NewSubTable() returns (t: PlayerMatrix.Table)
    ensures t == PlayerMatrix.Initial()
  {
    PlayerMatrix.NewTableOfCardOrder();
    t := PlayerMatrix.NewTable(PlayerMatrix.CardOrder).value;
  }

  // ---------------------------------------------------------------------

  lemma PlayerIdInjective(a: nat, b: nat)
    requires PlayerId(a) == PlayerId(b)
    ensures a == b
  {
    var da, db := Strings.Decimal(a), Strings.Decimal(b);
    assert PlayerId(a)[2..] == da && PlayerId(b)[2..] == db;
    Strings.DecimalInjective(a, b);
  }

  /** The pad for n players holds exactly the ids of players 1..n. */
  lemma {:induction false} PadKeysMembers(n: int, id: string)
    ensures id in PadKeys(n) <==> exists x :: 1 <= x <= n && id == PlayerId(x)
    decreases n
  {
    if n > 0 && exists x :: 1 <= x <= n && id == PlayerId(x) {
      var x :| 1 <= x <= n && id == PlayerId(x);
      if x < n {
        PadKeysMembers(n - 1, id);
      }
    }
  }

  /** The ids are pairwise distinct, so a pad for n players has n entries (none when n <= 0). */
  lemma {:induction false} PadSize(n: int)
    ensures |PadKeys(n)| == if n <= 0 then 0 else n
    decreases n
  {
    if n > 0 {
      PadSize(n - 1);
      if PlayerId(n) in PadKeys(n - 1) {
        PadKeysMembers(n - 1, PlayerId(n));
        var x :| 1 <= x <= n - 1 && PlayerId(n) == PlayerId(x);
        PlayerIdInjective(n, x);
      }
    }
  }

  /** A four-player pad holds 'p01'..'p04', and that list is the sorted order of its ids. */
  lemma FourPlayerIds()
    ensures PadKeys(4) == {"p01", "p02", "p03", "p04"}
    ensures PlayerMatrix.Elements(["p01", "p02", "p03", "p04"]) == PadKeys(4)
    ensures Strings.StrictlySorted(["p01", "p02", "p03", "p04"])
  {
    assert PlayerId(1) == "p01" && PlayerId(2) == "p02" && PlayerId(3) == "p03" && PlayerId(4) == "p04";
    var s := ["p01", "p02", "p03", "p04"];
    forall i, j | 0 <= i < j < |s| ensures Strings.LexLess(s[i], s[j]) {
      assert s[i][..2] == s[j][..2] == "p0";
      Strings.LexLessAt(s[i], s[j], 2);
    }
  }
}
