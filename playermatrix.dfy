/**
 * One player's sub-table in the note pad: a row per card (the 21 lower-case
 * card names) and two columns, `c1` (filled with one shared placeholder) and
 * `c2` (a separate empty set per card).
 */
module PlayerMatrix {
  import opened Results

  const Suspects: set<string> := {"scarlet", "plum", "mustard", "green", "white", "peacock"}

  const RoomCards: set<string> :=
    {"study", "hall", "lounge", "library", "billiard", "dining", "conservatory", "ballroom", "kitchen"}

  const WeaponCards: set<string> := {"knife", "wrench", "revolver", "pipe", "rope", "candlestick"}

  /** The table's row index: suspects, rooms and weapons together. */
  const Cards: set<string> := Suspects + (RoomCards + WeaponCards)

  /**
   * A `c1` cell. The column is created filled with the `int` type object itself,
   * modelled as the single value Unmarked; Mark(n) is a number written there later.
   */
  datatype C1Cell = Unmarked | Mark(n: int)

  /** The sub-table: the two columns, each a map from card name to cell. */
  datatype Table = Table(c1: map<string, C1Cell>, c2: map<string, set<int>>)

  /** A column built from a list whose length does not match its index. */
  datatype SeriesError = LengthMismatch(values: nat, index: nat)

  /** The `c2` column's values as the constructor lists them: 21 empty sets. */
  const C2Values: seq<set<int>> :=
    [{}, {}, {}, {}, {}, {}, {}, {}, {}, {}, {}, {}, {}, {}, {}, {}, {}, {}, {}, {}, {}]

  predicate Distinct<T(==)>(s: seq<T>) {
    forall i, j :: 0 <= i < j < |s| ==> s[i] != s[j]
  }

  function Elements<T(==)>(s: seq<T>): set<T> {
    set x | x in s
  }

  /** An ordering of the set s, in which each member appears once. */
  predicate IsListing<T(==)>(index: seq<T>, s: set<T>) {
    Distinct(index) && Elements(index) == s
  }

  /**
   * A column built from a list of values over an index: the i-th value goes
   * to the i-th label; lists of different lengths are refused.
   */
  function SeriesOf<V>(values: seq<V>, index: seq<string>): (r: Result<map<string, V>, SeriesError>)
    requires Distinct(index)
    ensures r.Ok? <==> |values| == |index|
    ensures r.Err? ==> r.error == LengthMismatch(|values|, |index|)
    ensures r.Ok? ==> r.value.Keys == Elements(index)
    ensures r.Ok? ==> forall i :: 0 <= i < |index| ==> r.value[index[i]] == values[i]
  {
    if |values| != |index| then
      Err(LengthMismatch(|values|, |index|))
    else
      Ok(map i | 0 <= i < |index| :: index[i] := values[i])
  }

  /** A column built from one value broadcast over an index. */
  function SeriesFill<V>(value: V, index: seq<string>): (r: map<string, V>)
    ensures r.Keys == Elements(index)
    ensures forall c :: c in r ==> r[c] == value
  {
    map c | c in index :: value
  }

  /** The constructor over a given ordering of the card index. */
  function NewTable(index: seq<string>): (r: Result<Table, SeriesError>)
    requires Distinct(index)
    ensures r.Ok? <==> |index| == 21
    ensures r.Err? ==> r.error == LengthMismatch(21, |index|)
    ensures r.Ok? ==> r.value.c1.Keys == Elements(index) && r.value.c2.Keys == Elements(index)
    ensures r.Ok? ==> forall c :: c in r.value.c2 ==> r.value.c2[c] == {}
  {
    match SeriesOf(C2Values, index)
    case Err(e) => Err(e)
    case Ok(c2) => Ok(Table(SeriesFill(Unmarked, index), c2))
  }

  /** The initial table as a value: every card a row, every cell blank. */
  function Initial(): (t: Table)
    ensures |t.c1| == 21 && |t.c2| == 21
    ensures forall c :: c in t.c1 ==> t.c1[c] != Mark(1)
  {
    CardIndex();
    var c1: map<string, C1Cell> := map c | c in Cards :: Unmarked;
    var c2: map<string, set<int>> := map c | c in Cards :: {};
    assert c1.Keys == Cards && c2.Keys == Cards;
    Table(c1, c2)
  }

  // ---------------------------------------------------------------------

  lemma CategorySizes()
    ensures |Suspects| == 6 && |RoomCards| == 9 && |WeaponCards| == 6
  {
  }

  lemma CategoriesDisjoint()
    ensures Suspects !! RoomCards && Suspects !! WeaponCards && RoomCards !! WeaponCards
  {
  }

  lemma DisjointUnionSize<T>(a: set<T>, b: set<T>)
    requires a !! b
    ensures |a + b| == |a| + |b|
  {
    assert a * b == {};
  }

  /** The index is 6 suspects, 9 rooms and 6 weapons, pairwise disjoint: 21 names. */
  lemma CardIndex()
    ensures |Suspects| == 6 && |RoomCards| == 9 && |WeaponCards| == 6
    ensures Suspects !! RoomCards && Suspects !! WeaponCards && RoomCards !! WeaponCards
    ensures |Cards| == 21
  {
    CategorySizes();
    CategoriesDisjoint();
    DisjointUnionSize(RoomCards, WeaponCards);
    DisjointUnionSize(Suspects, RoomCards + WeaponCards);
  }

  /** A list without repetitions has as many elements as its set. */
  lemma {:induction false} DistinctCount<T>(s: seq<T>)
    requires Distinct(s)
    ensures |Elements(s)| == |s|
  {
    if s != [] {
      var t := s[1..];
      assert Distinct(t);
      DistinctCount(t);
      assert Elements(s) == Elements(t) + {s[0]};
      forall k | 0 <= k < |t| ensures t[k] != s[0] {
        assert t[k] == s[k + 1];
      }
    }
  }

  /** The `c2` list has exactly one set per card, so the column can be built. */
  lemma C2ListFitsIndex(index: seq<string>)
    requires IsListing(index, Cards)
    ensures |C2Values| == |index| == 21
  {
    CardIndex();
    DistinctCount(index);
  }

  lemma C2ValuesEmpty()
    ensures forall i :: 0 <= i < |C2Values| ==> C2Values[i] == {}
  {
  }

  /** A list with as many elements as its set has no repetitions. */
  lemma {:induction false} CountDistinct<T>(s: seq<T>)
    requires |Elements(s)| == |s|
    ensures Distinct(s)
  {
    if s != [] {
      var t := s[1..];
      assert Elements(s) == Elements(t) + {s[0]};
      assert |Elements(t)| <= |t| by {
        ElementsAtMostLength(t);
      }
      assert s[0] !in Elements(t);
      assert |Elements(t)| == |t|;
      CountDistinct(t);
      forall i, j | 0 <= i < j < |s| ensures s[i] != s[j] {
        if i > 0 {
          assert s[i] == t[i - 1] && s[j] == t[j - 1];
        } else {
          assert s[j] == t[j - 1] && t[j - 1] in Elements(t);
        }
      }
    }
  }

  lemma {:induction false} ElementsAtMostLength<T>(s: seq<T>)
    ensures |Elements(s)| <= |s|
  {
    if s != [] {
      assert Elements(s) == Elements(s[1..]) + {s[0]};
      ElementsAtMostLength(s[1..]);
    }
  }

  /** One ordering of the card index: the suspects, the rooms and the weapons as listed. */
  const CardOrder: seq<string> := [
    "scarlet", "plum", "mustard", "green", "white", "peacock",
    "study", "hall", "lounge", "library", "billiard", "dining", "conservatory", "ballroom", "kitchen",
    "knife", "wrench", "revolver", "pipe", "rope", "candlestick"
  ]

  lemma CardOrderIsListing()
    ensures IsListing(CardOrder, Cards)
  {
    assert Elements(CardOrder) == Cards;
    CardIndex();
    CountDistinct(CardOrder);
  }

  /** A column listing one value per row of an ordering of s is that value over s. */
  lemma UniformColumn<V>(values: seq<V>, index: seq<string>, s: set<string>, v: V)
    requires IsListing(index, s) && |values| == |index|
    requires forall i :: 0 <= i < |values| ==> values[i] == v
    ensures SeriesOf(values, index) == Ok(map c | c in s :: v)
  {
    var col := SeriesOf(values, index).value;
    forall c | c in col ensures col[c] == v {
      var i :| 0 <= i < |index| && index[i] == c;
    }
    assert col.Keys == s;
    assert col == map c | c in s :: v;
  }

  lemma FillColumn<V>(index: seq<string>, s: set<string>, v: V)
    requires IsListing(index, s)
    ensures SeriesFill(v, index) == map c | c in s :: v
  {
  }

  /**
   * Construction succeeds for every ordering of the card index and always
   * yields the same table: every `c1` cell holds the placeholder (so no card
   * starts marked 1), every `c2` cell is empty, and both columns have
   * exactly the 21 cards as rows.
   */
  lemma NewTableIsInitial(index: seq<string>)
    requires IsListing(index, Cards)
    ensures NewTable(index) == Ok(Initial())
    ensures var t := NewTable(index).value;
      && t.c1.Keys == Cards && t.c2.Keys == Cards
      && (forall c :: c in t.c1 ==> t.c1[c] == Unmarked && t.c1[c] != Mark(1))
      && (forall c :: c in t.c2 ==> t.c2[c] == {})
  {
    C2ListFitsIndex(index);
    C2ValuesEmpty();
    UniformColumn(C2Values, index, Cards, {});
    FillColumn(index, Cards, Unmarked);
  }

  /** The constructor as it runs: over the index order of CardOrder. */
  lemma NewTableOfCardOrder()
    ensures IsListing(CardOrder, Cards)
    ensures NewTable(CardOrder) == Ok(Initial())
  {
    CardOrderIsListing();
    NewTableIsInitial(CardOrder);
  }
}
