/** Items of the inventory: the fields every item shares, the category it
    belongs to, and the two counters (rank and level) that an item advances
    in place. */
module Items {

  /** The level at which LevelUp stops having an effect. */
  const MaxLevel := 10

  /** The category of an item with its one category-specific number. The
      number is only ever displayed, so nothing is proved about it. `Plain`
      is an item built from the base class alone. */
  datatype Kind =
    | Plain
    | Weapon(power: int)
    | Armor(defence: int)
    | Ring(magic: int)
    | Shoe(speed: int)

  /** The state of one item at one moment. */
  datatype ItemValue = ItemValue(id: int, name: string, level: int, rank: char, kind: Kind)

  /** The rank table: one step of C, B, A, S; every other character,
      S included, becomes S. */
  function NextRank(rank: char): char
  {
    match rank
    case 'C' => 'B'
    case 'B' => 'A'
    case 'A' => 'S'
    case _ => 'S'
  }

  /** The position of a rank in the order C < B < A < S; -1 for a character
      that is not a rank (an item built with the default constructor has
      rank 0). */
  function Tier(rank: char): int
  {
    match rank
    case 'C' => 0
    case 'B' => 1
    case 'A' => 2
    case 'S' => 3
    case _ => -1
  }

  /** One level step, saturating at MaxLevel. */
  function NextLevel(level: int): int
  {
    if level < MaxLevel then level + 1 else level
  }

  /** `n` rank steps. */
  function RankUps(rank: char, n: nat): char
  {
    if n == 0 then rank else NextRank(RankUps(rank, n - 1))
  }

  /** `n` level steps. */
  function LevelUps(level: int, n: nat): int
  {
    if n == 0 then level else NextLevel(LevelUps(level, n - 1))
  }

  function Min(a: int, b: int): int { if a <= b then a else b }

  /** A rank step moves a real rank one place up the order until S, and
      never moves any character down. */
  lemma RankUpStep(rank: char)
    ensures rank in "CBA" ==> Tier(NextRank(rank)) == Tier(rank) + 1
    ensures Tier(NextRank(rank)) >= Tier(rank)
    ensures NextRank(rank) in "BAS"
    ensures rank !in "CBA" ==> NextRank(rank) == 'S'
  {
  }

  /** From C the ranks run B, A, S and then stay at S. */
  lemma {:induction false} RankUpsFromC(n: nat)
    ensures RankUps('C', n) == "CBAS"[Min(n, 3)]
  {
    if n > 0 {
      RankUpsFromC(n - 1);
    }
  }

  /** Whatever the starting character, three or more rank steps reach S, and
      S is a fixed point. */
  lemma {:induction false} RankUpsReachS(rank: char, n: nat)
    requires n >= 3
    ensures RankUps(rank, n) == 'S'
    ensures NextRank(RankUps(rank, n)) == 'S'
  {
    if n > 3 {
      RankUpsReachS(rank, n - 1);
    } else {
      assert RankUps(rank, 1) == NextRank(rank);
      assert RankUps(rank, 2) in "AS";
    }
  }

  /** A level step adds exactly one below MaxLevel and nothing from MaxLevel
      up; so it never lowers a level and keeps a level within MaxLevel. */
  lemma LevelUpStep(level: int)
    ensures level < MaxLevel ==> NextLevel(level) == level + 1
    ensures level >= MaxLevel ==> NextLevel(level) == level
    ensures level <= NextLevel(level)
    ensures level <= MaxLevel ==> NextLevel(level) <= MaxLevel
  {
  }

  /** Closed form of `n` level steps: a level below the ceiling climbs by `n`
      but never past MaxLevel; a level at or above it does not move. */
  lemma {:induction false} LevelUpsClosedForm(level: int, n: nat)
    ensures LevelUps(level, n) == if level >= MaxLevel then level else Min(level + n, MaxLevel)
  {
    if n > 0 {
      LevelUpsClosedForm(level, n - 1);
    }
  }

  /** Eleven level steps from 0 end at exactly MaxLevel. */
  lemma ElevenLevelUpsFromZero()
    ensures LevelUps(0, 11) == MaxLevel
    ensures NextLevel(LevelUps(0, 11)) == MaxLevel
  {
  }

  /** An item. Its identifier, level and rank change in place; its name and
      category payload are fixed when it is built. */
  class Item {
    var id: int
    const name: string
    var level: int
    var rank: char
    const kind: Kind

    /** The item's current state as a value. */
    function View(): ItemValue
      reads this
    {
      ItemValue(id, name, level, rank, kind)
    }

    /** An item of the given category with the given fields. */
    constructor (id: int, name: string, level: int, rank: char, kind: Kind)
      ensures View() == ItemValue(id, name, level, rank, kind)
    {
      this.id := id;
      this.name := name;
      this.level := level;
      this.rank := rank;
      this.kind := kind;
    }

    /** A base item with the default field values: no identifier (-1), the
        name "Empty", level 0 and no rank (character 0). */
    constructor Default()
      ensures View() == ItemValue(-1, "Empty", 0, 0 as char, Plain)
    {
      id := -1;
      name := "Empty";
      level := 0;
      rank := 0 as char;
      kind := Plain;
    }

    /** Advances the rank one step through the rank table; nothing else changes. */
    method RankUp()
      modifies this
      ensures View() == old(View()).(rank := NextRank(old(rank)))
    {
      rank := NextRank(rank);
    }

    /** Raises the level by one unless it has reached MaxLevel; nothing else changes. */
    method LevelUp()
      modifies this
      ensures View() == old(View()).(level := NextLevel(old(level)))
      ensures old(level) <= level <= old(level) + 1
      ensures level == old(level) + 1 <==> old(level) < MaxLevel
    {
      if level < MaxLevel {
        level := level + 1;
      }
    }

    method GetId() returns (r: int)
      ensures r == id
    {
      r := id;
    }

    /** Replaces the identifier, without any check; nothing else changes. */
    method SetId(id: int)
      modifies this
      ensures View() == old(View()).(id := id)
    {
      this.id := id;
    }
  }
}
