/**
 * Game statistics (core/src/main/java/com/anyicomplex/unlucky/resource/Statistics.java).
 *
 * The statistics are counters that the battle and map code bump in place, plus five running
 * maxima (`MaxStat`, an object with one int field `stat`; its file is not part of this
 * model). The statistics screen shows two aligned string lists: descriptions and values, with
 * three section headers whose value is "".
 */
module Stats {

  /** A running maximum; a new one starts at Java's default 0. */
  class MaxStat {
    var stat: int

    constructor ()
      ensures stat == 0
    {
      stat := 0;
    }
  }

  /** The maximum after considering one candidate. */
  function Considered(stat: int, candidate: int): int
  {
    if candidate > stat then candidate else stat
  }

  /** The maximum after considering each candidate of `cs` in turn. */
  function ConsideredAll(stat: int, cs: seq<int>): int
  {
    if cs == [] then stat else Considered(ConsideredAll(stat, cs[..|cs| - 1]), cs[|cs| - 1])
  }

  // ------------------------------------------------------------------
  // Properties of the running maximum
  // ------------------------------------------------------------------

  /** One update yields the larger of the two: it never decreases and never undershoots. */
  lemma ConsideredIsMax(stat: int, candidate: int)
    ensures Considered(stat, candidate) >= stat && Considered(stat, candidate) >= candidate
    ensures Considered(stat, candidate) == stat || Considered(stat, candidate) == candidate
  {
  }

  /**
   * Runs of updates compose: tracking a record over one run and then another gives the same
   * value as tracking it over both at once.
   */
  lemma {:induction false} ConsideredAllConcat(stat: int, cs: seq<int>, ds: seq<int>)
    ensures ConsideredAll(stat, cs + ds) == ConsideredAll(ConsideredAll(stat, cs), ds)
    decreases |ds|
  {
    if ds == [] {
      assert cs + ds == cs;
    } else {
      assert (cs + ds)[..|cs + ds| - 1] == cs + ds[..|ds| - 1];
      ConsideredAllConcat(stat, cs, ds[..|ds| - 1]);
    }
  }

  /**
   * After a run of updates the tracked value is the maximum of the start value and all the
   * candidates: at least each of them, and equal to one of them.
   */
  lemma {:induction false} ConsideredAllIsMax(stat: int, cs: seq<int>)
    ensures ConsideredAll(stat, cs) >= stat
    ensures forall k :: 0 <= k < |cs| ==> ConsideredAll(stat, cs) >= cs[k]
    ensures ConsideredAll(stat, cs) == stat || ConsideredAll(stat, cs) in cs
  {
    if cs != [] {
      var init := cs[..|cs| - 1];
      ConsideredAllIsMax(stat, init);
      assert forall k :: 0 <= k < |init| ==> init[k] == cs[k];
    }
  }

  // ------------------------------------------------------------------
  // Decimal rendering (Java's "" + n)
  // ------------------------------------------------------------------

  function DigitChar(d: int): char
    requires 0 <= d <= 9
  {
    ('0' as int + d) as char
  }

  function DigitValue(c: char): int
  {
    c as int - '0' as int
  }

  predicate IsDigit(c: char)
  {
    '0' <= c <= '9'
  }

  /** The decimal digits of a natural number, most significant first, without leading zeros. */
  function Digits(n: nat): (r: string)
    ensures |r| > 0 && forall i :: 0 <= i < |r| ==> IsDigit(r[i])
    ensures |r| > 1 ==> r[0] != '0'
  {
    if n < 10 then [DigitChar(n)] else Digits(n / 10) + [DigitChar(n % 10)]
  }

  /** `"" + n` for an int: a minus sign before the digits of a negative number. */
  function DecimalString(n: int): (r: string)
    ensures r != []
  {
    if n < 0 then "-" + Digits(-n) else Digits(n)
  }

  /** Reading a string of digits back as a number. */
  function ParseDigits(s: string): int
  {
    if s == [] then 0 else 10 * ParseDigits(s[..|s| - 1]) + DigitValue(s[|s| - 1])
  }

  function ParseDecimal(s: string): int
  {
    if |s| > 0 && s[0] == '-' then -ParseDigits(s[1..]) else ParseDigits(s)
  }

  lemma {:induction false} DigitsRoundTrip(n: nat)
    ensures ParseDigits(Digits(n)) == n
  {
    if n >= 10 {
      DigitsRoundTrip(n / 10);
      var s := Digits(n / 10) + [DigitChar(n % 10)];
      assert s[..|s| - 1] == Digits(n / 10);
    }
  }

  /** The rendering is a faithful decimal: parsing it gives back the number. */
  lemma DecimalRoundTrip(n: int)
    ensures ParseDecimal(DecimalString(n)) == n
  {
    if n < 0 {
      DigitsRoundTrip(-n);
      assert DecimalString(n)[1..] == Digits(-n);
    } else {
      DigitsRoundTrip(n);
    }
  }

  // ------------------------------------------------------------------
  // The two lists
  // ------------------------------------------------------------------

  /** The three section headers sit at these indexes of both lists. */
  predicate IsHeader(i: int)
  {
    i == 0 || i == 8 || i == 20
  }

  /** `getDescList()`. */
  const DESC_LIST: seq<string> := [
    "player statistics",
    "Total exp gained: ",
    "Total gold earned: ",
    "Damage taken: ",
    "HP Healed: ",
    "Number of deaths: ",
    "Number of successful enchants: ",
    "Number of shop items bought: ",
    "map statistics",
    "Total number of steps: ",
    "Number of maps completed: ",
    "Number of items from monsters: ",
    "Number of common items dropped: ",
    "Number of rare items dropped: ",
    "Number of epic items dropped: ",
    "Number of legendary dropped: ",
    "Total gold obtained from maps: ",
    "Number of ? tiles stepped on: ",
    "Number of ! tiles stepped on: ",
    "Number of times teleported: ",
    "battle statistics",
    "Damage dealt: ",
    "Most damage in single hit: ",
    "Most damage in single battle: ",
    "Most healing in single move: ",
    "Most healing in single battle: ",
    "Number of moves used: ",
    "Number of moves missed: ",
    "Number of special moves used: ",
    "Number of enemies defeated: ",
    "Number of elites defeated: ",
    "Number of bosses defeated: ",
    "Number of elites encountered: ",
    "Number of bosses encountered: "
  ]

  /** A description label: it ends with ": ", ready for the value to follow. */
  predicate IsLabel(d: string)
  {
    |d| >= 2 && d[|d| - 2] == ':' && d[|d| - 1] == ' '
  }

  /** The headers are the section titles; every other description is a label. */
  lemma DescriptionHeaders()
    ensures |DESC_LIST| == 34
    ensures DESC_LIST[0][..6] == "player" && DESC_LIST[8][..3] == "map" && DESC_LIST[20][..6] == "battle"
    ensures forall i :: 0 <= i < 34 && !IsHeader(i) ==> IsLabel(DESC_LIST[i])
  {
    PlayerSectionLabels();
    MapSectionLabels();
    BattleSectionLabels();
  }

  lemma PlayerSectionLabels()
    ensures forall i :: 1 <= i < 8 ==> IsLabel(DESC_LIST[i])
  {
  }

  lemma MapSectionLabels()
    ensures forall i :: 9 <= i < 20 ==> IsLabel(DESC_LIST[i])
  {
  }

  lemma BattleSectionLabels()
    ensures forall i :: 21 <= i < 34 ==> IsLabel(DESC_LIST[i])
  {
  }

  /** One line per value: "" for a header, the decimal rendering otherwise. */
  function Rendered(v: seq<int>): (r: seq<string>)
    ensures |r| == |v|
  {
    seq(|v|, i requires 0 <= i < |v| => if IsHeader(i) then "" else DecimalString(v[i]))
  }

  lemma RenderedAligned(v: seq<int>)
    ensures forall i :: 0 <= i < |v| ==> (Rendered(v)[i] == "" <==> IsHeader(i))
    ensures forall i :: 0 <= i < |v| && !IsHeader(i) ==> ParseDecimal(Rendered(v)[i]) == v[i]
  {
    forall i | 0 <= i < |v| && !IsHeader(i)
      ensures ParseDecimal(Rendered(v)[i]) == v[i]
    {
      DecimalRoundTrip(v[i]);
    }
  }

  class Statistics {
    // player statistics
    var cumulativeExp: int
    var damageTaken: int
    var hpHealed: int
    var cumulativeGold: int
    const maxGold: MaxStat
    var numEnchants: int
    var numDeaths: int
    var numShopItemsBought: int
    // map statistics
    var numSteps: int
    var numDungeonsWon: int
    var numItemsFromMonsters: int
    var numCommonItems: int
    var numRareItems: int
    var numEpicItems: int
    var numLegendaryItems: int
    var goldGainedFromMaps: int
    var numQuestionTiles: int
    var numExclamTiles: int
    var numTeleports: int
    // battle statistics
    var damageDealt: int
    const maxDamageSingleHit: MaxStat
    const maxDamageSingleBattle: MaxStat
    const maxHealSingleMove: MaxStat
    const maxHealSingleBattle: MaxStat
    var numMovesUsed: int
    var numMovesMissed: int
    var numSMovesUsed: int
    var enemiesDefeated: int
    var elitesDefeated: int
    var bossesDefeated: int
    var eliteEncountered: int
    var bossEncountered: int

    /** Every counter starts at 0 and each maximum is its own new object. */
    constructor ()
      ensures fresh(maxGold) && fresh(maxDamageSingleHit) && fresh(maxDamageSingleBattle)
      ensures fresh(maxHealSingleMove) && fresh(maxHealSingleBattle)
      ensures forall i :: 0 <= i < 34 ==> Values()[i] == 0
    {
      cumulativeExp, damageTaken, hpHealed, cumulativeGold := 0, 0, 0, 0;
      numEnchants, numDeaths, numShopItemsBought := 0, 0, 0;
      numSteps, numDungeonsWon, numItemsFromMonsters := 0, 0, 0;
      numCommonItems, numRareItems, numEpicItems, numLegendaryItems := 0, 0, 0, 0;
      goldGainedFromMaps, numQuestionTiles, numExclamTiles, numTeleports := 0, 0, 0, 0;
      damageDealt, numMovesUsed, numMovesMissed, numSMovesUsed := 0, 0, 0, 0;
      enemiesDefeated, elitesDefeated, bossesDefeated := 0, 0, 0;
      eliteEncountered, bossEncountered := 0, 0;
      maxGold := new MaxStat();
      maxDamageSingleBattle := new MaxStat();
      maxDamageSingleHit := new MaxStat();
      maxHealSingleMove := new MaxStat();
      maxHealSingleBattle := new MaxStat();
    }

    /** `updateMax(maxStat, candidate)`: raise the maximum when the candidate is bigger. */
    method UpdateMax(maxStat: MaxStat, candidate: int)
      modifies maxStat
      ensures maxStat.stat == Considered(old(maxStat.stat), candidate)
    {
      if candidate > maxStat.stat {
        maxStat.stat := candidate;
      }
    }

    /** The number each line of the lists reports, by index; headers report nothing (0). */
    function Values(): (r: seq<int>)
      reads this, maxGold, maxDamageSingleHit, maxDamageSingleBattle, maxHealSingleMove, maxHealSingleBattle
      ensures |r| == 34
    {
      [0, cumulativeExp, cumulativeGold, damageTaken, hpHealed, numDeaths, numEnchants, numShopItemsBought,
       0, numSteps, numDungeonsWon, numItemsFromMonsters, numCommonItems, numRareItems, numEpicItems,
       numLegendaryItems, goldGainedFromMaps, numQuestionTiles, numExclamTiles, numTeleports,
       0, damageDealt, maxDamageSingleHit.stat, maxDamageSingleBattle.stat, maxHealSingleMove.stat,
       maxHealSingleBattle.stat, numMovesUsed, numMovesMissed, numSMovesUsed, enemiesDefeated,
       elitesDefeated, bossesDefeated, eliteEncountered, bossEncountered]
    }

    /** `getStatsList()`: "" at the headers, `"" + value` everywhere else. */
    function StatsList(): (r: seq<string>)
      reads this, maxGold, maxDamageSingleHit, maxDamageSingleBattle, maxHealSingleMove, maxHealSingleBattle
      ensures |r| == |DESC_LIST|
      ensures forall i :: 0 <= i < |r| ==> (r[i] == "" <==> IsHeader(i))
    {
      RenderedAligned(Values());
      Rendered(Values())
    }

    /**
     * The two lists line up: same length, a header exactly where the value is "", and every
     * other value is the decimal rendering of the counter that line describes.
     */
    lemma StatsListAligned()
      ensures |StatsList()| == |DESC_LIST| == |Values()|
      ensures forall i :: 0 <= i < 34 ==> (StatsList()[i] == "" <==> IsHeader(i))
      ensures forall i :: 0 <= i < 34 && !IsHeader(i) ==> ParseDecimal(StatsList()[i]) == Values()[i]
    {
      RenderedAligned(Values());
    }
  }
}
