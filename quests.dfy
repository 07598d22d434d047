/** The static tables of the progression engine (main.py:41-51): the six stat
    names, the pool of six quests, the rank ladder and the levels at which the
    rank advances, with the quest look-up `complete_quest` performs on them. */
module Quests {
  import opened Text

  /** The six keys of the profile's `Stats` dictionary. */
  datatype Stat = IQ | EQ | Strength | TechnicalAttribute | Aptitude | ProblemSolving

  /** The key string the profile uses for each stat. */
  function StatName(s: Stat): string {
    match s
    case IQ => "IQ"
    case EQ => "EQ"
    case Strength => "Strength"
    case TechnicalAttribute => "Technical Attribute"
    case Aptitude => "Aptitude"
    case ProblemSolving => "Problem Solving"
  }

  /** The stats in the order the initial profile declares them. */
  const STAT_ORDER: seq<Stat> := [IQ, EQ, Strength, TechnicalAttribute, Aptitude, ProblemSolving]

  /** One pool entry: its title, the experience it awards and the stats it raises. */
  datatype Quest = Quest(title: string, xpReward: int, stats: seq<Stat>)

  const QUEST_POOL: seq<Quest> := [
    Quest("Solve 1 DSA Problem", 50, [IQ, ProblemSolving]),
    Quest("Write Journal Reflection", 10, [EQ]),
    Quest("Deep Coding (Java \U{2013} 1 Hour)", 25, [TechnicalAttribute, Aptitude]),
    Quest("Drink 2L Water", 5, [Strength]),
    Quest("Study AI Concepts", 15, [TechnicalAttribute, IQ]),
    Quest("1 Hour Creative Writing", 20, [EQ, ProblemSolving])
  ]

  const RANKS: seq<string> := ["E", "D", "C", "B", "A", "S", "S+"]

  /** Reaching one of these levels advances the rank one step. */
  const RANK_MILESTONES: seq<int> := [10, 20, 35, 50]

  /** The main quest `forge` installs when none is set. */
  const MAIN_QUEST: string := "Path to Global Recognition"

  /** `t` is the title of some pool entry. */
  predicate PoolTitle(t: string) {
    exists i :: 0 <= i < |QUEST_POOL| && QUEST_POOL[i].title == t
  }

  /** The facts about one pool entry that the engine needs: a positive reward,
      distinct affected stats, and a title no other entry shares. */
  lemma PoolEntry(i: nat)
    requires i < |QUEST_POOL|
    ensures QUEST_POOL[i].xpReward > 0
    ensures Distinct(QUEST_POOL[i].stats)
    ensures forall j :: 0 <= j < |QUEST_POOL| && j != i ==> QUEST_POOL[j].title != QUEST_POOL[i].title
  {
    assert forall j :: 0 <= j < |QUEST_POOL| ==> |QUEST_POOL[j].title| == [19, 24, 27, 14, 17, 23][j];
  }

  /** `q[0].lower()` contains `quest_name.lower()` (main.py:90). The empty
      fragment matches every title. */
  predicate Matches(q: Quest, fragment: string)
    ensures fragment == [] ==> Matches(q, fragment)
  {
    ContainsEmpty(Lower(q.title));
    Contains(Lower(q.title), Lower(fragment))
  }

  /** `next((q for q in pool if ...), None)`: the position of the first entry,
      in declaration order, whose title matches the fragment, or None. */
  function FirstMatch(pool: seq<Quest>, fragment: string): (r: Option<nat>)
    ensures r.Some? ==> r.value < |pool| && Matches(pool[r.value], fragment)
    ensures r.Some? ==> forall j :: 0 <= j < r.value ==> !Matches(pool[j], fragment)
    ensures r.None? <==> forall j :: 0 <= j < |pool| ==> !Matches(pool[j], fragment)
  {
    if pool == [] then None
    else if Matches(pool[0], fragment) then Some(0)
    else match FirstMatch(pool[1..], fragment)
      case None => None
      case Some(k) => Some(k + 1)
  }

  /** The quest look-up of `complete_quest`, over the static pool. The empty
      fragment selects the first entry. */
  function FindQuest(fragment: string): (r: Option<nat>)
    ensures r.Some? ==> r.value < |QUEST_POOL|
    ensures fragment == [] ==> r == Some(0)
  {
    FirstMatch(QUEST_POOL, fragment)
  }

  /** The look-up ignores the case of the fragment. */
  lemma FindQuestIgnoresCase(fragment: string)
    ensures FindQuest(Lower(fragment)) == FindQuest(fragment)
  {
    LowerIdempotent(fragment);
    assert forall q :: Matches(q, Lower(fragment)) == Matches(q, fragment);
  }

  /** Upper-case and lower-case fragments look up alike: "DSA" finds what
      "dsa" finds. */
  lemma FindDsaUpper()
    ensures FindQuest("DSA") == FindQuest("dsa")
  {
    assert Lower("DSA") == "dsa";
    FindQuestIgnoresCase("DSA");
  }

  /** "dsa" finds "Solve 1 DSA Problem", the first pool entry. */
  lemma FindDsa()
    ensures FindQuest("dsa") == Some(0)
  {
    assert Matches(QUEST_POOL[0], "dsa") by {
      var hay := Lower(QUEST_POOL[0].title);
      assert hay[8] == 'd' && hay[9] == 's' && hay[10] == 'a';
      assert Lower("dsa") == "dsa";
      assert "dsa" <= hay[8..];
    }
  }

  /** The first pool title has no letter j, so "journal" does not match it. */
  lemma JournalMissesDsa()
    ensures !Matches(QUEST_POOL[0], "journal")
  {
    var t := QUEST_POOL[0].title;
    assert forall k :: 0 <= k < |t| ==> t[k] !in "jJ" by {
      assert t == "Solve 1 DSA Problem";
    }
    var needle := Lower("journal");
    assert needle[0] == 'j';
    var hay := Lower(t);
    assert 'j' !in hay;
    if Contains(hay, needle) {
      ContainsHead(hay, needle);
      assert false;
    }
  }

  /** The second pool title contains "journal" once lower-cased. */
  lemma JournalMatchesReflection()
    ensures Matches(QUEST_POOL[1], "journal")
  {
    var t := "Write Journal Reflection";
    assert QUEST_POOL[1].title == t;
    var word := t[6..13];
    assert word == "Journal";
    assert Lower(word) == "journal" by {
      var w := Lower(word);
      assert w[0] == 'j' && w[1] == 'o' && w[2] == 'u' && w[3] == 'r';
      assert w[4] == 'n' && w[5] == 'a' && w[6] == 'l';
    }
    var hay := Lower(t);
    assert hay[6..13] == Lower(word);
    assert Lower("journal") <= hay[6..];
  }

  /** "journal" skips the first entry and finds "Write Journal Reflection". */
  lemma FindJournal()
    ensures FindQuest("journal") == Some(1)
  {
    JournalMissesDsa();
    JournalMatchesReflection();
  }

  /** The affected stats of the pool entry with this title ([] for a title
      outside the pool). */
  function StatsOf(pool: seq<Quest>, title: string): seq<Stat> {
    if pool == [] then []
    else if pool[0].title == title then pool[0].stats
    else StatsOf(pool[1..], title)
  }

  lemma {:induction false} StatsOfEntry(pool: seq<Quest>, i: nat)
    requires i < |pool|
    requires forall j :: 0 <= j < |pool| && j != i ==> pool[j].title != pool[i].title
    ensures StatsOf(pool, pool[i].title) == pool[i].stats
  {
    if i > 0 {
      assert pool[0].title != pool[i].title;
      StatsOfEntry(pool[1..], i - 1);
    }
  }

  /** How many of the milestones `ms` lie in the level interval (lo, hi]. */
  function MilestonesIn(ms: seq<int>, lo: int, hi: int): (n: nat)
    ensures n <= |ms|
    ensures hi <= lo ==> n == 0
  {
    if ms == [] then 0
    else (if lo < ms[0] <= hi then 1 else 0) + MilestonesIn(ms[1..], lo, hi)
  }

  /** For a list without repeats, the count is the number of distinct
      milestone levels in (lo, hi]. */
  lemma {:induction false} MilestonesCount(ms: seq<int>, lo: int, hi: int)
    requires Distinct(ms)
    ensures MilestonesIn(ms, lo, hi) == |set m | m in ms && lo < m <= hi|
  {
    if ms != [] {
      assert Distinct(ms[1..]);
      MilestonesCount(ms[1..], lo, hi);
      var rest := set m | m in ms[1..] && lo < m <= hi;
      assert ms[0] !in rest;
      if lo < ms[0] <= hi {
        assert (set m | m in ms && lo < m <= hi) == {ms[0]} + rest;
      } else {
        assert (set m | m in ms && lo < m <= hi) == rest;
      }
    }
  }

  lemma {:induction false} MilestonesSplit(ms: seq<int>, a: int, b: int, c: int)
    requires a <= b <= c
    ensures MilestonesIn(ms, a, b) + MilestonesIn(ms, b, c) == MilestonesIn(ms, a, c)
  {
    if ms != [] {
      MilestonesSplit(ms[1..], a, b, c);
    }
  }

  /** Going up one level crosses a milestone exactly when the new level is one. */
  lemma {:induction false} MilestonesStep(ms: seq<int>, level: int)
    requires Distinct(ms)
    ensures MilestonesIn(ms, level, level + 1) == if level + 1 in ms then 1 else 0
  {
    if ms != [] {
      assert ms == [ms[0]] + ms[1..];
      assert Distinct(ms[1..]);
      MilestonesStep(ms[1..], level);
    }
  }

  /** The rank index a profile that started at level 1 and rank "E" holds at
      this level. */
  function RankFor(level: int): nat {
    MilestonesIn(RANK_MILESTONES, 1, level)
  }

  /** Rank "D" from level 10, "C" from 20, "B" from 35 and "A" from 50; the
      ranks "S" and "S+" are never reached. */
  lemma RankLadder(level: int)
    ensures RankFor(level) < |RANKS|
    ensures RANKS[RankFor(level)] ==
      if level >= 50 then "A"
      else if level >= 35 then "B"
      else if level >= 20 then "C"
      else if level >= 10 then "D"
      else "E"
  {
    var ms := RANK_MILESTONES;
    assert ms[1..][1..][1..][1..] == [];
    assert MilestonesIn(ms[1..][1..][1..], 1, level) == if level >= 50 then 1 else 0;
    assert MilestonesIn(ms[1..][1..], 1, level) == (if level >= 35 then 1 else 0) + (if level >= 50 then 1 else 0);
    assert MilestonesIn(ms[1..], 1, level) ==
      (if level >= 20 then 1 else 0) + (if level >= 35 then 1 else 0) + (if level >= 50 then 1 else 0);
  }
}
