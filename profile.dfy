/** The player profile as a value, and what the engine's operations do to it
    (main.py:21-39, 54-69, 98-105): the closed form of the level-up loop, the
    effect of completing a quest, and the invariant every reachable profile
    satisfies. The class in module Engine is proved against these. */
module Progression {
  import opened Text
  import opened Quests

  /** One entry of `QuestHistory`: the quest, the experience it gave and when. */
  datatype Record = Record(quest: string, xp: int, date: string)

  /** The contents of `rpg_state`. The rank is held as its index into RANKS,
      the form in which `level_up` works on it; `RankName` gives the letter
      the profile shows. */
  datatype Profile = Profile(
    level: int, rank: nat, xp: int, stats: map<Stat, int>,
    daily: seq<string>, mainQuest: Option<string>,
    history: seq<Record>, xpLog: map<string, int>)
  {
    function RankName(): string
      requires rank < |RANKS|
    {
      RANKS[rank]
    }
  }

  function Max(a: int, b: int): int { if a < b then b else a }

  function Min(a: int, b: int): int { if a < b then a else b }

  /** Every stat raised by `n`. */
  function AddToAll(m: map<Stat, int>, n: int): map<Stat, int> {
    map k | k in m :: m[k] + n
  }

  /** The stats after `for stat in names: stats[stat] += 1`: each one raised by
      the number of times it is named. */
  function Bumped(m: map<Stat, int>, names: seq<Stat>): map<Stat, int> {
    map k | k in m :: m[k] + multiset(names)[k]
  }

  /** One more level on top of `n` is `n + 1` levels. */
  lemma AddToAllStep(m: map<Stat, int>, n: int)
    ensures AddToAll(AddToAll(m, n), 1) == AddToAll(m, n + 1)
  {
  }

  /** One loop round of `level_up` on the rank: the clamped count of
      milestones passed grows by one exactly when the new level is a milestone
      and the rank is not the last one yet. */
  lemma RankStep(r0: nat, lo: int, level: int)
    requires r0 < |RANKS| && lo <= level
    ensures var cur := Min(r0 + MilestonesIn(RANK_MILESTONES, lo, level), |RANKS| - 1);
      Min(r0 + MilestonesIn(RANK_MILESTONES, lo, level + 1), |RANKS| - 1) ==
        if level + 1 in RANK_MILESTONES && cur + 1 < |RANKS| then cur + 1 else cur
  {
    MilestonesSplit(RANK_MILESTONES, lo, level, level + 1);
    assert Distinct(RANK_MILESTONES);
    MilestonesStep(RANK_MILESTONES, level);
  }

  /** The experience the history records, in total. */
  function SumXp(h: seq<Record>): int {
    if h == [] then 0 else h[0].xp + SumXp(h[1..])
  }

  /** Appending a record adds its experience to the total. */
  lemma {:induction false} SumXpAppend(h: seq<Record>, r: Record)
    ensures SumXp(h + [r]) == SumXp(h) + r.xp
  {
    if h != [] {
      assert (h + [r])[1..] == h[1..] + [r];
      SumXpAppend(h[1..], r);
    }
  }

  /** How many times the recorded quests raised stat `s`. */
  function Raises(h: seq<Record>, s: Stat): nat {
    if h == [] then 0 else multiset(StatsOf(QUEST_POOL, h[0].quest))[s] + Raises(h[1..], s)
  }

  /** Appending a record adds what its quest does to stat `s`. */
  lemma {:induction false} RaisesAppend(h: seq<Record>, r: Record, s: Stat)
    ensures Raises(h + [r], s) == Raises(h, s) + multiset(StatsOf(QUEST_POOL, r.quest))[s]
  {
    if h != [] {
      assert (h + [r])[1..] == h[1..] + [r];
      RaisesAppend(h[1..], r, s);
    }
  }

  /** What `level_up` leaves: the lowest level, not below the current one,
      whose threshold `level * 100` the experience has not reached; every stat
      raised once per level gained; and the rank index raised once per
      milestone level reached on the way, never past the last rank. Nothing
      else changes. */
  function LevelledUp(p: Profile): (r: Profile)
    ensures r.xp == p.xp && r.level >= p.level && r.xp < r.level * 100
    ensures r.level == p.level || (r.level - 1) * 100 <= r.xp
    ensures r.stats.Keys == p.stats.Keys
    ensures forall s :: s in p.stats ==> r.stats[s] == p.stats[s] + (r.level - p.level)
    ensures r == p.(level := r.level, stats := r.stats, rank := r.rank)
    ensures p.rank < |RANKS| ==> p.rank <= r.rank < |RANKS|
  {
    var level := Max(p.level, p.xp / 100 + 1);
    p.(level := level,
       stats := AddToAll(p.stats, level - p.level),
       rank := Min(p.rank + MilestonesIn(RANK_MILESTONES, p.level, level), |RANKS| - 1))
  }

  /** From a rank that matches the level, levelling up advances the rank by
      the number of milestone levels passed on the way, and the rank still
      matches the new level: the clamp at the last rank never bites. */
  lemma LevelledUpRank(p: Profile)
    requires p.level >= 1 && p.rank == RankFor(p.level)
    ensures var r := LevelledUp(p);
      && r.rank == p.rank + |set m | m in RANK_MILESTONES && p.level < m <= r.level|
      && r.rank == RankFor(r.level)
  {
    var r := LevelledUp(p);
    assert Distinct(RANK_MILESTONES);
    MilestonesCount(RANK_MILESTONES, p.level, r.level);
    MilestonesSplit(RANK_MILESTONES, 1, p.level, r.level);
  }

  /** Below the threshold, levelling up changes nothing. */
  lemma LevelledUpNoop(p: Profile)
    requires p.rank < |RANKS| && p.xp < p.level * 100
    ensures LevelledUp(p) == p
  {
    assert AddToAll(p.stats, 0) == p.stats;
  }

  /** Levelling up twice is levelling up once: the loop runs to completion. */
  lemma LevelledUpIdempotent(p: Profile)
    requires p.rank < |RANKS|
    ensures LevelledUp(LevelledUp(p)) == LevelledUp(p)
  {
    LevelledUpNoop(LevelledUp(p));
  }

  /** The profile after completing pool quest `i`, which is on the daily list:
      the reward is added to the experience, each stat the quest names goes up
      by one, the title's first occurrence leaves the daily list, a record
      stamped `now` joins the end of the history, the profile levels up, and
      today's log entry becomes the new experience. */
  function Complete(p: Profile, i: nat, today: string, now: string): (r: Profile)
    requires i < |QUEST_POOL| && QUEST_POOL[i].title in p.daily
    ensures r.xp == p.xp + QUEST_POOL[i].xpReward
    ensures r.level >= p.level && r.xp < r.level * 100
    ensures r.level == p.level || (r.level - 1) * 100 <= r.xp
    ensures p.rank < |RANKS| ==> p.rank <= r.rank < |RANKS|
    ensures r.stats.Keys == p.stats.Keys
    ensures forall s :: s in p.stats ==>
      r.stats[s] == p.stats[s] + (if s in QUEST_POOL[i].stats then 1 else 0) + (r.level - p.level)
    ensures r.daily == RemoveFirst(p.daily, QUEST_POOL[i].title)
    ensures r.history == p.history + [Record(QUEST_POOL[i].title, QUEST_POOL[i].xpReward, now)]
    ensures r.xpLog == p.xpLog[today := r.xp]
    ensures r.mainQuest == p.mainQuest
  {
    var q := QUEST_POOL[i];
    PoolEntry(i);
    assert forall s :: multiset(q.stats)[s] == if s in q.stats then 1 else 0 by {
      forall s ensures multiset(q.stats)[s] == if s in q.stats then 1 else 0 {
        DistinctCount(q.stats, s);
      }
    }
    var gained := p.(xp := p.xp + q.xpReward, stats := Bumped(p.stats, q.stats),
                     daily := RemoveFirst(p.daily, q.title),
                     history := p.history + [Record(q.title, q.xpReward, now)]);
    var levelled := LevelledUp(gained);
    levelled.(xpLog := levelled.xpLog[today := levelled.xp])
  }

  /** Complete is the composition of its steps: award, level up, log. */
  lemma CompleteSteps(p: Profile, i: nat, today: string, now: string, gained: Profile)
    requires i < |QUEST_POOL| && QUEST_POOL[i].title in p.daily
    requires gained == p.(xp := p.xp + QUEST_POOL[i].xpReward,
                          stats := Bumped(p.stats, QUEST_POOL[i].stats),
                          daily := RemoveFirst(p.daily, QUEST_POOL[i].title),
                          history := p.history + [Record(QUEST_POOL[i].title, QUEST_POOL[i].xpReward, now)])
    ensures Complete(p, i, today, now) ==
      LevelledUp(gained).(xpLog := LevelledUp(gained).xpLog[today := LevelledUp(gained).xp])
  {
  }

  /** What holds of every profile from the initial one on: the experience is
      the sum of the recorded rewards and fixes the level; the level fixes the
      rank; each stat is 10 plus one per level gained plus one per recorded
      quest that raises it; the daily list holds at most three distinct pool
      titles; the main quest is unset or the fixed one; and no logged value
      exceeds the current experience. */
  ghost predicate Inv(p: Profile) {
    && p.xp >= 0
    && p.xp == SumXp(p.history)
    && p.level == p.xp / 100 + 1
    && p.rank == RankFor(p.level)
    && (forall s: Stat :: s in p.stats && p.stats[s] == 9 + p.level + Raises(p.history, s))
    && |p.daily| <= 3 && Distinct(p.daily)
    && (forall t :: t in p.daily ==> PoolTitle(t))
    && (p.mainQuest == None || p.mainQuest == Some(MAIN_QUEST))
    && (forall d :: d in p.xpLog ==> 0 <= p.xpLog[d] <= p.xp)
  }

  /** The profile the engine starts from. */
  function Initial(): Profile {
    Profile(1, 0, 0,
            map[IQ := 10, EQ := 10, Strength := 10, TechnicalAttribute := 10, Aptitude := 10, ProblemSolving := 10],
            [], None, [], map[])
  }

  lemma InitialInv()
    ensures Inv(Initial())
  {
    forall s: Stat ensures s in Initial().stats {
      assert s.IQ? || s.EQ? || s.Strength? || s.TechnicalAttribute? || s.Aptitude? || s.ProblemSolving?;
    }
  }

  /** What a caller of `get_profile` can rely on: a level of at least 1,
      experience below the next threshold, a rank that is never "S" or "S+",
      and every stat present and at least 10. */
  lemma InvBounds(p: Profile)
    requires Inv(p)
    ensures p.level >= 1 && 0 <= p.xp < p.level * 100
    ensures p.rank < |RANKS| && p.RankName() != "S" && p.RankName() != "S+"
    ensures forall s: Stat :: s in p.stats && p.stats[s] >= 10
  {
    RankLadder(p.level);
  }

  /** Completing a quest keeps the invariant, and neither the experience,
      the level, the rank index nor any stat goes down. */
  lemma CompleteKeepsInv(p: Profile, i: nat, today: string, now: string)
    requires Inv(p) && i < |QUEST_POOL| && QUEST_POOL[i].title in p.daily
    ensures Inv(Complete(p, i, today, now))
    ensures Complete(p, i, today, now).level >= p.level
    ensures Complete(p, i, today, now).rank >= p.rank
    ensures Complete(p, i, today, now).xp > p.xp
    ensures forall s :: s in p.stats ==> Complete(p, i, today, now).stats[s] >= p.stats[s]
  {
    var r := Complete(p, i, today, now);
    var q := QUEST_POOL[i];
    var rec := Record(q.title, q.xpReward, now);
    PoolEntry(i);
    StatsOfEntry(QUEST_POOL, i);
    assert p.xp / 100 <= r.xp / 100;
    assert r.level == r.xp / 100 + 1;
    MilestonesSplit(RANK_MILESTONES, 1, p.level, r.level);
    SumXpAppend(p.history, rec);
    RemoveFirstDistinct(p.daily, q.title);
    forall s: Stat ensures r.stats[s] == 9 + r.level + Raises(r.history, s) {
      DistinctCount(q.stats, s);
      RaisesAppend(p.history, rec, s);
    }
  }

  /** 100 experience from level 1 is one level: level 2, every stat 11,
      rank still "E". */
  lemma LevelUpOnce()
    ensures var r := LevelledUp(Initial().(xp := 100));
      && r.level == 2 && r.rank == 0
      && r.stats == map[IQ := 11, EQ := 11, Strength := 11, TechnicalAttribute := 11, Aptitude := 11, ProblemSolving := 11]
  {
  }

  /** 250 experience from level 1 is two levels: level 3, every stat 12,
      rank still "E". */
  lemma LevelUpTwice()
    ensures var r := LevelledUp(Initial().(xp := 250));
      && r.level == 3 && r.rank == 0
      && r.stats == map[IQ := 12, EQ := 12, Strength := 12, TechnicalAttribute := 12, Aptitude := 12, ProblemSolving := 12]
  {
  }

  /** At the last rank, reaching a milestone level leaves the rank where it is. */
  lemma LevelUpClamp()
    ensures LevelledUp(Initial().(level := 9, rank := 6, xp := 900)).rank == 6
  {
  }

  /** A fresh profile after drawing pool entries 0, 3 and 4. */
  function FreshDraw(): Profile {
    Initial().(daily := [QUEST_POOL[0].title, QUEST_POOL[3].title, QUEST_POOL[4].title],
               mainQuest := Some(MAIN_QUEST))
  }

  /** Completing the first pool quest from that profile: 50 experience, still
      level 1 and rank "E", IQ and Problem Solving raised by one, the title
      gone from the daily list, one record and one log entry. */
  lemma CompleteFirstFromFresh(today: string, now: string)
    ensures Complete(FreshDraw(), 0, today, now).level == 1
    ensures Complete(FreshDraw(), 0, today, now).xp == 50
    ensures Complete(FreshDraw(), 0, today, now).rank == 0
    ensures Complete(FreshDraw(), 0, today, now).stats ==
      map[IQ := 11, EQ := 10, Strength := 10, TechnicalAttribute := 10, Aptitude := 10, ProblemSolving := 11]
    ensures Complete(FreshDraw(), 0, today, now).daily == ["Drink 2L Water", "Study AI Concepts"]
    ensures Complete(FreshDraw(), 0, today, now).history == [Record("Solve 1 DSA Problem", 50, now)]
    ensures Complete(FreshDraw(), 0, today, now).xpLog == map[today := 50]
  {
    var start := FreshDraw();
    var r := Complete(start, 0, today, now);
    assert RemoveFirst(start.daily, QUEST_POOL[0].title) == start.daily[1..];
    assert r.level == 1;
    BumpFirstFromFresh();
    assert AddToAll(Bumped(start.stats, QUEST_POOL[0].stats), 0) == Bumped(start.stats, QUEST_POOL[0].stats);
  }

  lemma BumpFirstFromFresh()
    ensures Bumped(Initial().stats, QUEST_POOL[0].stats) ==
      map[IQ := 11, EQ := 10, Strength := 10, TechnicalAttribute := 10, Aptitude := 10, ProblemSolving := 11]
  {
    var m := multiset(QUEST_POOL[0].stats);
    assert m == multiset{IQ, ProblemSolving};
    assert m[IQ] == 1 && m[ProblemSolving] == 1 && m[EQ] == 0 && m[Strength] == 0;
    assert m[TechnicalAttribute] == 0 && m[Aptitude] == 0;
  }
}
