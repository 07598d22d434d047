/** The engine itself: `rpg_state` as an object whose fields the operations
    update in place (main.py:21-39), with `level_up`, `log_xp`, `get_profile`,
    `forge` and `complete_quest` (main.py:54-106). The clock and the random
    draw are parameters of the operations that use them. */
module Engine {
  import opened Text
  import opened Quests
  import opened Progression

  datatype Failure = QuestNotFound | QuestNotActive

  /** The answer of `complete_quest`: the success message's contents with the
      new total, or which error it reported. */
  datatype Outcome =
    | Completed(quest: string, xpGained: int, currentXP: int)
    | Failed(reason: Failure)

  /** The answer of `forge`. */
  datatype Forged = Forged(dailyQuests: seq<string>, mainQuest: Option<string>)

  /** Python's `not main` for the main-quest slot: unset or the empty title. */
  predicate Falsy(o: Option<string>) {
    o == None || o == Some("")
  }

  class RpgState {
    var level: int
    var rankIdx: nat
    var xp: int
    var stats: map<Stat, int>
    var daily: seq<string>
    var mainQuest: Option<string>
    var history: seq<Record>
    var xpLog: map<string, int>

    /** The fields as one profile value. */
    function State(): Profile
      reads this
    {
      Profile(level, rankIdx, xp, stats, daily, mainQuest, history, xpLog)
    }

    ghost predicate Valid()
      reads this
    {
      Inv(State())
    }

    /** The initial `rpg_state`: level 1, rank "E", no experience, every stat
        10, no quests, no history and an empty log. */
    constructor ()
      ensures State() == Initial() && Valid()
    {
      var p := Initial();
      level, rankIdx, xp, stats := p.level, p.rank, p.xp, p.stats;
      daily, mainQuest, history, xpLog := p.daily, p.mainQuest, p.history, p.xpLog;
      new;
      InitialInv();
    }

    /** `get_profile`: the profile as it stands, with the guarantees the
        invariant gives a caller. */
    method GetProfile() returns (p: Profile)
      requires Valid()
      ensures p == State()
      ensures p.level >= 1 && 0 <= p.xp < p.level * 100
      ensures p.rank < |RANKS| && p.RankName() != "S" && p.RankName() != "S+"
      ensures forall s: Stat :: s in p.stats && p.stats[s] >= 10
    {
      p := State();
      InvBounds(p);
    }

    /** The per-level bonus of `level_up`: `for stat in Stats: Stats[stat] += 1`.
        The stats are walked in their declaration order; a key the profile
        does not hold is skipped, as the dict loop never visits it. */
    method GrantLevelBonus()
      modifies this`stats
      ensures stats == AddToAll(old(stats), 1)
    {
      var names := STAT_ORDER;
      assert Distinct(names);
      for i := 0 to |names|
        invariant stats.Keys == old(stats).Keys
        invariant forall j :: 0 <= j < |names| && names[j] in stats ==>
          stats[names[j]] == old(stats)[names[j]] + if j < i then 1 else 0
      {
        if names[i] in stats {
          stats := stats[names[i] := stats[names[i]] + 1];
        }
      }
      forall s | s in stats ensures stats[s] == old(stats)[s] + 1 {
        assert s == names[match s
          case IQ => 0 case EQ => 1 case Strength => 2
          case TechnicalAttribute => 3 case Aptitude => 4 case ProblemSolving => 5];
      }
    }

    /** The rank step of `level_up`: at a milestone level the rank moves one
        step up the ladder, unless it is the last rank already. */
    method AdvanceRank()
      modifies this`rankIdx
      ensures rankIdx == if level in RANK_MILESTONES && old(rankIdx) + 1 < |RANKS| then old(rankIdx) + 1 else old(rankIdx)
    {
      if level in RANK_MILESTONES {
        if rankIdx + 1 < |RANKS| {
          rankIdx := rankIdx + 1;
        }
      }
    }

    /** `level_up`: while the experience reaches `level * 100`, gain a level,
        raise every stat by one and, on reaching a milestone level, advance the
        rank one step unless it is the last already. */
    method LevelUp()
      requires rankIdx < |RANKS|
      modifies this`level, this`stats, this`rankIdx
      ensures State() == LevelledUp(old(State()))
    {
      assert stats == AddToAll(old(stats), 0);
      while xp >= level * 100
        invariant old(level) <= level
        invariant level == old(level) || (level - 1) * 100 <= xp
        invariant stats == AddToAll(old(stats), level - old(level))
        invariant rankIdx == Min(old(rankIdx) + MilestonesIn(RANK_MILESTONES, old(level), level), |RANKS| - 1)
        decreases xp - level * 100
      {
        RankStep(old(rankIdx), old(level), level);
        AddToAllStep(old(stats), level - old(level));
        level := level + 1;
        GrantLevelBonus();
        AdvanceRank();
      }
      assert level == Max(old(level), xp / 100 + 1);
    }

    /** `log_xp`: today's entry of the log becomes the current experience. */
    method LogXp(today: string)
      modifies this`xpLog
      ensures xpLog == old(xpLog)[today := xp]
    {
      xpLog := xpLog[today := xp];
    }

    /** The stat loop of `complete_quest`: each named stat goes up by one. */
    method BumpStats(names: seq<Stat>)
      requires forall n :: n in names ==> n in stats
      modifies this`stats
      ensures stats == Bumped(old(stats), names)
    {
      for i := 0 to |names|
        invariant stats == Bumped(old(stats), names[..i])
      {
        assert names[..i + 1] == names[..i] + [names[i]];
        stats := stats[names[i] := stats[names[i]] + 1];
      }
      assert names[..|names|] == names;
    }

    /** `forge`: the daily list becomes the titles of the three drawn pool
        entries in the order drawn (the distinct positions `i`, `j`, `k`
        stand for what `random.sample` picks), and the main quest is set to
        the fixed one if it was unset. Nothing else changes. */
    method Forge(i: nat, j: nat, k: nat) returns (f: Forged)
      requires Valid()
      requires i < |QUEST_POOL| && j < |QUEST_POOL| && k < |QUEST_POOL|
      requires i != j && j != k && i != k
      modifies this`daily, this`mainQuest
      ensures Valid()
      ensures State() == old(State()).(
        daily := [QUEST_POOL[i].title, QUEST_POOL[j].title, QUEST_POOL[k].title],
        mainQuest := if Falsy(old(mainQuest)) then Some(MAIN_QUEST) else old(mainQuest))
      ensures |daily| == 3 && Distinct(daily) && forall t :: t in daily ==> PoolTitle(t)
      ensures mainQuest == Some(MAIN_QUEST)
      ensures f == Forged(daily, mainQuest)
    {
      PoolEntry(i);
      PoolEntry(j);
      daily := [QUEST_POOL[i].title, QUEST_POOL[j].title, QUEST_POOL[k].title];
      if Falsy(mainQuest) {
        mainQuest := Some(MAIN_QUEST);
      }
      f := Forged(daily, mainQuest);
    }

    /** `complete_quest`: look the fragment up in the pool and fail, changing
        nothing, if no title matches or the matching one is not on today's
        list; otherwise complete that quest, stamping its record with `now`
        and logging the new experience under `today`. */
    method CompleteQuest(questName: string, today: string, now: string) returns (r: Outcome)
      requires Valid()
      modifies this
      ensures Valid()
      ensures FindQuest(questName).None? ==> r == Failed(QuestNotFound) && unchanged(this)
      ensures FindQuest(questName).Some? && QUEST_POOL[FindQuest(questName).value].title !in old(daily) ==>
                r == Failed(QuestNotActive) && unchanged(this)
      ensures FindQuest(questName).Some? && QUEST_POOL[FindQuest(questName).value].title in old(daily) ==>
                var q := QUEST_POOL[FindQuest(questName).value];
                && r == Completed(q.title, q.xpReward, xp)
                && State() == Complete(old(State()), FindQuest(questName).value, today, now)
    {
      var found := FindQuest(questName);
      if found.None? {
        return Failed(QuestNotFound);
      }
      var q := QUEST_POOL[found.value];
      if q.title !in daily {
        return Failed(QuestNotActive);
      }
      Award(found.value, today, now);
      r := Completed(q.title, q.xpReward, xp);
    }

    /** The success path of `complete_quest` for pool entry `i`, which is on
        today's list: add the reward, raise the quest's stats, drop its title
        from the list, record it stamped `now`, level up and log the new
        experience under `today`. */
    method Award(i: nat, today: string, now: string)
      requires Valid()
      requires i < |QUEST_POOL| && QUEST_POOL[i].title in daily
      modifies this
      ensures Valid()
      ensures State() == Complete(old(State()), i, today, now)
    {
      var q := QUEST_POOL[i];
      ghost var before := State();
      xp := xp + q.xpReward;
      BumpStats(q.stats);
      daily := RemoveFirst(daily, q.title);
      history := history + [Record(q.title, q.xpReward, now)];
      ghost var gained := State();
      assert gained == before.(xp := before.xp + q.xpReward, stats := Bumped(before.stats, q.stats),
                               daily := RemoveFirst(before.daily, q.title),
                               history := before.history + [Record(q.title, q.xpReward, now)]);
      LevelUp();
      ghost var levelled := State();
      LogXp(today);
      assert State() == levelled.(xpLog := levelled.xpLog[today := levelled.xp]);
      CompleteSteps(before, i, today, now, gained);
      CompleteKeepsInv(before, i, today, now);
    }
  }

  /** A fresh engine after `forge` draws pool entries 0, 3 and 4. */
  method FreshForged() returns (engine: RpgState)
    ensures fresh(engine) && engine.Valid() && engine.State() == FreshDraw()
  {
    engine := new RpgState();
    var f := engine.Forge(0, 3, 4);
  }

  /** A fresh engine that forges three quests and completes "dsa": the first
      pool entry is found, its 50 experience and its two stat points are
      awarded, no level is gained, and its title leaves the daily list. */
  method DsaScenario() returns (r: Outcome, p: Profile)
    ensures r == Completed("Solve 1 DSA Problem", 50, 50)
    ensures p.level == 1 && p.xp == 50 && p.rank == 0
    ensures p.stats == map[IQ := 11, EQ := 10, Strength := 10, TechnicalAttribute := 10,
                           Aptitude := 10, ProblemSolving := 11]
    ensures p.daily == ["Drink 2L Water", "Study AI Concepts"]
    ensures p.history == [Record("Solve 1 DSA Problem", 50, "2026-01-01T08:00:00")]
    ensures p.xpLog == map["2026-01-01" := 50]
  {
    var engine := FreshForged();
    ghost var forged := engine.State();
    FindDsa();
    assert QUEST_POOL[0].title in forged.daily;
    CompleteFirstFromFresh("2026-01-01", "2026-01-01T08:00:00");
    r := engine.CompleteQuest("dsa", "2026-01-01", "2026-01-01T08:00:00");
    p := engine.GetProfile();
    assert p == Complete(forged, 0, "2026-01-01", "2026-01-01T08:00:00");
  }
}

