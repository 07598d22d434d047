# RPG progression engine, modelled in Dafny

The engine keeps one player profile, `rpg_state` (`main.py`). The profile holds:
- a level, a rank from the ladder E, D, C, B, A, S, S+, and experience;
- six stats that start at 10;
- a daily quest list and a main quest;
- a history of completed quests and a per-day experience log.

Three operations change the profile, and a fourth reads it:
- `forge` draws three quests from a fixed pool of six as today's list. It sets the main quest if none is set.
- `complete_quest` looks a quest up by a case-insensitive title fragment. If the quest is on today's list, it:
  - awards the quest's experience and stat points;
  - removes the title from the list;
  - records the completion;
  - runs `level_up`, which gains a level per 100 experience, raises every stat by one per level, and advances the rank at levels 10, 20, 35 and 50, never past the last rank;
  - logs the new experience under today's date.
- `get_profile` returns the profile.

The model has four modules:

- `Text`: the Python built-ins the engine uses, over sequences. These are ASCII `lower()`, the substring test `in`, and `list.remove`.
- `Quests`: the constant tables, the first-match quest look-up, and the milestone count behind the rank ladder.
- `Progression`: the profile as a value.
  - `LevelledUp` is the closed form of the `level_up` loop.
  - `Complete` is the effect of completing a quest.
  - `Inv` holds of every profile reachable from the initial one: experience is the sum of the history and fixes the level, the level fixes the rank, and each stat is determined by the level and the history.
- `Engine`: class `RpgState`, whose fields the methods update in place.
  - Its `level_up` is a `while` loop with invariants.
  - Its stat loops are `for` loops.
  - `complete_quest` and `forge` are proved to maintain `Valid()`, i.e. `Inv` of the fields.
  - Each method is proved to produce exactly the state the `Progression` functions describe.

The clock and the random draw are parameters:
- `forge` takes the three pool positions that `random.sample` would pick. They must be distinct and below 6.
- `complete_quest` takes today's date string for the log and the timestamp for the history record.

The invariant shows a property of the code as written. The milestone list has four entries, so from the initial profile the rank index equals the number of milestones reached. It is therefore at most 4, which is "A". The ranks "S" and "S+", and the clamp at the end of the ladder, are never reached (`RankLadder`, `InvBounds`). The clamp still works: `LevelUpClamp` shows it for a profile that starts at "S+".

## Model

| member | source | states |
|---|---|---|
| Quests.PoolEntry | main.py:42-49 | every pool quest has a positive reward, distinct affected stats, and a title no other pool entry has |
| Quests.FirstMatch | main.py:90 | the result is the first pool position whose lower-cased title contains the lower-cased fragment, and no earlier entry matches; None exactly when no entry matches |
| Quests.FindQuestIgnoresCase | main.py:90 | the look-up gives the same answer for a fragment and its lower-cased form |
| Quests.FindDsaUpper | main.py:90 | the fragments "DSA" and "dsa" select the same entry |
| Quests.FindDsa | main.py:90 | the fragment "dsa" selects "Solve 1 DSA Problem", the first entry |
| Quests.FindJournal | main.py:90 | "journal" does not match the first entry and selects "Write Journal Reflection", the second |
| Quests.StatsOfEntry | main.py:42-49 | looking up the stats by title gives the entry's own affected stats when titles are unique |
| Quests.MilestonesCount | main.py:62 | the milestone counter equals the number of distinct milestone levels in the interval (lo, hi] |
| Quests.MilestonesSplit | main.py:57-62 | milestone counts over adjacent level intervals add up |
| Quests.MilestonesStep | main.py:58-62 | going up one level passes a milestone exactly when the new level is one of them |
| Quests.RankLadder | main.py:62-65 | from rank "E" at level 1 the rank is "D" from level 10, "C" from 20, "B" from 35 and "A" from 50, and never "S" or "S+" |
| Text.Lower | main.py:90 | `str.lower()` restricted to ASCII: the same length, no upper-case ASCII letter left, every other character kept |
| Text.LowerLetters | main.py:90 | each upper-case ASCII letter becomes the lower-case letter at the same place in the alphabet |
| Text.Contains | main.py:90 | the substring test `needle in hay`: some contiguous slice of the hay is the needle, so a needle longer than the hay is never contained |
| Text.ContainsEmpty | main.py:90 | as in Python, the empty string is contained in every string |
| Quests.Matches | main.py:90 | the generator's condition: the lower-cased title contains the lower-cased fragment; the empty fragment matches every title |
| Quests.FindQuest | main.py:90 | the look-up over the static pool: a pool position or None, and the empty fragment selects the first entry |
| Text.LowerIdempotent | main.py:90 | lower-casing twice is lower-casing once |
| Text.ContainsHead | main.py:90 | a non-empty fragment can only be contained in a title that has its first character |
| Text.FirstIndex | main.py:102 | the position found holds the element and no earlier position does |
| Text.RemoveFirst | main.py:102 | `remove` drops one element at the first occurrence of the value: earlier elements stay in place and later ones move up by one |
| Text.RemoveFirstCount | main.py:102 | `remove` takes away exactly one occurrence of the value |
| Text.DistinctCount | main.py:43-48 | in a list without repeats every element occurs exactly once |
| Text.RemoveFirstDistinct | main.py:102 | in a list without repeats, `remove` takes the value out entirely and keeps every other element and the absence of repeats |
| Progression.LevelledUp | main.py:54-65 | level_up leaves experience unchanged; the new level is the least level not below the old one whose threshold `level*100` exceeds the experience; every stat rises by the number of levels gained; the rank index does not go down or leave the ladder; nothing else changes |
| Progression.LevelledUpRank | main.py:62-65 | from a rank that matches the level, the rank index rises by the number of milestone levels passed and still matches the new level |
| Progression.LevelledUpNoop | main.py:57 | below the threshold the loop does not run and the profile is unchanged |
| Progression.LevelledUpIdempotent | main.py:57 | calling level_up again right after it changes nothing |
| Progression.AddToAllStep | main.py:60-61 | one more round of the stat bonus on top of n rounds is n+1 rounds |
| Progression.RankStep | main.py:62-65 | one round of the rank step moves the clamped milestone count exactly as the source's guarded increment does |
| Progression.AddToAll | main.py:60-61 | defines n rounds of the per-level bonus: every stat the profile holds raised by n, no key added or dropped |
| Progression.Bumped | main.py:99-100 | defines the result of the affected-stats loop: each stat raised by the number of times the quest names it |
| Progression.Initial | main.py:21-39 | defines the initial `rpg_state`: level 1, rank "E", no experience, all six stats 10, empty daily list, no main quest, empty history and log |
| Progression.SumXpAppend | main.py:98-103 | appending a history record adds its experience to the recorded total |
| Progression.RaisesAppend | main.py:99-103 | appending a history record adds that quest's stat points to the recorded count |
| Progression.Complete | main.py:98-105 | completing an active quest adds its reward to the experience; the level is the least one whose threshold exceeds the new experience, not below the old level; the rank index does not go down or leave the ladder; each of its stats gains one plus the level-up bonus, other stats only the bonus; the first occurrence of its title leaves the daily list; one record joins the end of the history; today's log entry becomes the new experience; the main quest is unchanged |
| Progression.InitialInv | main.py:21-39 | the initial profile satisfies the invariant |
| Progression.InvBounds | main.py:74-76 | in every reachable profile the level is at least 1, the experience is below the next threshold, the rank is on the ladder and not "S" or "S+", and every stat is present and at least 10 |
| Progression.CompleteKeepsInv | main.py:98-105 | completing a quest keeps the invariant; experience rises; level, rank index and every stat never go down |
| Progression.LevelUpOnce | main.py:54-61 | 100 experience at level 1 gives level 2, all six stats 11, rank still "E" |
| Progression.LevelUpTwice | main.py:54-61 | 250 experience at level 1 gives level 3, all six stats 12, rank still "E" |
| Progression.LevelUpClamp | main.py:62-65 | at the last rank, reaching milestone level 10 leaves the rank at "S+" |
| Progression.CompleteFirstFromFresh | main.py:98-105 | from a fresh profile with pool entries 0, 3 and 4 drawn, completing entry 0 gives 50 experience, level 1, rank "E", IQ and Problem Solving 11, daily list of the other two titles, one record and one log entry |
| Progression.BumpFirstFromFresh | main.py:99-100 | the first quest raises IQ and Problem Solving from 10 to 11 and no other stat |
| Engine.Falsy | main.py:83 | Python's `not Main` for the main-quest slot: true for None and for the empty title, false for any other title |
| Engine.RpgState.constructor | main.py:21-39 | the engine starts at level 1, rank "E", no experience, all six stats at 10, no quests, no history and an empty log, which satisfies the invariant |
| Engine.RpgState.GetProfile | main.py:74-76 | returns the current profile unchanged, with the bounds the invariant guarantees |
| Engine.RpgState.GrantLevelBonus | main.py:60-61 | the stat loop raises every stat the profile holds by exactly one |
| Engine.RpgState.AdvanceRank | main.py:62-65 | at a milestone level the rank index moves up by one unless it is already the last |
| Engine.RpgState.LevelUp | main.py:54-65 | the loop terminates in exactly the state LevelledUp describes |
| Engine.RpgState.LogXp | main.py:67-69 | today's log entry becomes the current experience; other dates are untouched |
| Engine.RpgState.BumpStats | main.py:99-100 | each stat rises by the number of times the quest names it |
| Engine.RpgState.Forge | main.py:79-85 | the daily list becomes the three drawn, distinct pool titles in draw order; the main quest is the fixed one, set only if it was unset; nothing else changes; the result reports both; the invariant is kept |
| Engine.RpgState.CompleteQuest | main.py:88-106 | no match gives "not found" and a not-active match gives "not active", and both leave the state untouched; otherwise the state becomes Complete of the matched entry, the result carries its title, reward and the stored experience, and the invariant is kept |
| Engine.RpgState.Award | main.py:98-105 | the success steps produce exactly the profile Complete describes and keep the invariant |
| Engine.FreshForged | main.py:79-85 | a fresh engine after drawing entries 0, 3 and 4 holds those titles and the fixed main quest |
| Engine.DsaScenario | main.py:79-106 | forging on a fresh engine and completing "dsa" reports "Solve 1 DSA Problem" with 50 experience gained and 50 in total, and leaves the profile with those stats, daily titles, history and log |

## Left out

- The `/ask` handler (main.py:111-139) is left out. It calls an external inference service over the network with a token taken from the environment.
- The web framework is left out: application setup, route decorators and the cross-origin middleware (main.py:9-18).
- `datetime.now()` is not modelled. The date string for the log and the timestamp for the history record are parameters of `CompleteQuest`.
- `random.sample` is not modelled. `Forge` takes the three drawn positions, and the requires says they are distinct and below 6. The model does not say how likely each draw is.
- Text.Lower: lower-cases ASCII letters only, while Python's `str.lower()` follows Unicode. The titles are unaffected: their one non-ASCII character, the en dash, has no case. The difference is in the fragment. Python lower-cases KELVIN SIGN (U+212A) to "k", so the fragment "\u212a" selects "Drink 2L Water" in the source, while the model reports `QuestNotFound`.
- The emoji message strings are not modelled. The outcome of `complete_quest` is the `Outcome` datatype. It carries the quest title, the reward and the current experience, or the kind of error.
- Stats are keyed by the `Stat` enumeration rather than by strings. `StatName` gives the profile's key strings, including "Technical Attribute" and "Problem Solving", which contain spaces.
- The rank is stored as an index into `RANKS`. `RankName` gives the letter. The source stores the letter and looks its index up with `RANKS.index`, which always succeeds on the states the engine reaches.
- The `ValueError` and `KeyError` paths are not modelled:
  - `RANKS.index` raises `ValueError` if the stored rank is not on the ladder.
  - A missing stat key raises `KeyError`.
  - `remove` raises `ValueError` if the title is not on the list.

  None of these is reachable, because the source checks membership before calling `remove`, and the requires of `LevelUp`, `BumpStats` and `RemoveFirst` say what the source relies on.
- Sharing of the one global profile between concurrent requests is not modelled. The model is sequential.
- `get_profile` returns the live dictionary, so a caller could mutate it. `GetProfile` returns a value.
