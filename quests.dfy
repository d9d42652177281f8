/** The quest controller: kill counting, the completion predicate, and the move along the
    quest chain (game/game.js:817-834, 906-1013). */
module Quests {
  import opened Options
  import opened Progression

  /** A quest requirement. Only `kill` requirements are checked; any other type is inert. */
  datatype Requirement = Kill(mobId: int, count: int) | Other(kind: string)

  /** A quest of the campaign: its id, requirements, optional experience reward and the
      ids it unlocks (only the first is followed). Title, description and map key are
      presentation or asset data and are not part of this model. */
  datatype Quest = Quest(id: string, requirements: seq<Requirement>, rewardExp: Option<int>, unlocks: seq<string>)

  /** The progress key `"kill:<mobId>"`, represented by the mob id it names. */
  datatype ProgressKey = KillKey(mobId: int)

  type Progress = map<ProgressKey, int>

  /** `questIndex`: quests by id. */
  type QuestIndex = map<string, Quest>

  /** `questState`: the active quest's id (None once the campaign is over), the completed
      ids and the kill counts for the active quest. The quest object itself is looked up in
      the index by id. */
  datatype QuestLog = QuestLog(active: Option<string>, completed: set<string>, progress: Progress)

  /** The active quest, when there is one, is a quest of the index. */
  predicate LogOk(index: QuestIndex, log: QuestLog)
  {
    log.active.Some? ==> log.active.value in index
  }

  /** `progress["kill:<id>"] ?? 0`. */
  function Count(progress: Progress, mobId: int): int
  {
    if KillKey(mobId) in progress then progress[KillKey(mobId)] else 0
  }

  /** How many kill requirements of `reqs` name `mobId`. */
  function Matching(reqs: seq<Requirement>, mobId: int): nat
  {
    if reqs == [] then 0
    else Matching(reqs[..|reqs| - 1], mobId) + (if reqs[|reqs| - 1].Kill? && reqs[|reqs| - 1].mobId == mobId then 1 else 0)
  }

  /** The counting loop of `onMobKilled`, over the requirements in order: every kill
      requirement naming the mob bumps that mob's count. */
  function CountKill(reqs: seq<Requirement>, progress: Progress, mobId: int): (r: Progress)
    ensures forall id :: Count(r, id) == Count(progress, id) + (if id == mobId then Matching(reqs, mobId) else 0)
    ensures r.Keys == progress.Keys + (if Matching(reqs, mobId) > 0 then {KillKey(mobId)} else {})
  {
    if reqs == [] then progress
    else
      var before := CountKill(reqs[..|reqs| - 1], progress, mobId);
      var req := reqs[|reqs| - 1];
      if req.Kill? && req.mobId == mobId then before[KillKey(mobId) := Count(before, mobId) + 1]
      else before
  }

  /** `isQuestCompleted(quest, progress)`: every kill requirement's count has reached its
      target; requirements of other types do not matter. */
  function IsQuestCompleted(reqs: seq<Requirement>, progress: Progress): (done: bool)
    ensures done <==> forall i :: 0 <= i < |reqs| && reqs[i].Kill? ==> Count(progress, reqs[i].mobId) >= reqs[i].count
  {
    if reqs == [] then true
    else if reqs[0].Kill? && Count(progress, reqs[0].mobId) < reqs[0].count then false
    else IsQuestCompleted(reqs[1..], progress)
  }

  /** The mob ids of the kill requirements, in order. */
  function KillTargets(reqs: seq<Requirement>): (ids: seq<int>)
    ensures |ids| <= |reqs|
    ensures forall i :: 0 <= i < |reqs| && reqs[i].Kill? ==> reqs[i].mobId in ids
    ensures forall id :: id in ids ==> exists i :: 0 <= i < |reqs| && reqs[i].Kill? && reqs[i].mobId == id
  {
    if reqs == [] then []
    else if reqs[0].Kill? then [reqs[0].mobId] + KillTargets(reqs[1..])
    else KillTargets(reqs[1..])
  }

  /** The species spawned first, `targets[0]`, is that of the first kill requirement. */
  lemma {:induction false} KillTargetsHead(reqs: seq<Requirement>, i: nat)
    requires i < |reqs| && reqs[i].Kill?
    requires forall j :: 0 <= j < i ==> !reqs[j].Kill?
    ensures KillTargets(reqs) != [] && KillTargets(reqs)[0] == reqs[i].mobId
    decreases i
  {
    if i > 0 {
      KillTargetsHead(reqs[1..], i - 1);
    }
  }

  /** The targets keep the requirements' order: the list of a concatenation is the
      concatenation of the lists. */
  lemma {:induction false} KillTargetsAppend(a: seq<Requirement>, b: seq<Requirement>)
    ensures KillTargets(a + b) == KillTargets(a) + KillTargets(b)
    decreases |a|
  {
    if a == [] {
      assert a + b == b;
    } else {
      KillTargetsAppend(a[1..], b);
      assert (a + b)[0] == a[0] && (a + b)[1..] == a[1..] + b;
      if a[0].Kill? {
        assert [a[0].mobId] + (KillTargets(a[1..]) + KillTargets(b)) == ([a[0].mobId] + KillTargets(a[1..])) + KillTargets(b);
      }
    }
  }

  /** `getQuestTargetMobIds()`: the species to spawn; none once the campaign is over. */
  function QuestTargetMobIds(index: QuestIndex, log: QuestLog): (ids: seq<int>)
    requires LogOk(index, log)
    ensures log.active.None? ==> ids == []
    ensures log.active.Some? ==> ids == KillTargets(index[log.active.value].requirements)
  {
    if log.active.None? then [] else KillTargets(index[log.active.value].requirements)
  }

  /** The experience `completeQuest` adds, when the quest has a numeric reward. */
  function Reward(q: Quest): int
  {
    if q.rewardExp.Some? then q.rewardExp.value else 0
  }

  /** The quest the chain moves to: the first unlock, if it is a non-empty id of the index. */
  function NextQuest(index: QuestIndex, q: Quest): (next: Option<string>)
    ensures next.Some? ==> |q.unlocks| > 0 && next.value == q.unlocks[0] && next.value in index
    ensures next.None? ==> |q.unlocks| == 0 || q.unlocks[0] == "" || q.unlocks[0] !in index
  {
    if |q.unlocks| > 0 && q.unlocks[0] != "" && q.unlocks[0] in index then Some(q.unlocks[0]) else None
  }

  /** The synchronous quest-state part of `completeQuest(q)`: the quest is marked done and
      the chain moves to its first unlock with fresh progress, or the campaign ends (and
      the progress map is then left as it was). */
  function Complete(index: QuestIndex, log: QuestLog, q: Quest): (r: QuestLog)
    ensures LogOk(index, r)
    ensures r.completed == log.completed + {q.id}
    ensures r.active == NextQuest(index, q)
    ensures r.active.Some? ==> r.progress == map[]
    ensures r.active.None? ==> r.progress == log.progress
  {
    match NextQuest(index, q)
    case Some(next) => QuestLog(Some(next), log.completed + {q.id}, map[])
    case None => QuestLog(None, log.completed + {q.id}, log.progress)
  }

  /** `onMobKilled(mobId)` on the quest log and the player's progression: with an active
      quest, the kill is counted and, if the quest is then complete, it is completed and its
      reward experience is added to `exp` directly (no level-up loop runs). */
  function NoteKill(index: QuestIndex, st: Stats, log: QuestLog, mobId: int): (r: (Stats, QuestLog))
    requires LogOk(index, log)
    ensures LogOk(index, r.1)
    ensures r.0 == st.(exp := r.0.exp)
    ensures log.completed <= r.1.completed
    ensures log.active.None? ==> r == (st, log)
  {
    if log.active.None? then (st, log)
    else
      var q := index[log.active.value];
      var p := CountKill(q.requirements, log.progress, mobId);
      if IsQuestCompleted(q.requirements, p) then
        (st.(exp := st.exp + Reward(q)), Complete(index, log.(progress := p), q))
      else (st, log.(progress := p))
  }

  /** The kill that meets the last outstanding count completes the active quest: it is
      recorded as done, its reward is banked, and the chain advances to its first unlock
      with empty progress (or ends). */
  lemma FinalKillAdvancesChain(index: QuestIndex, st: Stats, log: QuestLog, mobId: int)
    requires LogOk(index, log) && log.active.Some?
    requires var q := index[log.active.value];
      forall i :: 0 <= i < |q.requirements| && q.requirements[i].Kill? ==>
        Count(CountKill(q.requirements, log.progress, mobId), q.requirements[i].mobId) >= q.requirements[i].count
    ensures var q := index[log.active.value];
      var r := NoteKill(index, st, log, mobId);
      && q.id in r.1.completed
      && r.0.exp == st.exp + Reward(q)
      && r.1.active == NextQuest(index, q)
      && (r.1.active.Some? ==> r.1.progress == map[])
  {
  }

  /** A kill that leaves some count short only bumps the matching counts; the active quest
      and the completed set stay as they were. */
  lemma ShortKillOnlyCounts(index: QuestIndex, st: Stats, log: QuestLog, mobId: int)
    requires LogOk(index, log) && log.active.Some?
    requires var q := index[log.active.value];
      exists i :: 0 <= i < |q.requirements| && q.requirements[i].Kill? &&
        Count(CountKill(q.requirements, log.progress, mobId), q.requirements[i].mobId) < q.requirements[i].count
    ensures var r := NoteKill(index, st, log, mobId);
      && r.0 == st
      && r.1.active == log.active && r.1.completed == log.completed
      && forall id :: Count(r.1.progress, id) ==
           Count(log.progress, id) + (if id == mobId then Matching(index[log.active.value].requirements, mobId) else 0)
  {
  }
}
