/*
 * Task assignment: workers, their scores for a task, and the engine that
 * hands tasks to workers. The engine pulls a worker's next task off the
 * queues, picks the best-scoring eligible worker for a task (trying them
 * highest score first), assigns a batch greedily, and ranks the tasks a
 * worker could do. Assignments go through the task management service, so
 * their outcome is whatever the service's assign command answers.
 */
module TaskAssignment {
  import opened Wrappers
  import opened JavaText
  import opened TaskStatuses
  import opened TaskTypes
  import opened Priorities
  import opened Locations
  import opened TaskLifecycle
  import opened TaskQueues
  import opened TaskManagement
  import WorkTasks
  import Ranking

  // ------------------------------------------------------------------ worker

  /** A worker as the engine sees it. Capabilities are listed in the order
    * their queues are scanned. */
  datatype Worker = Worker(
    workerId: string, warehouseId: string, currentZone: Option<string>,
    currentLocation: Option<Location>, capabilities: seq<TaskType>,
    specializations: set<TaskType>, activeTaskCount: Int32, performanceRating: real)
  {
    predicate CanPerform(t: TaskType) {
      t in capabilities
    }

    predicate HasSpecialization(t: TaskType) {
      t in specializations
    }

    /** Fewer than three active tasks. */
    predicate IsAvailable() {
      activeTaskCount < 3
    }
  }

  /** Worker.builder() with only the identifying fields set: no
    * capabilities or specializations, no active task, rating 1.0. */
  function DefaultWorker(workerId: string, warehouseId: string, currentZone: Option<string>,
                         currentLocation: Option<Location>): (w: Worker)
    ensures forall t :: !w.CanPerform(t) && !w.HasSpecialization(t)
    ensures w.IsAvailable() && w.activeTaskCount == 0 && w.performanceRating == 1.0
    ensures w.workerId == workerId && w.warehouseId == warehouseId
    ensures w.currentZone == currentZone && w.currentLocation == currentLocation
  {
    Worker(workerId, warehouseId, currentZone, currentLocation, [], {}, 0, 1.0)
  }

  /** The filters of assignTaskToBestWorker and getTaskRecommendations. */
  predicate Eligible(w: Worker, d: TaskData) {
    w.CanPerform(d.taskType) && w.warehouseId == d.warehouseId
  }

  /** distanceFrom parses bay and level only when both locations are
    * known; then both must be numeric. */
  predicate DistanceParses(w: Worker, d: TaskData) {
    d.taskLocation.Some? && w.currentLocation.Some? ==>
      NumericBayLevel(d.taskLocation.value) && NumericBayLevel(w.currentLocation.value)
  }

  /** calculateScore measures the distance only for a worker in the task's
    * zone. */
  predicate ScoreParses(w: Worker, d: TaskData) {
    d.zone.Some? && w.currentZone == d.zone ==> DistanceParses(w, d)
  }

  /** assignTaskToBestWorker scores the eligible workers of the list only. */
  predicate Scorable(d: TaskData, workers: seq<Worker>) {
    forall w | w in workers && Eligible(w, d) :: ScoreParses(w, d)
  }

  /** getTaskRecommendations scores and measures the eligible tasks only. */
  predicate Recommendable(w: Worker, tasks: seq<TaskData>) {
    forall d | d in tasks && Eligible(w, d) :: DistanceParses(w, d)
  }

  // ------------------------------------------------------------------ scores

  /** A worker's score for one task. */
  datatype WorkerScore = WorkerScore(worker: Worker, score: real)

  /** compareTo: Double.compare of the scores. */
  function CompareTo(a: WorkerScore, b: WorkerScore): (r: int)
    ensures -1 <= r <= 1
    ensures r < 0 <==> a.score < b.score
    ensures r == 0 <==> a.score == b.score
    ensures r > 0 <==> a.score > b.score
  {
    if a.score < b.score then -1 else if a.score == b.score then 0 else 1
  }

  /** compareTo is antisymmetric and ignores the workers. */
  lemma CompareToAntisymmetric(a: WorkerScore, b: WorkerScore, w: Worker)
    ensures CompareTo(a, b) == -CompareTo(b, a)
    ensures CompareTo(a, b) == CompareTo(a.(worker := w), b)
  {
  }

  /** Distance and zone (30 points for the task's zone, plus up to 20 for
    * closeness when both locations are known; 20 off for another zone). */
  function ZonePoints(w: Worker, d: TaskData): (r: real)
    requires ScoreParses(w, d)
    ensures d.zone.Some? && w.currentZone == d.zone ==> 30.0 <= r <= 50.0
    ensures !(d.zone.Some? && w.currentZone == d.zone) ==> r == -20.0
    ensures d.taskLocation.None? || w.currentLocation.None? ==> r == 30.0 || r == -20.0
  {
    if d.zone.Some? && w.currentZone == d.zone then
      if d.taskLocation.Some? && w.currentLocation.Some? then
        30.0 + MaxReal(0.0, 20.0 - Distance(d.taskLocation.value, w.currentLocation.value) as real / 10.0)
      else 30.0
    else -20.0
  }

  /** Workload: Math.max(0, 20 - activeTasks * 5) in int arithmetic. */
  function WorkloadPoints(activeTasks: Int32): (r: int)
    ensures r >= 0
    ensures 0 <= activeTasks <= 429496729 ==> r == Max(0, 20 - activeTasks * 5) && r <= 20
  {
    Max(0, Wrap32(20 - Wrap32(activeTasks * 5)))
  }

  /** calculateScore: 100, plus zone and distance points, workload points,
    * 20 for a specialist, 10 for a HIGH or more urgent task, and ten times
    * the performance rating. */
  function CalculateScore(w: Worker, d: TaskData): (r: WorkerScore)
    requires ScoreParses(w, d)
    ensures r.worker == w
  {
    var specialist := if w.HasSpecialization(d.taskType) then 20.0 else 0.0;
    var urgent := if Value(d.priority) <= 2 then 10.0 else 0.0;
    WorkerScore(w, 100.0 + ZonePoints(w, d) + WorkloadPoints(w.activeTaskCount) as real
                       + specialist + urgent + w.performanceRating * 10.0)
  }

  /** With a sane workload and a rating in [0, 1], every score lies in
    * [80, 210]. */
  lemma ScoreRange(w: Worker, d: TaskData)
    requires ScoreParses(w, d)
    requires 0 <= w.activeTaskCount <= 429496729 && 0.0 <= w.performanceRating <= 1.0
    ensures 80.0 <= CalculateScore(w, d).score <= 210.0
  {
  }

  /** Beyond 429,496,729 active tasks the int product wraps, and the
    * workload bonus can exceed its 20 points. */
  lemma WorkloadWraps()
    ensures WorkloadPoints(858993459) == 21
  {
  }

  /** Being in the task's zone is worth at least 50 points over being
    * elsewhere, all else equal. */
  lemma SameZoneAdvantage(w: Worker, d: TaskData, elsewhere: Option<string>)
    requires DistanceParses(w, d)
    requires d.zone.Some? && elsewhere != d.zone
    ensures CalculateScore(w.(currentZone := d.zone), d).score
            >= CalculateScore(w.(currentZone := elsewhere), d).score + 50.0
  {
  }

  /** A specialization in the task's type is worth exactly 20 points. */
  lemma SpecialistBonus(w: Worker, d: TaskData)
    requires ScoreParses(w, d)
    ensures (var with := w.(specializations := w.specializations + {d.taskType});
             var without := w.(specializations := w.specializations - {d.taskType});
             with.HasSpecialization(d.taskType) && !without.HasSpecialization(d.taskType)
             && CalculateScore(with, d).score == CalculateScore(without, d).score + 20.0)
  {
  }

  /** Eligibility asks for the capability and the warehouse only: the
    * engine never consults isAvailable, so a worker with three or more
    * active tasks stays eligible. */
  lemma EligibilityIgnoresAvailability(w: Worker, d: TaskData, n: Int32)
    ensures Eligible(w, d) ==> w.CanPerform(d.taskType)
    ensures Eligible(w.(activeTaskCount := n), d) == Eligible(w, d)
    ensures w.(activeTaskCount := n).IsAvailable() <==> n < 3
  {
  }

  // ----------------------------------------------------------------- results

  /** The outcome of one assignment attempt. */
  datatype AssignmentResult = AssignmentResult(
    taskId: string, success: bool, workerId: Option<string>, score: Option<real>,
    errorMessage: Option<string>)

  /** A success names the worker and score and no error; a failure is the
    * other way round. */
  predicate WellFormed(r: AssignmentResult) {
    && (r.success <==> r.workerId.Some? && r.score.Some?)
    && (r.success <==> r.errorMessage.None?)
  }

  function Success(taskId: string, workerId: string, score: real): (r: AssignmentResult)
    ensures WellFormed(r) && r.success && r.taskId == taskId
    ensures r.workerId == Some(workerId) && r.score == Some(score)
  {
    AssignmentResult(taskId, true, Some(workerId), Some(score), None)
  }

  function Failure(taskId: string, errorMessage: string): (r: AssignmentResult)
    ensures WellFormed(r) && !r.success && r.taskId == taskId
    ensures r.errorMessage == Some(errorMessage)
  {
    AssignmentResult(taskId, false, None, None, Some(errorMessage))
  }

  function NoEligibleWorker(taskId: string): (r: AssignmentResult)
    ensures WellFormed(r) && !r.success && r.taskId == taskId
    ensures r.errorMessage == Some("No eligible workers available")
  {
    Failure(taskId, "No eligible workers available")
  }

  // ---------------------------------------------------------- best worker

  /** The eligible workers, in list order. */
  function EligibleWorkers(d: TaskData, workers: seq<Worker>): (r: seq<Worker>)
    ensures forall w :: w in r <==> w in workers && Eligible(w, d)
  {
    if |workers| == 0 then []
    else
      assert forall w | w in workers[1..] :: w in workers;
      (if Eligible(workers[0], d) then [workers[0]] else []) + EligibleWorkers(d, workers[1..])
  }

  function ScoreOf(ws: WorkerScore): real {
    ws.score
  }

  /** Each listed worker's score, in list order. */
  function Scores(d: TaskData, eligible: seq<Worker>): (r: seq<WorkerScore>)
    requires forall w | w in eligible :: ScoreParses(w, d)
    ensures |r| == |eligible| && forall i | 0 <= i < |r| :: r[i] == CalculateScore(eligible[i], d)
  {
    seq(|eligible|, i requires 0 <= i < |eligible| => CalculateScore(eligible[i], d))
  }

  /** The eligible workers' scores, highest first. */
  function Ranked(d: TaskData, eligible: seq<Worker>): (r: seq<WorkerScore>)
    requires forall w | w in eligible :: ScoreParses(w, d)
  {
    Ranking.SortDesc(Scores(d, eligible), ScoreOf)
  }

  /** The position of the first ranked worker the assignment accepts. */
  function FirstAccepted(ranked: seq<WorkerScore>, accepts: string -> bool): (r: Option<nat>)
    ensures r.None? <==> forall i | 0 <= i < |ranked| :: !accepts(ranked[i].worker.workerId)
    ensures (r.Some? ==> r.value < |ranked| && accepts(ranked[r.value].worker.workerId)
                         && forall i | 0 <= i < r.value :: !accepts(ranked[i].worker.workerId))
  {
    if |ranked| == 0 then None
    else if accepts(ranked[0].worker.workerId) then Some(0)
    else match FirstAccepted(ranked[1..], accepts)
      case None => None
      case Some(i) => Some(i + 1)
  }

  /** assignTaskToBestWorker, given which worker ids the assign command
    * accepts: no eligible worker, the first accepting worker in ranking
    * order with its score, or the failure after every attempt. */
  function BestWorker(d: TaskData, workers: seq<Worker>, accepts: string -> bool): (r: AssignmentResult)
    requires Scorable(d, workers)
    ensures WellFormed(r) && r.taskId == d.taskId
  {
    var eligible := EligibleWorkers(d, workers);
    if |eligible| == 0 then NoEligibleWorker(d.taskId)
    else
      var ranked := Ranked(d, eligible);
      match FirstAccepted(ranked, accepts)
      case None => Failure(d.taskId, "All assignment attempts failed")
      case Some(i) => Success(d.taskId, ranked[i].worker.workerId, ranked[i].score)
  }

  /** The ranking scores exactly the eligible workers of the list. */
  lemma RankedMembers(d: TaskData, workers: seq<Worker>, x: WorkerScore)
    requires Scorable(d, workers)
    ensures (x in Ranked(d, EligibleWorkers(d, workers)) <==>
             exists w | w in workers && Eligible(w, d) :: x == CalculateScore(w, d))
  {
    var eligible := EligibleWorkers(d, workers);
    var scores := Scores(d, eligible);
    Ranking.SortDescMembers(scores, ScoreOf, x);
    if x in scores {
      var k :| 0 <= k < |scores| && scores[k] == x;
      assert eligible[k] in workers && Eligible(eligible[k], d);
    }
    if exists w | w in workers && Eligible(w, d) :: x == CalculateScore(w, d) {
      var w :| w in workers && Eligible(w, d) && x == CalculateScore(w, d);
      var k :| 0 <= k < |eligible| && eligible[k] == w;
      assert scores[k] == x;
    }
  }

  /** In a ranking, the first accepted entry outscores every other
    * accepted entry. */
  lemma FirstAcceptedScoresHighest(ranked: seq<WorkerScore>, accepts: string -> bool, j: nat)
    requires Ranking.NonIncreasing(ranked, ScoreOf)
    requires FirstAccepted(ranked, accepts).Some? && j < |ranked| && accepts(ranked[j].worker.workerId)
    ensures ranked[j].score <= ranked[FirstAccepted(ranked, accepts).value].score
  {
    var i := FirstAccepted(ranked, accepts).value;
    assert ScoreOf(ranked[j]) == ranked[j].score && ScoreOf(ranked[i]) == ranked[i].score;
  }

  /** The chosen worker is an eligible, accepting worker of the list, and
    * no eligible worker that would accept scores higher. */
  lemma BestWorkerIsBest(d: TaskData, workers: seq<Worker>, accepts: string -> bool)
    requires Scorable(d, workers)
    ensures (var r := BestWorker(d, workers, accepts);
      r.success ==>
        && (exists w | w in workers :: Eligible(w, d) && w.workerId == r.workerId.value
                                       && CalculateScore(w, d).score == r.score.value)
        && accepts(r.workerId.value)
        && forall w | w in workers && Eligible(w, d) && accepts(w.workerId) ::
             CalculateScore(w, d).score <= r.score.value)
  {
    var eligible := EligibleWorkers(d, workers);
    if |eligible| > 0 {
      var ranked := Ranked(d, eligible);
      var first := FirstAccepted(ranked, accepts);
      if first.Some? {
        var best := ranked[first.value];
        assert BestWorker(d, workers, accepts) == Success(d.taskId, best.worker.workerId, best.score);
        RankedMembers(d, workers, best);
        forall w | w in workers && Eligible(w, d) && accepts(w.workerId)
          ensures CalculateScore(w, d).score <= best.score
        {
          var x := CalculateScore(w, d);
          RankedMembers(d, workers, x);
          var j :| 0 <= j < |ranked| && ranked[j] == x;
          FirstAcceptedScoresHighest(ranked, accepts, j);
        }
      }
    }
  }

  /** No eligible worker is reported exactly when the list has none; any
    * other failure means every eligible worker was refused. */
  lemma BestWorkerFailures(d: TaskData, workers: seq<Worker>, accepts: string -> bool)
    requires Scorable(d, workers)
    ensures (var r := BestWorker(d, workers, accepts);
      && (r.errorMessage == Some("No eligible workers available") <==> forall w | w in workers :: !Eligible(w, d))
      && (!r.success ==> forall w | w in workers && Eligible(w, d) :: !accepts(w.workerId)))
  {
    var eligible := EligibleWorkers(d, workers);
    if |eligible| > 0 {
      assert eligible[0] in workers && Eligible(eligible[0], d);
      var ranked := Ranked(d, eligible);
      forall w | w in workers && Eligible(w, d) && FirstAccepted(ranked, accepts).None?
        ensures !accepts(w.workerId)
      {
        RankedMembers(d, workers, CalculateScore(w, d));
      }
    } else {
      forall w | w in workers ensures !Eligible(w, d) {
        assert w !in eligible;
      }
    }
  }

  // -------------------------------------------------------- recommendations

  /** One recommended task with the worker's score and walking time. */
  datatype TaskRecommendation = TaskRecommendation(
    taskId: string, taskType: TaskType, priority: Priority, zone: Option<string>,
    score: real, estimatedWalkTimeSeconds: int)
  {
    predicate IsHighScore() {
      score > 120.0
    }

    predicate IsMediumScore() {
      score > 80.0 && score <= 120.0
    }

    predicate IsLowScore() {
      score <= 80.0
    }
  }

  /** Every recommendation falls in exactly one band. */
  lemma ExactlyOneBand(r: TaskRecommendation)
    ensures r.IsHighScore() || r.IsMediumScore() || r.IsLowScore()
    ensures !(r.IsHighScore() && r.IsMediumScore())
    ensures !(r.IsHighScore() && r.IsLowScore())
    ensures !(r.IsMediumScore() && r.IsLowScore())
  {
  }

  /** A worker already in the task's zone, with a sane workload and a
    * non-negative rating, is always an excellent match (at least 130). */
  lemma InZoneRecommendationIsHigh(w: Worker, d: TaskData)
    requires DistanceParses(w, d)
    requires d.zone.Some? && w.currentZone == d.zone
    requires 0 <= w.activeTaskCount <= 429496729 && w.performanceRating >= 0.0
    ensures Recommend(w, d).score >= 130.0
    ensures Recommend(w, d).IsHighScore() && !Recommend(w, d).IsMediumScore() && !Recommend(w, d).IsLowScore()
  {
  }

  /** calculateEstimatedWalkTime: six seconds per distance unit, cast to
    * int; 0 when either location is unknown. */
  function WalkTime(w: Worker, d: TaskData): (r: int)
    requires DistanceParses(w, d)
    ensures 0 <= r <= Int32Max
    ensures d.taskLocation.None? || w.currentLocation.None? ==> r == 0
    ensures (d.taskLocation.Some? && w.currentLocation.Some?
             && Distance(d.taskLocation.value, w.currentLocation.value) * 6 <= Int32Max
             ==> r == Distance(d.taskLocation.value, w.currentLocation.value) * 6)
  {
    if d.taskLocation.None? || w.currentLocation.None? then 0
    else IntCast((Distance(d.taskLocation.value, w.currentLocation.value) * 6) as real)
  }

  /** The recommendation of one task: its identity, the worker's score for
    * it and the walk time. */
  function Recommend(w: Worker, d: TaskData): (r: TaskRecommendation)
    requires DistanceParses(w, d)
    ensures r.taskId == d.taskId && r.taskType == d.taskType && r.priority == d.priority && r.zone == d.zone
    ensures r.score == CalculateScore(w, d).score && r.estimatedWalkTimeSeconds >= 0
  {
    TaskRecommendation(d.taskId, d.taskType, d.priority, d.zone, CalculateScore(w, d).score, WalkTime(w, d))
  }

  /** The tasks a worker is eligible for, in list order. */
  function EligibleTasks(w: Worker, tasks: seq<TaskData>): (r: seq<TaskData>)
    ensures forall d :: d in r <==> d in tasks && Eligible(w, d)
  {
    if |tasks| == 0 then []
    else
      assert forall d | d in tasks[1..] :: d in tasks;
      (if Eligible(w, tasks[0]) then [tasks[0]] else []) + EligibleTasks(w, tasks[1..])
  }

  function RecommendationScore(r: TaskRecommendation): real {
    r.score
  }

  /** getTaskRecommendations: one recommendation per task the worker can do
    * in its warehouse, highest score first. */
  function GetTaskRecommendations(w: Worker, tasks: seq<TaskData>): (r: seq<TaskRecommendation>)
    requires Recommendable(w, tasks)
    ensures Ranking.NonIncreasing(r, RecommendationScore)
    ensures (var eligible := EligibleTasks(w, tasks);
             multiset(r) == multiset(seq(|eligible|, i requires 0 <= i < |eligible| => Recommend(w, eligible[i]))))
  {
    var eligible := EligibleTasks(w, tasks);
    Ranking.SortDesc(seq(|eligible|, i requires 0 <= i < |eligible| => Recommend(w, eligible[i])),
                     RecommendationScore)
  }

  /** Every recommendation is for a task the worker can do in its
    * warehouse, and every such task is recommended. */
  lemma RecommendationsCoverEligible(w: Worker, tasks: seq<TaskData>)
    requires Recommendable(w, tasks)
    ensures (forall rec | rec in GetTaskRecommendations(w, tasks) ::
               exists d | d in tasks :: Eligible(w, d) && rec == Recommend(w, d))
    ensures forall d | d in tasks && Eligible(w, d) :: Recommend(w, d) in GetTaskRecommendations(w, tasks)
  {
    var eligible := EligibleTasks(w, tasks);
    var recs := seq(|eligible|, i requires 0 <= i < |eligible| => Recommend(w, eligible[i]));
    var r := GetTaskRecommendations(w, tasks);
    forall rec | rec in r
      ensures exists d | d in tasks :: Eligible(w, d) && rec == Recommend(w, d)
    {
      Ranking.SortDescMembers(recs, RecommendationScore, rec);
      var k :| 0 <= k < |recs| && recs[k] == rec;
      assert eligible[k] in tasks;
    }
    forall d | d in tasks && Eligible(w, d)
      ensures Recommend(w, d) in r
    {
      var k :| 0 <= k < |eligible| && eligible[k] == d;
      assert recs[k] == Recommend(w, d);
      Ranking.SortDescMembers(recs, RecommendationScore, Recommend(w, d));
    }
  }

  // ---------------------------------------------------------------- batches

  /** The ids of the workers that won an assignment. */
  function Winners(results: seq<AssignmentResult>): (ids: set<string>)
    ensures forall i | 0 <= i < |results| && results[i].success && results[i].workerId.Some? ::
              results[i].workerId.value in ids
  {
    set i | 0 <= i < |results| && results[i].success && results[i].workerId.Some? :: results[i].workerId.value
  }

  lemma WinnersAppend(results: seq<AssignmentResult>, r: AssignmentResult)
    ensures (Winners(results + [r]) ==
               Winners(results) + if r.success && r.workerId.Some? then {r.workerId.value} else {})
  {
    var all := results + [r];
    forall id | id in Winners(all)
      ensures id in Winners(results) + if r.success && r.workerId.Some? then {r.workerId.value} else {}
    {
      var i :| 0 <= i < |all| && all[i].success && all[i].workerId.Some? && all[i].workerId.value == id;
      if i < |results| {
        assert results[i] == all[i];
      }
    }
    forall id | id in Winners(results)
      ensures id in Winners(all)
    {
      var i :| 0 <= i < |results| && results[i].success && results[i].workerId.Some? && results[i].workerId.value == id;
      assert all[i] == results[i];
    }
    if r.success && r.workerId.Some? {
      assert all[|results|] == r;
    }
  }

  /** removeIf on the worker list: drops every worker whose id is in `ids`. */
  function Retain(workers: seq<Worker>, ids: set<string>): (r: seq<Worker>)
    ensures forall w :: w in r <==> w in workers && w.workerId !in ids
  {
    if |workers| == 0 then []
    else
      assert forall w | w in workers[1..] :: w in workers;
      (if workers[0].workerId in ids then [] else [workers[0]]) + Retain(workers[1..], ids)
  }

  /** Dropping in two rounds is dropping once. */
  lemma {:induction false} RetainTwice(workers: seq<Worker>, a: set<string>, b: set<string>)
    ensures Retain(Retain(workers, a), b) == Retain(workers, a + b)
  {
    if |workers| > 0 {
      RetainTwice(workers[1..], a, b);
      var rest := Retain(workers[1..], a);
      if workers[0].workerId !in a {
        assert Retain(workers, a) == [workers[0]] + rest;
        assert ([workers[0]] + rest)[1..] == rest;
      } else {
        assert Retain(workers, a) == rest;
        assert Retain(workers, a + b) == Retain(workers[1..], a + b);
      }
    }
  }

  /** Dropping no id keeps the list. */
  lemma {:induction false} RetainNothing(workers: seq<Worker>)
    ensures Retain(workers, {}) == workers
  {
    if |workers| > 0 {
      RetainNothing(workers[1..]);
      assert workers == [workers[0]] + workers[1..];
    }
  }

  /** What batchAssign has established after handling the first
    * |results| tasks, starting from the worker list `original`. */
  ghost predicate BatchDone(tasks: seq<TaskData>, original: seq<Worker>, results: seq<AssignmentResult>,
                            items: seq<Worker>)
  {
    && |results| <= |tasks|
    && (forall i | 0 <= i < |results| :: results[i].taskId == tasks[i].taskId && WellFormed(results[i]))
    && items == Retain(original, Winners(results))
    && (forall i, j | 0 <= i < j < |results| && results[i].success && results[j].success ::
          results[i].workerId != results[j].workerId)
    && (forall i | 0 <= i < |results| && results[i].success ::
          results[i].workerId.Some? && exists w | w in original :: w.workerId == results[i].workerId.value)
  }

  /** One round of batchAssign: a winner taken from the remaining workers is
    * new among the winners, and dropping it keeps the list in step. */
  lemma BatchStep(tasks: seq<TaskData>, original: seq<Worker>, results: seq<AssignmentResult>,
                  items: seq<Worker>, result: AssignmentResult)
    requires BatchDone(tasks, original, results, items) && |results| < |tasks|
    requires result.taskId == tasks[|results|].taskId && WellFormed(result)
    requires result.success ==> exists w | w in items :: w.workerId == result.workerId.value
    ensures BatchDone(tasks, original, results + [result],
                      if result.success then Retain(items, {result.workerId.value}) else items)
  {
    var all := results + [result];
    WinnersAppend(results, result);
    if result.success {
      var id := result.workerId.value;
      var w :| w in items && w.workerId == id;
      assert id !in Winners(results);
      RetainTwice(original, Winners(results), {id});
      assert Winners(all) == Winners(results) + {id};
      assert Retain(items, {id}) == Retain(original, Winners(all));
      forall i | 0 <= i < |results| && results[i].success
        ensures results[i].workerId != result.workerId
      {
        assert results[i].workerId.value in Winners(results);
      }
      forall i, j | 0 <= i < j < |all| && all[i].success && all[j].success
        ensures all[i].workerId != all[j].workerId
      {
        if j < |results| {
          assert all[i] == results[i] && all[j] == results[j];
        } else {
          assert all[i] == results[i] && all[j] == result;
        }
      }
    } else {
      assert Winners(all) == Winners(results);
      forall i, j | 0 <= i < j < |all| && all[i].success && all[j].success
        ensures all[i].workerId != all[j].workerId
      {
        assert all[i] == results[i] && all[j] == results[j];
      }
    }
    forall i | 0 <= i < |all| && all[i].success
      ensures all[i].workerId.Some? && exists w | w in original :: w.workerId == all[i].workerId.value
    {
      if i == |results| {
        var w :| w in items && w.workerId == result.workerId.value;
        assert w in original;
      } else {
        assert all[i] == results[i];
      }
    }
  }

  /** A caller-owned list of workers that batchAssign shrinks in place. */
  class WorkerList {
    var items: seq<Worker>

    constructor (items: seq<Worker>)
      ensures this.items == items
    {
      this.items := items;
    }

    /** removeIf(w -> w.workerId().equals(workerId)). */
    method RemoveWorker(workerId: string)
      modifies this
      ensures items == Retain(old(items), {workerId})
    {
      items := Retain(items, {workerId});
    }
  }

  // ------------------------------------------------------------------ engine

  /** What getNextTaskForWorker does once it has taken `taskId` off a
    * queue: assign it to the worker; if that is refused, put the task back
    * in its queue if it is stored. */
  datatype Handout = Handout(task: Option<Step>, next: Sys)

  function AfterDequeue(s: Sys, w: Worker, taskId: string, now: int): (r: Handout)
    ensures (var a := Command(s, taskId, AssignOp(Some(w.workerId)), now);
      && (r.task.Some? <==> a.result.Ok?)
      && (r.task.Some? ==> r.task.value == a.result.value && r.next == a.next)
      && (r.task.None? ==> r.next.repository == s.repository)
      && (r.task.None? && taskId !in s.repository ==> r.next == s))
  {
    var a := Command(s, taskId, AssignOp(Some(w.workerId)), now);
    if a.result.Ok? then Handout(Some(a.result.value), a.next)
    else if taskId in s.repository then
      var d := s.repository[taskId];
      Handout(None, Sys(s.repository, Upsert(s.store, QueueKeyOf(d), d.taskId, PriorityScore(d, now))))
    else Handout(None, s)
  }

  lemma WithoutTwice(store: Store, key: string, id: string)
    ensures Without(Without(store, key, id), key, id) == Without(store, key, id)
  {
    var once := Without(store, key, id);
    if key in once {
      assert once[key] == Entries(store, key) - {id};
      assert once[key] - {id} == once[key];
    } else {
      assert Entries(once, key) - {id} == map[];
    }
  }

  /** In a consistent system every task taken off a queue is assigned to
    * the worker who asked, and the system stays consistent. */
  lemma ConsistentServesDequeued(s: Sys, key: string, taskId: string, w: Worker, now: int)
    requires Consistent(s) && taskId in Entries(s.store, key)
    ensures (var p := AfterDequeue(Sys(s.repository, Without(s.store, key, taskId)), w, taskId, now);
      && p.task.Some? && p.task.value.next.status == Assigned
      && p.task.value.next.assignedTo == Some(w.workerId)
      && Consistent(p.next))
  {
    var d := s.repository[taskId];
    var taken := Sys(s.repository, Without(s.store, key, taskId));
    var a := Command(taken, taskId, AssignOp(Some(w.workerId)), now);
    assert a.result.Ok?;
    WithoutTwice(s.store, key, taskId);
    ApplyPreservesInv(d, AssignOp(Some(w.workerId)), now);
    SaveDequeued(s, a.result.value.next);
  }

  /** getNextTaskForWorker's effect, from the state before to the state
    * after: when every eligible queue is empty nothing was taken and nothing
    * changes; otherwise a lowest-scored task of the first non-empty queue
    * was taken off it and handed out as AfterDequeue says. */
  ghost predicate Served(before: Sys, after: Sys, w: Worker, now: int, taken: Option<string>, answer: Option<Step>) {
    var keys := EligibleKeys(w.warehouseId, w.currentZone, w.capabilities);
    var first := FirstNonEmpty(before.store, keys);
    && (taken.None? <==> first.None?)
    && (taken.None? ==> answer.None? && after == before)
    && (taken.Some? ==>
          var key := keys[first.value];
          var p := AfterDequeue(Sys(before.repository, Without(before.store, key, taken.value)), w, taken.value, now);
          && IsLowest(Entries(before.store, key), taken.value)
          && after == p.next && answer == p.task)
  }

  /** The task and events a returned aggregate holds. */
  function Delivered(r: Option<WorkTasks.WorkTask>): Option<Step>
    reads if r.Some? then {r.value} else {}
  {
    if r.Some? then Some(Step(r.value.Data(), r.value.domainEvents)) else None
  }

  class TaskAssignmentEngine {
    /** The service assignments go through; its queue manager is the one
      * the engine dequeues from. */
    const taskService: TaskManagementService

    constructor (taskService: TaskManagementService)
      ensures this.taskService == taskService
    {
      this.taskService := taskService;
    }

    /** getNextTaskForWorker: takes the lowest-scored task of the worker's
      * first non-empty eligible queue and assigns it to the worker; nothing
      * happens when every eligible queue is empty. `taken` names the task
      * taken off the queue. */
    method GetNextTaskForWorker(w: Worker, now: int) returns (r: Option<WorkTasks.WorkTask>, ghost taken: Option<string>)
      modifies taskService, taskService.queueManager
      ensures Served(old(taskService.State()), taskService.State(), w, now, taken, Delivered(r))
      ensures r.Some? ==> fresh(r.value)
    {
      ghost var before := taskService.State();
      ghost var keys := EligibleKeys(w.warehouseId, w.currentZone, w.capabilities);
      var queues := taskService.queueManager;
      var id := queues.Dequeue(w.workerId, w.warehouseId, w.currentZone, w.capabilities);
      taken := id;
      if id.None? {
        return None, taken;
      }
      ghost var key := keys[FirstNonEmpty(before.store, keys).value];
      ghost var dequeued := Sys(before.repository, Without(before.store, key, id.value));
      assert taskService.State() == dequeued;
      ghost var p := AfterDequeue(dequeued, w, id.value, now);
      var attempt := taskService.AssignTask(id.value, Some(w.workerId), now);
      if attempt.Ok? {
        assert p.task == Some(Step(attempt.value.Data(), attempt.value.domainEvents));
        return Some(attempt.value), taken;
      }
      assert taskService.State() == dequeued && p.task.None?;
      var found := taskService.FindTaskById(id.value);
      if found.Ok? {
        var d := found.value.Data();
        queues.Enqueue(d, now);
        assert taskService.State() == Sys(dequeued.repository, Upsert(dequeued.store, QueueKeyOf(d), d.taskId, PriorityScore(d, now)));
      }
      assert taskService.State() == p.next;
      r := None;
    }

    /** assignTaskToBestWorker: tries the eligible workers highest score
      * first and stops at the first assignment the service accepts. */
    method AssignTaskToBestWorker(d: TaskData, workers: seq<Worker>, now: int) returns (r: AssignmentResult)
      requires Scorable(d, workers)
      modifies taskService, taskService.queueManager
      ensures r == BestWorker(d, workers, Accepts(old(taskService.State()), d.taskId, now))
      ensures (taskService.State() ==
                 if r.success then Command(old(taskService.State()), d.taskId, AssignOp(r.workerId), now).next
                 else old(taskService.State()))
    {
      ghost var before := taskService.State();
      ghost var accepts := Accepts(before, d.taskId, now);
      var eligible := EligibleWorkers(d, workers);
      if |eligible| == 0 {
        return NoEligibleWorker(d.taskId);
      }
      var ranked := Ranked(d, eligible);
      var i := 0;
      while i < |ranked|
        invariant 0 <= i <= |ranked|
        invariant taskService.State() == before
        invariant forall j | 0 <= j < i :: !accepts(ranked[j].worker.workerId)
      {
        var id := ranked[i].worker.workerId;
        ghost var reply := Command(before, d.taskId, AssignOp(Some(id)), now);
        var attempt := taskService.AssignTask(d.taskId, Some(id), now);
        assert attempt.Ok? <==> reply.result.Ok?;
        assert taskService.State() == reply.next;
        if attempt.Ok? {
          assert accepts(id);
          assert FirstAccepted(ranked, accepts) == Some(i);
          return Success(d.taskId, id, ranked[i].score);
        }
        assert !accepts(id);
        i := i + 1;
      }
      assert FirstAccepted(ranked, accepts).None?;
      r := Failure(d.taskId, "All assignment attempts failed");
    }

    /** batchAssign: each task in turn gets assignTaskToBestWorker's result
      * on the workers left by the earlier winners, and each winner leaves the
      * caller's list; results, list and service end as BatchRun says. */
    method BatchAssign(tasks: seq<TaskData>, workers: WorkerList, now: int) returns (results: seq<AssignmentResult>)
      requires BatchOk(taskService.State(), tasks, workers.items, now)
      modifies workers, taskService, taskService.queueManager
      ensures (var b := BatchRun(old(taskService.State()), tasks, old(workers.items), now);
        results == b.results && workers.items == b.pool && taskService.State() == b.state)
      ensures |results| == |tasks|
      ensures forall i | 0 <= i < |results| :: results[i].taskId == tasks[i].taskId && WellFormed(results[i])
      ensures workers.items == Retain(old(workers.items), Winners(results))
      ensures (forall i, j | 0 <= i < j < |results| && results[i].success && results[j].success ::
                 results[i].workerId != results[j].workerId)
      ensures (forall i | 0 <= i < |results| && results[i].success ::
                 results[i].workerId.Some? && exists w | w in old(workers.items) :: w.workerId == results[i].workerId.value)
    {
      ghost var s0 := taskService.State();
      ghost var pool0 := workers.items;
      results := [];
      for k := 0 to |tasks|
        invariant BatchOk(s0, tasks[..k], pool0, now)
        invariant (var b := BatchRun(s0, tasks[..k], pool0, now);
          results == b.results && workers.items == b.pool && taskService.State() == b.state)
        invariant forall w | w in workers.items :: w in pool0
      {
        assert tasks[..k + 1][..k] == tasks[..k] && tasks[..k + 1][k] == tasks[k];
        BatchOkPrefix(s0, tasks, pool0, now, k + 1);
        BatchRunLast(s0, tasks[..k + 1], pool0, now);
        var result := AssignTaskToBestWorker(tasks[k], workers.items, now);
        results := results + [result];
        if result.success {
          workers.RemoveWorker(result.workerId.value);
        }
      }
      assert tasks[..|tasks|] == tasks;
      BatchRunKeepsPoolInStep(s0, tasks, pool0, now);
    }
  }

  /** Whether the service's assign command would accept each worker id. */
  function Accepts(s: Sys, taskId: string, now: int): string -> bool {
    w => Command(s, taskId, AssignOp(Some(w)), now).result.Ok?
  }

  /** The state batchAssign has reached: the results so far, the workers
    * still available and the service state. */
  datatype Batched = Batched(results: seq<AssignmentResult>, pool: seq<Worker>, state: Sys)

  /** batchAssign scores each task against the eligible workers of the pool
    * the earlier tasks left, so a worker that has already won is never
    * measured against a later task. */
  predicate BatchOk(s: Sys, tasks: seq<TaskData>, pool: seq<Worker>, now: int)
    decreases |tasks|, 0
  {
    |tasks| == 0 ||
    (var n := |tasks| - 1;
     BatchOk(s, tasks[..n], pool, now) && Scorable(tasks[n], BatchRun(s, tasks[..n], pool, now).pool))
  }

  /** A prefix of a batch batchAssign can score can be scored too. */
  lemma {:induction false} BatchOkPrefix(s: Sys, tasks: seq<TaskData>, pool: seq<Worker>, now: int, k: nat)
    requires BatchOk(s, tasks, pool, now) && k <= |tasks|
    ensures BatchOk(s, tasks[..k], pool, now)
    decreases |tasks|
  {
    if k < |tasks| {
      var n := |tasks| - 1;
      assert tasks[..n][..k] == tasks[..k];
      BatchOkPrefix(s, tasks[..n], pool, now, k);
    } else {
      assert tasks[..k] == tasks;
    }
  }

  /** batchAssign over `tasks`: the last task gets BestWorker on the pool the
    * earlier tasks left, judged by what the service then accepts; a winner
    * leaves the pool and its assign command moves the service on. */
  function BatchRun(s: Sys, tasks: seq<TaskData>, pool: seq<Worker>, now: int): (b: Batched)
    requires BatchOk(s, tasks, pool, now)
    ensures |b.results| == |tasks|
    ensures forall w | w in b.pool :: w in pool
    decreases |tasks|, 1
  {
    if |tasks| == 0 then Batched([], pool, s)
    else
      var n := |tasks| - 1;
      var prior := BatchRun(s, tasks[..n], pool, now);
      var d := tasks[n];
      var r := BestWorker(d, prior.pool, Accepts(prior.state, d.taskId, now));
      if r.success then
        Batched(prior.results + [r], Retain(prior.pool, {r.workerId.value}),
                Command(prior.state, d.taskId, AssignOp(r.workerId), now).next)
      else Batched(prior.results + [r], prior.pool, prior.state)
  }

  /** The last round of a batch: its task is scored on the pool the earlier
    * rounds left, and its result and winner extend theirs. */
  lemma BatchRunLast(s: Sys, tasks: seq<TaskData>, pool: seq<Worker>, now: int)
    requires BatchOk(s, tasks, pool, now) && |tasks| > 0
    ensures BatchOk(s, tasks[..|tasks| - 1], pool, now)
    ensures (var n := |tasks| - 1; var prior := BatchRun(s, tasks[..n], pool, now);
             var d := tasks[n];
             Scorable(d, prior.pool) &&
             var r := BestWorker(d, prior.pool, Accepts(prior.state, d.taskId, now));
             var b := BatchRun(s, tasks, pool, now);
             b.results == prior.results + [r] &&
             b.pool == (if r.success then Retain(prior.pool, {r.workerId.value}) else prior.pool) &&
             b.state == if r.success then Command(prior.state, d.taskId, AssignOp(r.workerId), now).next
                        else prior.state)
  {
  }

  /** Every batch answers each task in order with a well-formed result, never
    * lets a worker win twice, only lets workers of the pool win, and leaves
    * exactly the workers that won nothing. */
  lemma {:induction false} BatchRunKeepsPoolInStep(s: Sys, tasks: seq<TaskData>, pool: seq<Worker>, now: int)
    requires BatchOk(s, tasks, pool, now)
    ensures (var b := BatchRun(s, tasks, pool, now); BatchDone(tasks, pool, b.results, b.pool))
    decreases |tasks|
  {
    if |tasks| == 0 {
      RetainNothing(pool);
      assert Winners([]) == {};
    } else {
      var n := |tasks| - 1;
      var front := tasks[..n];
      BatchRunLast(s, tasks, pool, now);
      BatchRunKeepsPoolInStep(s, front, pool, now);
      var prior := BatchRun(s, front, pool, now);
      assert forall i | 0 <= i < n :: front[i] == tasks[i];
      assert BatchDone(tasks, pool, prior.results, prior.pool);
      var d := tasks[n];
      var accepts := Accepts(prior.state, d.taskId, now);
      var r := BestWorker(d, prior.pool, accepts);
      BestWorkerIsBest(d, prior.pool, accepts);
      BatchStep(tasks, pool, prior.results, prior.pool, r);
      var b := BatchRun(s, tasks, pool, now);
      assert b.results == prior.results + [r];
      assert b.pool == if r.success then Retain(prior.pool, {r.workerId.value}) else prior.pool;
    }
  }
}
