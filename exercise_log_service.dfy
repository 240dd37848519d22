/** Exercise logs (src/services/exerciseLogService.ts): the upsert keyed on
    user, movement and day, the per-movement statistics fold of
    `fetchMovementStats` and the chart points of `fetchMovementChartData`.
    Weights and averages are exact reals; timestamps are integers ordered as
    the instants they denote. */
module ExerciseLogService {
  import opened Common
  import opened Strings
  import opened DayNumbers

  // ---------------------------------------------------------------------
  // createExerciseLog

  /** The conflict target of the upsert: `user_id,movement_id,log_date`. */
  datatype LogKey = LogKey(userId: Id, movementId: Id, logDate: Day)

  datatype ExerciseLogRow = ExerciseLogRow(
    id: Id, key: LogKey, scheduleInstanceId: Option<Id>, setsCompleted: int,
    repsCompleted: Option<string>, weightKg: Option<real>, durationSeconds: Option<int>,
    note: Option<string>, difficultyRating: Option<int>, loggedAt: int)

  /** `CreateExerciseLogPayload`; `None` is a field that is null or left out. */
  datatype LogPayload = LogPayload(
    movementId: Id, scheduleInstanceId: Option<Id>, setsCompleted: int,
    repsCompleted: Option<string>, weightKg: Option<real>, durationSeconds: Option<int>,
    note: Option<string>, difficultyRating: Option<int>)

  /** The `exercise_logs` table, one row per conflict key. */
  class ExerciseLogTable {
    var logs: map<LogKey, ExerciseLogRow>
    /** The next id the backend hands out. */
    var nextId: nat

    ghost predicate Valid()
      reads this
    {
      forall k :: k in logs ==> logs[k].key == k && logs[k].id < nextId
    }

    constructor ()
      ensures Valid() && logs == map[]
    {
      logs, nextId := map[], 0;
    }

    /** `createExerciseLog` on day `today` at instant `now`: a log for a key that
        is already stored replaces its fields and keeps its id; a new key gets
        a new row. Every other key keeps its row. `upsertError` is the error
        the backend reports for the upsert. */
    method CreateExerciseLog(me: Option<Id>, p: LogPayload, today: Day, now: int, upsertError: Option<string>)
      returns (r: Result<ExerciseLogRow, string>)
      requires Valid()
      modifies this
      ensures Valid()
      ensures me.None? ==> r == Err("Kullanıcı oturum açmamış") && logs == old(logs)
      ensures me.Some? && upsertError.Some? ==> r == Err(upsertError.value) && logs == old(logs)
      ensures me.Some? && upsertError.None? ==> (
        var key := LogKey(me.value, p.movementId, today);
        r.Ok? &&
        r.value == ExerciseLogRow(r.value.id, key, p.scheduleInstanceId, p.setsCompleted, p.repsCompleted,
                                  p.weightKg, p.durationSeconds, p.note, p.difficultyRating, now) &&
        (key in old(logs) ==> r.value.id == old(logs)[key].id) &&
        (key !in old(logs) ==> r.value.id == old(nextId)) &&
        logs == old(logs)[key := r.value])
    {
      if me.None? {
        return Err("Kullanıcı oturum açmamış");
      }
      if upsertError.Some? {
        return Err(upsertError.value);
      }
      var key := LogKey(me.value, p.movementId, today);
      var id: Id;
      if key in logs {
        id := logs[key].id;
      } else {
        id := nextId;
        nextId := nextId + 1;
      }
      var row := ExerciseLogRow(id, key, p.scheduleInstanceId, p.setsCompleted, p.repsCompleted,
                                p.weightKg, p.durationSeconds, p.note, p.difficultyRating, now);
      logs := logs[key := row];
      r := Ok(row);
    }
  }

  // ---------------------------------------------------------------------
  // fetchMovementStats: the specification

  /** A row of the stats query, newest first; `movementName`/`movementImage`
      are the embedded movement's (`None`: missing). */
  datatype StatLog = StatLog(
    movementId: Id, setsCompleted: int, weightKg: Option<real>, loggedAt: int,
    movementName: Option<string>, movementImage: Option<string>)

  datatype MovementStats = MovementStats(
    movementId: Id, movementName: string, movementImage: Option<string>,
    totalSessions: nat, lastWeightKg: Option<real>, maxWeightKg: Option<real>,
    avgSets: real, lastLoggedAt: int)

  /** JavaScript truthiness of a nullable number. */
  predicate Truthy(w: Option<real>)
  {
    w.Some? && w.value != 0.0
  }

  /** The movements of the logs, each once, in order of first appearance. */
  function Movements(logs: seq<StatLog>): (r: seq<Id>)
    ensures forall m :: m in r <==> exists i :: 0 <= i < |logs| && logs[i].movementId == m
    ensures forall i, j :: 0 <= i < j < |r| ==> r[i] != r[j]
    decreases |logs|
  {
    if logs == [] then []
    else
      var n := |logs| - 1;
      var prefix := Movements(logs[..n]);
      assert forall i :: 0 <= i < n ==> logs[..n][i] == logs[i];
      if logs[n].movementId in prefix then prefix else prefix + [logs[n].movementId]
  }

  /** The number of logs of `m`. */
  function Count(logs: seq<StatLog>, m: Id): (c: nat)
    ensures c <= |logs|
    ensures c == 0 <==> forall i :: 0 <= i < |logs| ==> logs[i].movementId != m
    decreases |logs|
  {
    if logs == [] then 0
    else
      var n := |logs| - 1;
      assert forall i :: 0 <= i < n ==> logs[..n][i] == logs[i];
      Count(logs[..n], m) + (if logs[n].movementId == m then 1 else 0)
  }

  /** The sum of `sets_completed` over the logs of `m`. */
  function SumSets(logs: seq<StatLog>, m: Id): int
    decreases |logs|
  {
    if logs == [] then 0
    else
      var n := |logs| - 1;
      SumSets(logs[..n], m) + (if logs[n].movementId == m then logs[n].setsCompleted else 0)
  }

  /** The position of the first log of `m`. */
  function FirstOf(logs: seq<StatLog>, m: Id): (r: Option<nat>)
    ensures r.None? <==> forall i :: 0 <= i < |logs| ==> logs[i].movementId != m
    ensures r.Some? ==> (
      r.value < |logs| && logs[r.value].movementId == m &&
      forall i :: 0 <= i < r.value ==> logs[i].movementId != m)
    decreases |logs|
  {
    if logs == [] then None
    else
      var n := |logs| - 1;
      var earlier := FirstOf(logs[..n], m);
      assert forall i :: 0 <= i < n ==> logs[..n][i] == logs[i];
      if earlier.Some? then earlier
      else if logs[n].movementId == m then Some(n)
      else None
  }

  /** The largest non-zero weight logged for `m`, if any. */
  function MaxNonZero(logs: seq<StatLog>, m: Id): (r: Option<real>)
    ensures r.None? <==> forall i :: 0 <= i < |logs| && logs[i].movementId == m ==> !Truthy(logs[i].weightKg)
    ensures r.Some? ==> (
      r.value != 0.0 &&
      (exists i :: 0 <= i < |logs| && logs[i].movementId == m && logs[i].weightKg == r) &&
      (forall i :: 0 <= i < |logs| && logs[i].movementId == m && Truthy(logs[i].weightKg) ==>
         logs[i].weightKg.value <= r.value))
    decreases |logs|
  {
    if logs == [] then None
    else
      var n := |logs| - 1;
      var earlier := MaxNonZero(logs[..n], m);
      assert forall i :: 0 <= i < n ==> logs[..n][i] == logs[i];
      var w := logs[n].weightKg;
      if logs[n].movementId == m && Truthy(w) && (earlier.None? || w.value > earlier.value) then w
      else earlier
  }

  /** `max_weight_kg`: the largest non-zero weight, or the first log's weight
      when no weight is non-zero. */
  function MaxWeight(logs: seq<StatLog>, m: Id): Option<real>
    requires FirstOf(logs, m).Some?
  {
    var nz := MaxNonZero(logs, m);
    if nz.Some? then nz else logs[FirstOf(logs, m).value].weightKg
  }

  /** The statistics of a movement that has logs: the first (newest) log gives
      the name, image, last weight and last instant; `avgSets` is the mean. */
  function StatsOf(logs: seq<StatLog>, m: Id): (s: MovementStats)
    requires FirstOf(logs, m).Some?
    ensures s.movementId == m && s.totalSessions == Count(logs, m) >= 1
  {
    var first := logs[FirstOf(logs, m).value];
    var c := Count(logs, m);
    MovementStats(m, first.movementName.GetOr("Bilinmeyen Hareket"), first.movementImage,
                  c, first.weightKg, MaxWeight(logs, m), MeanSets(logs, m), first.loggedAt)
  }

  /** The mean of `sets_completed` over the logs of `m`. */
  function MeanSets(logs: seq<StatLog>, m: Id): real
    requires Count(logs, m) >= 1
  {
    SumSets(logs, m) as real / Count(logs, m) as real
  }

  lemma InMovements(logs: seq<StatLog>, m: Id)
    requires m in Movements(logs)
    ensures FirstOf(logs, m).Some?
  {
    var i :| 0 <= i < |logs| && logs[i].movementId == m;
  }

  /** The statistics of every movement, in order of first appearance. */
  function AllStats(logs: seq<StatLog>): (r: seq<MovementStats>)
    ensures |r| == |Movements(logs)|
    ensures forall k :: 0 <= k < |r| ==>
      FirstOf(logs, Movements(logs)[k]).Some? && r[k] == StatsOf(logs, Movements(logs)[k])
  {
    var ms := Movements(logs);
    assert forall k :: 0 <= k < |ms| ==> FirstOf(logs, ms[k]).Some? by {
      forall k | 0 <= k < |ms| ensures FirstOf(logs, ms[k]).Some? {
        InMovements(logs, ms[k]);
      }
    }
    seq(|ms|, k requires 0 <= k < |ms| => StatsOf(logs, ms[k]))
  }

  // ---------------------------------------------------------------------
  // Sorting by last_logged_at, newest first (a stable sort)

  predicate SortedByRecent(xs: seq<MovementStats>)
  {
    forall i, j :: 0 <= i < j < |xs| ==> xs[i].lastLoggedAt >= xs[j].lastLoggedAt
  }

  function Insert(x: MovementStats, ys: seq<MovementStats>): (r: seq<MovementStats>)
    ensures multiset(r) == multiset(ys) + multiset{x}
    ensures |r| == |ys| + 1
    ensures forall k :: 0 <= k < |r| ==> r[k] == x || r[k] in ys
  {
    if ys == [] || x.lastLoggedAt >= ys[0].lastLoggedAt then [x] + ys
    else
      assert ys == [ys[0]] + ys[1..];
      [ys[0]] + Insert(x, ys[1..])
  }

  /** `sort((a, b) => b.last_logged_at - a.last_logged_at)`: a stable insertion sort. */
  function SortByRecent(xs: seq<MovementStats>): (r: seq<MovementStats>)
    ensures multiset(r) == multiset(xs)
    ensures |r| == |xs|
  {
    if xs == [] then []
    else
      assert xs == [xs[0]] + xs[1..];
      Insert(xs[0], SortByRecent(xs[1..]))
  }

  lemma {:induction false} InsertSorted(x: MovementStats, ys: seq<MovementStats>)
    requires SortedByRecent(ys)
    ensures SortedByRecent(Insert(x, ys))
  {
    if ys != [] && x.lastLoggedAt < ys[0].lastLoggedAt {
      assert SortedByRecent(ys[1..]) by {
        forall i, j | 0 <= i < j < |ys[1..]| ensures ys[1..][i].lastLoggedAt >= ys[1..][j].lastLoggedAt {
          assert ys[1..][i] == ys[i + 1] && ys[1..][j] == ys[j + 1];
        }
      }
      InsertSorted(x, ys[1..]);
      var rest := Insert(x, ys[1..]);
      forall k | 0 <= k < |rest| ensures ys[0].lastLoggedAt >= rest[k].lastLoggedAt {
        if rest[k] != x {
          var j :| 0 <= j < |ys[1..]| && ys[1..][j] == rest[k];
          assert ys[j + 1] == rest[k];
        }
      }
    }
  }

  /** The sort yields a newest-first list (and, by its contract, a permutation). */
  lemma {:induction false} SortIsSorted(xs: seq<MovementStats>)
    ensures SortedByRecent(SortByRecent(xs))
  {
    if xs != [] {
      SortIsSorted(xs[1..]);
      InsertSorted(xs[0], SortByRecent(xs[1..]));
    }
  }

  /** A list already newest first is left as it is (the sort is stable). */
  lemma {:induction false} SortOfSorted(xs: seq<MovementStats>)
    requires SortedByRecent(xs)
    ensures SortByRecent(xs) == xs
  {
    if xs != [] {
      assert SortedByRecent(xs[1..]) by {
        forall i, j | 0 <= i < j < |xs[1..]| ensures xs[1..][i].lastLoggedAt >= xs[1..][j].lastLoggedAt {
          assert xs[1..][i] == xs[i + 1] && xs[1..][j] == xs[j + 1];
        }
      }
      SortOfSorted(xs[1..]);
      assert xs == [xs[0]] + xs[1..];
    }
  }

  // ---------------------------------------------------------------------
  // fetchMovementStats: the loop

  /** The specification functions on one more log. */
  lemma AppendLog(logs: seq<StatLog>, l: StatLog, m: Id)
    ensures var logs' := logs + [l]; var here := l.movementId == m;
      Count(logs', m) == Count(logs, m) + (if here then 1 else 0) &&
      SumSets(logs', m) == SumSets(logs, m) + (if here then l.setsCompleted else 0) &&
      FirstOf(logs', m) == (if FirstOf(logs, m).Some? then FirstOf(logs, m) else if here then Some(|logs|) else None) &&
      MaxNonZero(logs', m) ==
        (if here && Truthy(l.weightKg) && (MaxNonZero(logs, m).None? || l.weightKg.value > MaxNonZero(logs, m).value)
         then l.weightKg else MaxNonZero(logs, m))
  {
    assert (logs + [l])[..|logs|] == logs;
  }

  /** The running mean: folding one more value into the mean of `c` values. */
  function FoldMean(avg: real, c: nat, x: int): real
  {
    (avg * c as real + x as real) / (c + 1) as real
  }

  lemma RunningMean(avg: real, sum: int, c: nat, x: int, avg': real)
    requires c >= 1 && avg == sum as real / c as real && avg' == (sum + x) as real / (c + 1) as real
    ensures avg' == FoldMean(avg, c, x)
  {
    assert avg * c as real == sum as real;
  }

  /** The running maximum of the loop computes `MaxWeight`. */
  lemma MaxStep(logs: seq<StatLog>, l: StatLog)
    requires FirstOf(logs, l.movementId).Some?
    ensures var m := l.movementId; var w := l.weightKg; var max := MaxWeight(logs, m);
      FirstOf(logs + [l], m).Some? &&
      MaxWeight(logs + [l], m) == if Truthy(w) && (!Truthy(max) || w.value > max.value) then w else max
  {
    var m := l.movementId;
    AppendLog(logs, l, m);
    var f := FirstOf(logs, m).value;
    assert (logs + [l])[f] == logs[f];
    if MaxNonZero(logs, m).None? {
      assert !Truthy(logs[f].weightKg);
    }
  }

  lemma CountAppend(logs: seq<StatLog>, l: StatLog)
    ensures Count(logs + [l], l.movementId) == Count(logs, l.movementId) + 1
    ensures SumSets(logs + [l], l.movementId) == SumSets(logs, l.movementId) + l.setsCompleted
  {
    assert (logs + [l])[..|logs|] == logs;
  }

  /** The running mean of the loop computes `MeanSets`. */
  lemma MeanStep(logs: seq<StatLog>, l: StatLog)
    requires Count(logs, l.movementId) >= 1
    ensures var m := l.movementId; var c := Count(logs, m);
      Count(logs + [l], m) == c + 1 &&
      MeanSets(logs + [l], m) == FoldMean(MeanSets(logs, m), c, l.setsCompleted)
  {
    var m := l.movementId;
    CountAppend(logs, l);
    RunningMean(MeanSets(logs, m), SumSets(logs, m), Count(logs, m), l.setsCompleted, MeanSets(logs + [l], m));
  }

  /** One more log of a movement already seen: the loop's update. */
  lemma StepExisting(logs: seq<StatLog>, l: StatLog)
    requires FirstOf(logs, l.movementId).Some?
    ensures FirstOf(logs + [l], l.movementId).Some? &&
      StatsOf(logs + [l], l.movementId) == Updated(StatsOf(logs, l.movementId), l)
  {
    var m := l.movementId;
    var logs' := logs + [l];
    MeanStep(logs, l);
    MaxStep(logs, l);
    FirstKept(logs, l, m);
    var f := FirstOf(logs, m).value;
    assert logs'[f] == logs[f];
  }

  lemma FirstKept(logs: seq<StatLog>, l: StatLog, m: Id)
    requires FirstOf(logs, m).Some?
    ensures FirstOf(logs + [l], m) == FirstOf(logs, m)
  {
    assert (logs + [l])[..|logs|] == logs;
  }

  /** A log of a movement not seen yet starts its statistics. */
  lemma StepNew(logs: seq<StatLog>, l: StatLog)
    requires FirstOf(logs, l.movementId).None?
    ensures var logs' := logs + [l];
      FirstOf(logs', l.movementId) == Some(|logs|) &&
      StatsOf(logs', l.movementId) == Started(l)
  {
    var m := l.movementId;
    AppendLog(logs, l, m);
    ZeroWhenAbsent(logs, m);
    assert Count(logs, m) == 0;
    assert MaxNonZero(logs, m).None?;
  }

  lemma {:induction false} ZeroWhenAbsent(logs: seq<StatLog>, m: Id)
    requires forall i :: 0 <= i < |logs| ==> logs[i].movementId != m
    ensures SumSets(logs, m) == 0
    decreases |logs|
  {
    if logs != [] {
      ZeroWhenAbsent(logs[..|logs| - 1], m);
    }
  }

  /** One more log leaves the statistics of every other movement as they were. */
  lemma StepOther(logs: seq<StatLog>, l: StatLog, m: Id)
    requires m != l.movementId && FirstOf(logs, m).Some?
    ensures FirstOf(logs + [l], m) == FirstOf(logs, m) && StatsOf(logs + [l], m) == StatsOf(logs, m)
  {
    AppendLog(logs, l, m);
    assert (logs + [l])[FirstOf(logs, m).value] == logs[FirstOf(logs, m).value];
  }

  /** The entry the loop creates for the first log of a movement. */
  function Started(l: StatLog): (s: MovementStats)
    ensures s.movementId == l.movementId && s.totalSessions == 1
  {
    MovementStats(l.movementId, l.movementName.GetOr("Bilinmeyen Hareket"), l.movementImage,
                  1, l.weightKg, l.weightKg, l.setsCompleted as real, l.loggedAt)
  }

  /** The loop's update of an existing entry by one more log. */
  function Updated(s: MovementStats, l: StatLog): (s': MovementStats)
    ensures s'.movementId == s.movementId && s'.totalSessions == s.totalSessions + 1
  {
    var c := s.totalSessions;
    var w := l.weightKg;
    s.(totalSessions := c + 1,
       avgSets := FoldMean(s.avgSets, c, l.setsCompleted),
       maxWeightKg := if Truthy(w) && (!Truthy(s.maxWeightKg) || w.value > s.maxWeightKg.value) then w else s.maxWeightKg)
  }

  /** One turn of the loop on the map of statistics. */
  function Absorb(statsMap: map<Id, MovementStats>, l: StatLog): (r: map<Id, MovementStats>)
    ensures r.Keys == statsMap.Keys + {l.movementId}
    ensures forall m :: m in statsMap && m != l.movementId ==> r[m] == statsMap[m]
  {
    var m := l.movementId;
    if m in statsMap then statsMap[m := Updated(statsMap[m], l)] else statsMap[m := Started(l)]
  }

  /** The map the loop builds from the logs `prefix`. */
  function StatsMap(prefix: seq<StatLog>): map<Id, MovementStats>
    decreases |prefix|
  {
    if prefix == [] then map[]
    else Absorb(StatsMap(prefix[..|prefix| - 1]), prefix[|prefix| - 1])
  }

  /** `statsMap` holds the statistics of exactly the movements of `prefix`. */
  ghost predicate HoldsStats(prefix: seq<StatLog>, statsMap: map<Id, MovementStats>)
  {
    (forall m :: m in statsMap <==> m in Movements(prefix)) &&
    forall m :: m in statsMap ==> FirstOf(prefix, m).Some? && statsMap[m] == StatsOf(prefix, m)
  }

  lemma MovementsAppend(logs: seq<StatLog>, l: StatLog)
    ensures Movements(logs + [l]) ==
      if l.movementId in Movements(logs) then Movements(logs) else Movements(logs) + [l.movementId]
  {
    assert (logs + [l])[..|logs|] == logs;
  }

  /** One more log, entry by entry. */
  lemma EntryAfter(prefix: seq<StatLog>, l: StatLog, statsMap: map<Id, MovementStats>, m: Id)
    requires HoldsStats(prefix, statsMap) && m in Absorb(statsMap, l)
    ensures FirstOf(prefix + [l], m).Some? && Absorb(statsMap, l)[m] == StatsOf(prefix + [l], m)
  {
    if m != l.movementId {
      StepOther(prefix, l, m);
    } else if m in statsMap {
      StepExisting(prefix, l);
    } else {
      StepNew(prefix, l);
    }
  }

  /** One turn of the loop keeps `HoldsStats`. */
  lemma AbsorbHoldsStats(prefix: seq<StatLog>, statsMap: map<Id, MovementStats>)
    requires prefix != [] && HoldsStats(prefix[..|prefix| - 1], statsMap)
    ensures HoldsStats(prefix, Absorb(statsMap, prefix[|prefix| - 1]))
  {
    var p, l := prefix[..|prefix| - 1], prefix[|prefix| - 1];
    var next := Absorb(statsMap, l);
    assert prefix == p + [l];
    MovementsAppend(p, l);
    assert forall m :: m in next <==> m in Movements(prefix);
    forall m | m in next
      ensures FirstOf(prefix, m).Some? && next[m] == StatsOf(prefix, m)
    {
      EntryAfter(p, l, statsMap, m);
    }
  }

  /** The loop's map holds `StatsOf` of every movement, and of no other. */
  lemma {:induction false} StatsMapHoldsStats(prefix: seq<StatLog>)
    ensures HoldsStats(prefix, StatsMap(prefix))
    decreases |prefix|
  {
    if prefix != [] {
      StatsMapHoldsStats(prefix[..|prefix| - 1]);
      AbsorbHoldsStats(prefix, StatsMap(prefix[..|prefix| - 1]));
    }
  }

  /** `Array.from(statsMap.values())`: the entries in insertion order. */
  function ValuesIn(order: seq<Id>, statsMap: map<Id, MovementStats>): seq<MovementStats>
    requires forall k :: 0 <= k < |order| ==> order[k] in statsMap
  {
    seq(|order|, k requires 0 <= k < |order| => statsMap[order[k]])
  }

  lemma StatsMapValues(logs: seq<StatLog>)
    ensures forall k :: 0 <= k < |Movements(logs)| ==> Movements(logs)[k] in StatsMap(logs)
    ensures ValuesIn(Movements(logs), StatsMap(logs)) == AllStats(logs)
  {
    StatsMapHoldsStats(logs);
  }

  /** The body of the loop of `fetchMovementStats`: one log into the map. */
  method AbsorbLog(statsMap: map<Id, MovementStats>, order: seq<Id>, log: StatLog)
    returns (statsMap': map<Id, MovementStats>, order': seq<Id>)
    ensures statsMap' == Absorb(statsMap, log)
    ensures order' == if log.movementId in statsMap then order else order + [log.movementId]
  {
    var m := log.movementId;
    statsMap' := statsMap;
    order' := order;
    if m in statsMap {
      var existing := statsMap[m];
      // total_sessions++, then the running mean over total_sessions - 1 earlier logs
      var n := existing.totalSessions + 1;
      var avg := FoldMean(existing.avgSets, n - 1, log.setsCompleted);
      var max := existing.maxWeightKg;
      if Truthy(log.weightKg) && (!Truthy(max) || log.weightKg.value > max.value) {
        max := log.weightKg;
      }
      statsMap' := statsMap[m := existing.(totalSessions := n, avgSets := avg, maxWeightKg := max)];
    } else {
      statsMap' := statsMap[m := MovementStats(m, log.movementName.GetOr("Bilinmeyen Hareket"), log.movementImage,
                                               1, log.weightKg, log.weightKg, log.setsCompleted as real, log.loggedAt)];
      order' := order + [m];
    }
  }

  /** `Movements` and `StatsMap` of one more row. */
  lemma PrefixStep(logs: seq<StatLog>, i: nat)
    requires i < |logs|
    ensures var m := logs[i].movementId;
      Movements(logs[..i + 1]) == (if m in Movements(logs[..i]) then Movements(logs[..i]) else Movements(logs[..i]) + [m]) &&
      StatsMap(logs[..i + 1]) == Absorb(StatsMap(logs[..i]), logs[i])
  {
    assert logs[..i + 1][..i] == logs[..i];
    assert logs[..i + 1] == logs[..i] + [logs[i]];
    MovementsAppend(logs[..i], logs[i]);
  }

  /** `fetchMovementStats` over the rows of the query (newest first). */
  method FetchMovementStats(logs: seq<StatLog>) returns (r: seq<MovementStats>)
    ensures r == SortByRecent(AllStats(logs))
  {
    var order: seq<Id> := [];
    var statsMap: map<Id, MovementStats> := map[];
    for i := 0 to |logs|
      invariant order == Movements(logs[..i])
      invariant statsMap == StatsMap(logs[..i])
      invariant forall m :: m in statsMap <==> m in order
    {
      PrefixStep(logs, i);
      statsMap, order := AbsorbLog(statsMap, order, logs[i]);
    }
    assert logs[..|logs|] == logs;
    StatsMapValues(logs);
    r := SortByRecent(ValuesIn(order, statsMap));
  }

  // ---------------------------------------------------------------------
  // Properties of the statistics

  /** `max_weight_kg` is the largest non-zero weight when there is one;
      otherwise it is the newest log's weight (null or zero). */
  lemma MaxWeightMeaning(logs: seq<StatLog>, m: Id)
    requires FirstOf(logs, m).Some?
    ensures (exists i :: 0 <= i < |logs| && logs[i].movementId == m && Truthy(logs[i].weightKg)) ==>
      var w := StatsOf(logs, m).maxWeightKg;
      Truthy(w) &&
      (exists i :: 0 <= i < |logs| && logs[i].movementId == m && logs[i].weightKg == w) &&
      forall i :: 0 <= i < |logs| && logs[i].movementId == m && Truthy(logs[i].weightKg) ==>
        logs[i].weightKg.value <= w.value
    ensures (forall i :: 0 <= i < |logs| && logs[i].movementId == m ==> !Truthy(logs[i].weightKg)) ==>
      StatsOf(logs, m).maxWeightKg == logs[FirstOf(logs, m).value].weightKg
  {
  }

  predicate NewestFirst(logs: seq<StatLog>)
  {
    forall i, j :: 0 <= i < j < |logs| ==> logs[i].loggedAt >= logs[j].loggedAt
  }

  /** The first log of a movement in a newest-first list is its most recent one. */
  lemma LastIsMostRecent(logs: seq<StatLog>, m: Id)
    requires NewestFirst(logs) && FirstOf(logs, m).Some?
    ensures forall i :: 0 <= i < |logs| && logs[i].movementId == m ==> logs[i].loggedAt <= StatsOf(logs, m).lastLoggedAt
  {
    var f := FirstOf(logs, m).value;
    forall i | 0 <= i < |logs| && logs[i].movementId == m ensures logs[i].loggedAt <= logs[f].loggedAt {
      assert f <= i;
    }
  }

  /** The positions of first appearance grow along `Movements`. */
  lemma {:induction false} FirstAppearanceOrder(logs: seq<StatLog>)
    ensures forall a, b :: 0 <= a < b < |Movements(logs)| ==>
      FirstOf(logs, Movements(logs)[a]).Some? && FirstOf(logs, Movements(logs)[b]).Some? &&
      FirstOf(logs, Movements(logs)[a]).value < FirstOf(logs, Movements(logs)[b]).value
    decreases |logs|
  {
    if logs != [] {
      var n := |logs| - 1;
      var p := logs[..n];
      FirstAppearanceOrder(p);
      var ms := Movements(logs);
      var pm := Movements(p);
      assert logs == p + [logs[n]];
      MovementsAppend(p, logs[n]);
      forall k | 0 <= k < |pm| ensures FirstOf(p, pm[k]).Some? && FirstOf(logs, pm[k]) == FirstOf(p, pm[k]) {
        InMovements(p, pm[k]);
        FirstKept(p, logs[n], pm[k]);
      }
      var x := logs[n].movementId;
      if x !in pm {
        assert FirstOf(logs, x) == Some(n) by {
          AppendLog(p, logs[n], x);
        }
      }
      forall a, b | 0 <= a < b < |ms|
        ensures FirstOf(logs, ms[a]).Some? && FirstOf(logs, ms[b]).Some? &&
          FirstOf(logs, ms[a]).value < FirstOf(logs, ms[b]).value
      {
        assert ms[a] == pm[a];
        if b < |pm| {
          assert ms[b] == pm[b];
        } else {
          assert ms[b] == x;
        }
      }
    } else {
      assert Movements(logs) == [];
    }
  }

  /** For newest-first rows the statistics already come newest first, so the
      final sort leaves them in order of first appearance. */
  lemma StatsAlreadySorted(logs: seq<StatLog>)
    requires NewestFirst(logs)
    ensures SortedByRecent(AllStats(logs))
    ensures SortByRecent(AllStats(logs)) == AllStats(logs)
  {
    FirstAppearanceOrder(logs);
    var r := AllStats(logs);
    forall a, b | 0 <= a < b < |r| ensures r[a].lastLoggedAt >= r[b].lastLoggedAt {
      var ms := Movements(logs);
      assert r[a].lastLoggedAt == logs[FirstOf(logs, ms[a]).value].loggedAt;
      assert r[b].lastLoggedAt == logs[FirstOf(logs, ms[b]).value].loggedAt;
    }
    SortOfSorted(r);
  }

  // ---------------------------------------------------------------------
  // fetchMovementChartData

  datatype Metric = Weight | Sets | Volume

  /** A row of the chart query; `logDate` is the `yyyy-MM-dd` text of the day. */
  datatype ChartLog = ChartLog(
    logDate: string, loggedAt: string, setsCompleted: int, weightKg: Option<real>, repsCompleted: Option<string>)

  /** A chart point; the localised label is not modelled. */
  datatype ChartPoint = ChartPoint(date: string, value: real)

  function SumParsed(parts: seq<string>): int
  {
    if parts == [] then 0 else SumParsed(parts[..|parts| - 1]) + ParseIntOrZero(parts[|parts| - 1])
  }

  /** The total of the comma-separated reps, unparsable parts counting 0. */
  function RepsTotal(reps: Option<string>): int
  {
    if reps.None? then 0 else SumParsed(Split(reps.value, ','))
  }

  /** The value a log plots for a metric. */
  function PointValue(log: ChartLog, metric: Metric): (v: real)
    ensures metric == Weight ==> v == log.weightKg.GetOr(0.0)
    ensures metric == Sets ==> v == log.setsCompleted as real
    ensures metric == Volume ==> v == log.weightKg.GetOr(0.0) * RepsTotal(log.repsCompleted) as real
    ensures log.weightKg.None? && metric != Sets ==> v == 0.0
  {
    match metric
    case Weight => log.weightKg.GetOr(0.0)
    case Sets => log.setsCompleted as real
    case Volume => log.weightKg.GetOr(0.0) * RepsTotal(log.repsCompleted) as real
  }

  /** `fetchMovementChartData`'s mapping: one point per log, in order; the date
      is `log_date`, or `logged_at` when that is empty. */
  function ChartData(logs: seq<ChartLog>, metric: Metric): (r: seq<ChartPoint>)
    ensures |r| == |logs|
    ensures forall i :: 0 <= i < |logs| ==>
      r[i].value == PointValue(logs[i], metric) &&
      r[i].date == (if logs[i].logDate != [] then logs[i].logDate else logs[i].loggedAt)
  {
    seq(|logs|, i requires 0 <= i < |logs| =>
      ChartPoint(if logs[i].logDate != [] then logs[i].logDate else logs[i].loggedAt, PointValue(logs[i], metric)))
  }

  /** A log without reps or without a weight plots no volume. */
  lemma VolumeWithoutReps(log: ChartLog)
    requires log.repsCompleted.None? || log.weightKg.None?
    ensures PointValue(log, Volume) == 0.0
  {
  }

  function SumNats(xs: seq<nat>): nat
  {
    if xs == [] then 0 else SumNats(xs[..|xs| - 1]) + xs[|xs| - 1]
  }

  /** The decimal renderings of naturals. */
  function Decimals(xs: seq<nat>): (r: seq<string>)
    ensures |r| == |xs| && forall i :: 0 <= i < |xs| ==> r[i] == NatToString(xs[i])
  {
    seq(|xs|, i requires 0 <= i < |xs| => NatToString(xs[i]))
  }

  /** The reps text of naturals written in decimal and joined by ',' totals
      their sum. */
  lemma RepsTotalOfJoined(xs: seq<nat>)
    requires |xs| >= 1
    ensures RepsTotal(Some(Join(Decimals(xs), ","))) == SumNats(xs)
  {
    var parts := Decimals(xs);
    forall i | 0 <= i < |parts| ensures ',' !in parts[i] {
      assert forall k :: 0 <= k < |parts[i]| ==> '0' <= parts[i][k] <= '9';
    }
    assert [','] == ",";
    SplitJoin(parts, ',');
    SumOfNatStrings(xs);
  }

  lemma {:induction false} SumOfNatStrings(xs: seq<nat>)
    ensures SumParsed(Decimals(xs)) == SumNats(xs)
    decreases |xs|
  {
    if xs != [] {
      var n := |xs| - 1;
      var ds := Decimals(xs);
      SumOfNatStrings(xs[..n]);
      assert ds[..n] == Decimals(xs[..n]);
      ParseIntNatToString(xs[n]);
      assert ParseIntOrZero(ds[n]) == xs[n];
    }
  }
}
