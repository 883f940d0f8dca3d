/** The desktop experiment window (`scripts/test_bws.py`): it asks for a
    name, builds the trials of one sequence, and on each submit checks the two
    radio groups, updates the stimulus values by the learning rule, records the
    choice and advances; past the last trial it ranks the values and stores the
    ranking. Widgets, the media player and message boxes are not modelled;
    their outcomes are inputs and results. */
module Desktop {
  import opened Wrappers
  import opened Text
  import opened Seqs
  import opened Sorting
  import opened Paths
  import opened SequenceView
  import opened Database

  /** The learning rate `ALPHA`. */
  const Alpha: real := 0.1

  /** The (resource id, `os.path.join(folder_path, resource_filenames)`) pairs
      the audio map is built from. */
  function JoinedPathEntries(rows: seq<ViewRow>): (entries: seq<(ResourceId, string)>)
    ensures |entries| == |rows|
    ensures forall i :: 0 <= i < |rows| ==>
      entries[i] == (rows[i].resourceId, Join(rows[i].folderPath, rows[i].resourceFilenames))
  {
    seq(|rows|, i requires 0 <= i < |rows| => (rows[i].resourceId, Join(rows[i].folderPath, rows[i].resourceFilenames)))
  }

  /** The value of `x` after the loop `for other in ids: if other != x:
      V[x] += ALPHA * (target - (V[x] - V[other]))`; the other entries stay as in `v`. */
  function Pulled(v: map<ResourceId, real>, x: ResourceId, ids: seq<ResourceId>, target: real): real
    requires x in v && forall i :: 0 <= i < |ids| ==> ids[i] in v
  {
    if ids == [] then v[x]
    else
      var prev := Pulled(v, x, ids[..|ids| - 1], target);
      var other := ids[|ids| - 1];
      if other != x then prev + Alpha * (target - (prev - v[other])) else prev
  }

  /** Each step moves the value a tenth of the way towards `V[other] + target`,
      so the result stays within any bounds that hold both for the starting
      value and for every `V[other] + target`. */
  lemma {:induction false} PulledWithin(v: map<ResourceId, real>, x: ResourceId, ids: seq<ResourceId>,
                                        target: real, lo: real, hi: real)
    requires x in v && forall i :: 0 <= i < |ids| ==> ids[i] in v
    requires lo <= v[x] <= hi
    requires forall i :: 0 <= i < |ids| && ids[i] != x ==> lo <= v[ids[i]] + target <= hi
    ensures lo <= Pulled(v, x, ids, target) <= hi
    decreases |ids|
  {
    if ids != [] {
      PulledWithin(v, x, ids[..|ids| - 1], target, lo, hi);
    }
  }

  /** The values after the two update loops of `submit_choice`: first the
      best one is pulled with target 1, then the worst one with target 0,
      reading the best one's new value. */
  function Reinforced(v: map<ResourceId, real>, trial: seq<ResourceId>, best: ResourceId, worst: ResourceId)
    : (r: map<ResourceId, real>)
    requires best in v && worst in v && forall i :: 0 <= i < |trial| ==> trial[i] in v
    ensures r.Keys == v.Keys
    ensures forall k :: k in v && k != best && k != worst ==> r[k] == v[k]
  {
    var afterBest := v[best := Pulled(v, best, trial, 1.0)];
    afterBest[worst := Pulled(afterBest, worst, trial, 0.0)]
  }

  /** The sort key of `sorted(V.items(), key=lambda x: x[1], reverse=True)`:
      higher scores first. */
  predicate ScoreGeq(a: (ResourceId, real), b: (ResourceId, real)) {
    a.1 >= b.1
  }

  lemma ScoreGeqIsTotalPreorder()
    ensures TotalPreorder(ScoreGeq)
  {
  }

  /** `V.items()` in the dictionary's key order. */
  function Items(order: seq<ResourceId>, v: map<ResourceId, real>): (items: seq<(ResourceId, real)>)
    requires forall i :: 0 <= i < |order| ==> order[i] in v
    ensures |items| == |order|
    ensures forall i :: 0 <= i < |order| ==> items[i] == (order[i], v[order[i]])
  {
    seq(|order|, i requires 0 <= i < |order| => (order[i], v[order[i]]))
  }

  /** The `final_scores` rows of `show_final_results`: the items by
      descending score, ranked 1, 2, ... */
  function FinalRows(participantId: int, sequenceId: int, items: seq<(ResourceId, real)>): (rows: seq<FinalScore>)
  {
    var sorted := Sort(items, ScoreGeq);
    seq(|sorted|, i requires 0 <= i < |sorted| =>
      FinalScore(participantId, sequenceId, sorted[i].0, sorted[i].1, i + 1))
  }

  /** The (resource id, score) pair a final-score row carries. */
  function ScorePairs(rows: seq<FinalScore>): (pairs: seq<(ResourceId, real)>)
    ensures |pairs| == |rows|
    ensures forall i :: 0 <= i < |rows| ==> pairs[i] == (rows[i].resourceId, rows[i].finalScore)
  {
    seq(|rows|, i requires 0 <= i < |rows| => (rows[i].resourceId, rows[i].finalScore))
  }

  /** The ranking has one row per value entry, ranks 1..n in order, and the
      scores never increase down the ranking. */
  lemma FinalRowsRanking(participantId: int, sequenceId: int, items: seq<(ResourceId, real)>)
    ensures var rows := FinalRows(participantId, sequenceId, items);
      && |rows| == |items|
      && multiset(ScorePairs(rows)) == multiset(items)
      && (forall i :: 0 <= i < |rows| ==>
            (rows[i].rankPosition == i + 1 && rows[i].participantId == participantId
             && rows[i].sequenceId == sequenceId))
      && (forall i, j :: 0 <= i < j < |rows| ==> rows[i].finalScore >= rows[j].finalScore)
  {
    var sorted := Sort(items, ScoreGeq);
    var rows := FinalRows(participantId, sequenceId, items);
    ScoreGeqIsTotalPreorder();
    SortSorted(items, ScoreGeq);
    assert ScorePairs(rows) == sorted;
  }

  /** The loop of `show_final_results` that numbers the sorted items. */
  method RankScores(participantId: int, sequenceId: int, items: seq<(ResourceId, real)>)
      returns (rows: seq<FinalScore>)
    ensures rows == FinalRows(participantId, sequenceId, items)
  {
    var sorted := Sort(items, ScoreGeq);
    rows := [];
    var rankPosition := 1;
    for k := 0 to |sorted|
      invariant rankPosition == k + 1
      invariant |rows| == k
      invariant forall i :: 0 <= i < k ==>
        rows[i] == FinalScore(participantId, sequenceId, sorted[i].0, sorted[i].1, i + 1)
    {
      rows := rows + [FinalScore(participantId, sequenceId, sorted[k].0, sorted[k].1, rankPosition)];
      rankPosition := rankPosition + 1;
    }
  }

  /** What a click on Submit ends in. */
  datatype SubmitOutcome = ResultsShown | Warned(message: string) | Recorded

  class ExperimentWindow {
    const db: Db
    const sequenceId: nat
    const participantId: int
    const audioMap: map<ResourceId, string>
    const trials: seq<seq<ResourceId>>
    /** `N_TRIALS`. */
    const nTrials: nat
    /** The key order of `V`, which its items keep. */
    const order: seq<ResourceId>
    var values: map<ResourceId, real>
    var currentTrialIndex: nat

    /** `V` has one entry per key of `order`; every id of every trial has a
        value and an audio path. */
    ghost predicate Valid()
      reads this, db
    {
      && nTrials == |trials|
      && Distinct(order)
      && values.Keys == (set k | k in order)
      && (forall t, i :: 0 <= t < |trials| && 0 <= i < |trials[t]| ==>
            trials[t][i] in values && trials[t][i] in audioMap)
      && db.Valid()
    }

    constructor (db: Db, sequenceId: nat, participantId: int, audioMap: map<ResourceId, string>,
                 trials: seq<seq<ResourceId>>, order: seq<ResourceId>, values: map<ResourceId, real>)
      requires db.Valid() && Distinct(order) && values.Keys == (set k | k in order)
      requires forall t, i :: 0 <= t < |trials| && 0 <= i < |trials[t]| ==>
        trials[t][i] in values && trials[t][i] in audioMap
      ensures Valid()
      ensures this.db == db && this.sequenceId == sequenceId && this.participantId == participantId
      ensures this.audioMap == audioMap && this.trials == trials && this.order == order
      ensures this.values == values && nTrials == |trials| && currentTrialIndex == 0
    {
      this.db, this.sequenceId, this.participantId := db, sequenceId, participantId;
      this.audioMap, this.trials, this.order := audioMap, trials, order;
      this.values, nTrials, currentTrialIndex := values, |trials|, 0;
    }

    /** The two update loops of `submit_choice`. */
    method Reinforce(x: ResourceId, ids: seq<ResourceId>, target: real)
      requires x in values && forall i :: 0 <= i < |ids| ==> ids[i] in values
      modifies this`values
      ensures values == old(values)[x := Pulled(old(values), x, ids, target)]
    {
      for j := 0 to |ids|
        invariant values == old(values)[x := Pulled(old(values), x, ids[..j], target)]
      {
        assert ids[..j + 1][..j] == ids[..j];
        var other := ids[j];
        if other != x {
          var error := target - (values[x] - values[other]);
          values := values[x := values[x] + Alpha * error];
        }
      }
      assert ids[..|ids|] == ids;
    }

    /** `show_final_results`: the ranking of the current values is appended
        to `final_scores`. */
    method ShowFinalResults()
      requires Valid()
      modifies db`finalScores
      ensures Valid()
      ensures db.finalScores == old(db.finalScores) + FinalRows(participantId, sequenceId, Items(order, values))
    {
      var rows := RankScores(participantId, sequenceId, Items(order, values));
      db.AppendFinalScores(rows);
    }

    /** `submit_choice`, with the checked ids of the two radio groups as
        inputs (-1 when nothing is checked). */
    method SubmitChoice(bestRow: int, worstRow: int) returns (outcome: SubmitOutcome)
      requires Valid()
      requires currentTrialIndex < nTrials ==>
        -1 <= bestRow < |trials[currentTrialIndex]| && -1 <= worstRow < |trials[currentTrialIndex]|
      modifies this`values, this`currentTrialIndex, db`trialResults, db`finalScores
      ensures Valid()
      ensures old(currentTrialIndex) >= nTrials ==>
        && outcome == ResultsShown
        && values == old(values) && currentTrialIndex == old(currentTrialIndex)
        && db.trialResults == old(db.trialResults)
        && db.finalScores == old(db.finalScores) + FinalRows(participantId, sequenceId, Items(order, values))
      ensures old(currentTrialIndex) < nTrials && (bestRow == -1 || worstRow == -1 || bestRow == worstRow) ==>
        && outcome == Warned(if bestRow == -1 || worstRow == -1 then "Please select one Best and one Worst."
                             else "Best and Worst cannot be the same row.")
        && values == old(values) && currentTrialIndex == old(currentTrialIndex)
        && db.trialResults == old(db.trialResults) && db.finalScores == old(db.finalScores)
      ensures old(currentTrialIndex) < nTrials && bestRow != -1 && worstRow != -1 && bestRow != worstRow ==>
        var trial := trials[old(currentTrialIndex)];
        && outcome == Recorded
        && values == Reinforced(old(values), trial, trial[bestRow], trial[worstRow])
        && db.trialResults == old(db.trialResults) + [TrialResult(participantId, sequenceId,
             old(currentTrialIndex), Some(trial[bestRow]), Some(trial[worstRow]))]
        && currentTrialIndex == old(currentTrialIndex) + 1
        && db.finalScores == old(db.finalScores) +
             (if currentTrialIndex >= nTrials then FinalRows(participantId, sequenceId, Items(order, values)) else [])
    {
      if currentTrialIndex >= nTrials {
        ShowFinalResults();
        return ResultsShown;
      }
      var trial := trials[currentTrialIndex];
      if bestRow == -1 || worstRow == -1 {
        return Warned("Please select one Best and one Worst.");
      }
      if bestRow == worstRow {
        return Warned("Best and Worst cannot be the same row.");
      }
      var best, worst := trial[bestRow], trial[worstRow];
      Reinforce(best, trial, 1.0);
      Reinforce(worst, trial, 0.0);
      db.AppendTrialResult(TrialResult(participantId, sequenceId, currentTrialIndex, Some(best), Some(worst)));
      currentTrialIndex := currentTrialIndex + 1;
      // update_display_for_trial
      if currentTrialIndex >= nTrials {
        ShowFinalResults();
      }
      outcome := Recorded;
    }
  }

  /** What starting the window ends in: `sys.exit(1)` with the message shown,
      or a running window. */
  datatype LaunchOutcome = Aborted(message: string) | Started(window: ExperimentWindow)

  /** `df_view["resource_id"].unique()` lists each resource id of the rows once. */
  lemma UniqueIdsAreResourceIds(rows: seq<ViewRow>)
    ensures Distinct(Unique(ResourceIdList(rows)))
    ensures forall x :: x in Unique(ResourceIdList(rows)) <==> x in ResourceIds(rows)
  {
    UniqueMembers(ResourceIdList(rows));
    ResourceIdListMembers(rows);
  }

  /** The keys of the audio map are the resource ids of the rows. */
  lemma JoinedPathMapKeys(rows: seq<ViewRow>, audioMap: map<ResourceId, string>)
    requires IsLastWinsMap(audioMap, JoinedPathEntries(rows))
    ensures audioMap.Keys == ResourceIds(rows)
  {
    var entries := JoinedPathEntries(rows);
    forall x | x in ResourceIds(rows) ensures x in (set i | 0 <= i < |entries| :: entries[i].0) {
      var i :| 0 <= i < |rows| && rows[i].resourceId == x;
      assert entries[i].0 == x;
    }
  }

  /** `V` starts keyed by exactly the ids of `unique()`, listed once each. */
  lemma StartValues(rows: seq<ViewRow>, sorted: seq<ViewRow>)
    requires multiset(rows) == multiset(sorted)
    ensures var order := Unique(ResourceIdList(sorted));
      Distinct(order) && ZeroValues(ResourceIds(rows)).Keys == (set k | k in order)
  {
    ResourceIdsOfPermutation(rows, sorted);
    UniqueIdsAreResourceIds(sorted);
    var order := Unique(ResourceIdList(sorted));
    var ids := ResourceIds(sorted);
    forall x ensures x in ids <==> x in (set k | k in order) {
      assert x in ids <==> x in order;
    }
  }

  /** The data `__init__` builds meet the window's invariant: `V` is keyed by
      the unique ids without repetition, and every id of every trial has a
      value and an audio path. */
  lemma StartState(rows: seq<ViewRow>, sorted: seq<ViewRow>, trials: seq<seq<ResourceId>>,
                   audioMap: map<ResourceId, string>)
    requires multiset(rows) == multiset(sorted)
    requires TrialsOf(sorted, trials)
    requires audioMap.Keys == ResourceIds(rows)
    ensures forall t, i :: 0 <= t < |trials| && 0 <= i < |trials[t]| ==>
      trials[t][i] in ZeroValues(ResourceIds(rows)) && trials[t][i] in audioMap
  {
    ResourceIdsOfPermutation(rows, sorted);
    TrialIdsOccur(sorted, trials);
  }

  /** `ExperimentWindow.__init__`: the name dialog (`None` when cancelled), the
      participant, the rows of the sequence, the audio map built from the rows
      in table order, the trials built from the sorted rows, and `V` at 0 for
      every resource id in sorted-row order. */
  method Launch(db: Db, sequenceId: nat, dialog: Option<string>, view: seq<ViewRow>)
      returns (outcome: LaunchOutcome)
    requires db.Valid()
    modifies db`participants, db`nextParticipantId
    ensures db.Valid()
    ensures dialog.None? || AllWhitespace(dialog.value, IsPyWhitespace) ==>
      outcome == Aborted("A participant name is required!")
      && db.participants == old(db.participants) && db.nextParticipantId == old(db.nextParticipantId)
    ensures dialog.Some? && !AllWhitespace(dialog.value, IsPyWhitespace) ==>
      var name := Trim(dialog.value, IsPyWhitespace);
      && FirstIdNamed(db.participants, name).Some?
      && (RowsOfSequence(view, sequenceId) == [] ==>
            outcome == Aborted("No rows found in 'sequence_view' for sequence_id=" + DecimalString(sequenceId)))
      && (RowsOfSequence(view, sequenceId) != [] ==>
            outcome.Started? && outcome.window.participantId == FirstIdNamed(db.participants, name).value)
    ensures (dialog.Some? && !AllWhitespace(dialog.value, IsPyWhitespace)
        && old(FirstIdNamed(db.participants, Trim(dialog.value, IsPyWhitespace))).Some?) ==>
      db.participants == old(db.participants) && db.nextParticipantId == old(db.nextParticipantId)
    ensures (dialog.Some? && !AllWhitespace(dialog.value, IsPyWhitespace)
        && old(FirstIdNamed(db.participants, Trim(dialog.value, IsPyWhitespace))).None?) ==>
      db.participants == old(db.participants) + [Participant(old(db.nextParticipantId), Trim(dialog.value, IsPyWhitespace))]
      && db.nextParticipantId == old(db.nextParticipantId) + 1
    ensures outcome.Started? ==>
      var w := outcome.window;
      var rows := RowsOfSequence(view, sequenceId);
      var sorted := SortRows(rows);
      && fresh(w) && w.Valid() && w.db == db && w.sequenceId == sequenceId
      && IsLastWinsMap(w.audioMap, JoinedPathEntries(rows))
      && TrialsOf(sorted, w.trials) && w.nTrials == |w.trials|
      && w.order == Unique(ResourceIdList(sorted))
      && w.values == ZeroValues(ResourceIds(rows))
      && w.currentTrialIndex == 0
  {
    if dialog.None? || IsBlank(dialog.value, IsPyWhitespace) {
      return Aborted("A participant name is required!");
    }
    var name := Trim(dialog.value, IsPyWhitespace);
    var participantId := db.GetOrCreateParticipant(name);
    var rows := RowsOfSequence(view, sequenceId);
    if rows == [] {
      return Aborted("No rows found in 'sequence_view' for sequence_id=" + DecimalString(sequenceId));
    }
    var audioMap := BuildAudioMap(JoinedPathEntries(rows));
    var sorted := SortRows(rows);
    var keys, trials := GroupByTrial(sorted);
    var order := Unique(ResourceIdList(sorted));
    var values := ZeroValues(ResourceIds(rows));
    JoinedPathMapKeys(rows, audioMap);
    StartValues(rows, sorted);
    assert TrialsOf(sorted, trials);
    StartState(rows, sorted, trials, audioMap);
    var w := new ExperimentWindow(db, sequenceId, participantId, audioMap, trials, order, values);
    outcome := Started(w);
  }

  /** A worked example of `Reinforced`. With all values at 0, choosing the first of three stimuli as best and
      the last as worst: the best one rises to 0.19, the middle one keeps 0
      and the worst one stays within [0, 1]. */
  lemma FirstChoiceValues()
    ensures var v := map[1 := 0.0, 2 := 0.0, 3 := 0.0];
      var r := Reinforced(v, [1, 2, 3], 1, 3);
      r[1] == 0.19 && r[2] == 0.0 && 0.0 <= r[3] <= 1.0
  {
    var v := map[1 := 0.0, 2 := 0.0, 3 := 0.0];
    var afterBest := v[1 := Pulled(v, 1, [1, 2, 3], 1.0)];
    assert [1, 2, 3][..2] == [1, 2] && [1, 2][..1] == [1] && [1][..0] == [];
    assert Pulled(v, 1, [1, 2, 3], 1.0) == 0.19;
    PulledWithin(afterBest, 3, [1, 2, 3], 0.0, 0.0, 1.0);
  }
}
