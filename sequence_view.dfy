/** The rows of the database view `sequence_view` and the two things both the
    web backend and the desktop experiment build from them: the ordered list of
    trials (resource ids grouped by `trial`, each group in `index_order`) and
    the map from resource id to an audio path in which the last row wins. */
module SequenceView {
  import opened Seqs
  import opened Sorting

  type ResourceId = int

  /** One row of `sequence_view`: one stimulus at one position of one trial. */
  datatype ViewRow = ViewRow(
    sequenceId: int,
    trial: int,
    indexOrder: int,
    resourceId: ResourceId,
    folderPath: string,
    resourceFilenames: string,
    resourceFolderPaths: string)

  /** `df_view[df_view["sequence_id"] == sequence_id]`: the rows of one
      sequence, in table order. */
  function RowsOfSequence(view: seq<ViewRow>, sequenceId: int): (rows: seq<ViewRow>)
    ensures |rows| <= |view|
    ensures forall i :: 0 <= i < |rows| ==> rows[i] in view && rows[i].sequenceId == sequenceId
    ensures forall i :: 0 <= i < |view| && view[i].sequenceId == sequenceId ==> view[i] in rows
  {
    if view == [] then []
    else
      var last := view[|view| - 1];
      assert forall i :: 0 <= i < |view| - 1 ==> view[i] == view[..|view| - 1][i];
      RowsOfSequence(view[..|view| - 1], sequenceId) + (if last.sequenceId == sequenceId then [last] else [])
  }

  /** Each row of the sequence is kept as often as it occurs in the view;
      other rows are dropped. */
  lemma {:induction false} RowsOfSequenceOcc(view: seq<ViewRow>, sequenceId: int, x: ViewRow)
    ensures Occ(RowsOfSequence(view, sequenceId), x) == if x.sequenceId == sequenceId then Occ(view, x) else 0
    decreases |view|
  {
    if view != [] {
      var init, last := view[..|view| - 1], view[|view| - 1];
      RowsOfSequenceOcc(init, sequenceId, x);
      OccConcat(RowsOfSequence(init, sequenceId), if last.sequenceId == sequenceId then [last] else [], x);
    }
  }

  /** Filtering keeps table order: the rows of a concatenation are the rows
      of each part, one after the other. */
  lemma {:induction false} RowsOfSequenceConcat(a: seq<ViewRow>, b: seq<ViewRow>, sequenceId: int)
    ensures RowsOfSequence(a + b, sequenceId) == RowsOfSequence(a, sequenceId) + RowsOfSequence(b, sequenceId)
    decreases |b|
  {
    if b == [] {
      assert a + b == a;
    } else {
      assert (a + b)[..|a + b| - 1] == a + b[..|b| - 1];
      RowsOfSequenceConcat(a, b[..|b| - 1], sequenceId);
    }
  }

  /** The sort key of `sort_values(["trial", "index_order"])`. */
  predicate RowLeq(a: ViewRow, b: ViewRow) {
    a.trial < b.trial || (a.trial == b.trial && a.indexOrder <= b.indexOrder)
  }

  lemma RowLeqIsTotalPreorder()
    ensures TotalPreorder(RowLeq)
  {
  }

  function SortRows(rows: seq<ViewRow>): (sorted: seq<ViewRow>)
    ensures multiset(sorted) == multiset(rows)
    ensures SortedBy(sorted, RowLeq)
  {
    RowLeqIsTotalPreorder();
    SortSorted(rows, RowLeq);
    Sort(rows, RowLeq)
  }

  /** The resource-id column, in row order. */
  function ResourceIdList(rows: seq<ViewRow>): seq<ResourceId>
  {
    if rows == [] then [] else ResourceIdList(rows[..|rows| - 1]) + [rows[|rows| - 1].resourceId]
  }

  lemma {:induction false} ResourceIdListAt(rows: seq<ViewRow>, i: nat)
    requires i < |rows|
    ensures |ResourceIdList(rows)| == |rows| && ResourceIdList(rows)[i] == rows[i].resourceId
    decreases |rows|
  {
    ResourceIdListLength(rows);
    if i < |rows| - 1 {
      ResourceIdListAt(rows[..|rows| - 1], i);
    }
  }

  lemma {:induction false} ResourceIdListLength(rows: seq<ViewRow>)
    ensures |ResourceIdList(rows)| == |rows|
    decreases |rows|
  {
    if rows != [] {
      ResourceIdListLength(rows[..|rows| - 1]);
    }
  }

  /** The set of resource ids occurring in `rows`. */
  function ResourceIds(rows: seq<ViewRow>): set<ResourceId> {
    set i | 0 <= i < |rows| :: rows[i].resourceId
  }

  /** The rows of one trial, in row order. */
  function RowsOfTrial(rows: seq<ViewRow>, t: int): seq<ViewRow>
  {
    if rows == [] then []
    else
      var last := rows[|rows| - 1];
      RowsOfTrial(rows[..|rows| - 1], t) + (if last.trial == t then [last] else [])
  }

  /** The rows of a trial are rows of the table carrying that trial. */
  lemma {:induction false} RowsOfTrialMembers(rows: seq<ViewRow>, t: int)
    ensures forall x :: x in RowsOfTrial(rows, t) ==> x in rows && x.trial == t
    decreases |rows|
  {
    if rows != [] {
      RowsOfTrialMembers(rows[..|rows| - 1], t);
    }
  }

  /** A trial no row carries has no rows. */
  lemma {:induction false} RowsOfTrialAbsent(rows: seq<ViewRow>, t: int)
    requires forall i :: 0 <= i < |rows| ==> rows[i].trial != t
    ensures RowsOfTrial(rows, t) == []
    decreases |rows|
  {
    if rows != [] {
      RowsOfTrialAbsent(rows[..|rows| - 1], t);
    }
  }

  /** Within rows sorted by (trial, index_order), the rows of one trial come
      in ascending `index_order`. */
  lemma {:induction false} TrialRowsInIndexOrder(rows: seq<ViewRow>, t: int)
    requires SortedBy(rows, RowLeq)
    ensures forall a, b :: 0 <= a < b < |RowsOfTrial(rows, t)| ==>
      RowsOfTrial(rows, t)[a].indexOrder <= RowsOfTrial(rows, t)[b].indexOrder
    decreases |rows|
  {
    if rows != [] {
      var init, last := rows[..|rows| - 1], rows[|rows| - 1];
      assert SortedBy(init, RowLeq);
      TrialRowsInIndexOrder(init, t);
      RowsOfTrialMembers(init, t);
      var r0 := RowsOfTrial(init, t);
      forall x | x in r0 ensures RowLeq(x, last) {
        var i :| 0 <= i < |init| && init[i] == x;
      }
    }
  }

  /** What one trial of the grouping holds: the resource ids of its rows. */
  function IdsOfTrial(rows: seq<ViewRow>, t: int): seq<ResourceId> {
    ResourceIdList(RowsOfTrial(rows, t))
  }

  /** `keys` are the distinct `trial` values of `rows` in ascending order, and
      `trials[g]` lists the resource ids of the rows of trial `keys[g]`. */
  ghost predicate GroupedByTrial(rows: seq<ViewRow>, keys: seq<int>, trials: seq<seq<ResourceId>>) {
    && |keys| == |trials|
    && (forall a, b :: 0 <= a < b < |keys| ==> keys[a] < keys[b])
    && (forall g :: 0 <= g < |keys| ==> trials[g] != [] && trials[g] == IdsOfTrial(rows, keys[g]))
    && (forall i :: 0 <= i < |rows| ==> rows[i].trial in keys)
  }

  /** One more row seen: the ids of each trial gain that row's id, if it belongs there. */
  lemma IdsOfTrialSnoc(rows: seq<ViewRow>, row: ViewRow, t: int)
    ensures IdsOfTrial(rows + [row], t) == IdsOfTrial(rows, t) + (if row.trial == t then [row.resourceId] else [])
  {
    assert (rows + [row])[..|rows|] == rows;
    var r0 := RowsOfTrial(rows, t);
    if row.trial == t {
      assert RowsOfTrial(rows + [row], t) == r0 + [row];
      assert (r0 + [row])[..|r0|] == r0;
    } else {
      assert RowsOfTrial(rows + [row], t) == r0 + [] == r0;
    }
  }

  /** A row of the trial currently being collected extends the last group. */
  lemma GroupExtend(rows: seq<ViewRow>, row: ViewRow, keys: seq<int>, trials: seq<seq<ResourceId>>)
    requires GroupedByTrial(rows, keys, trials)
    requires keys != [] && keys[|keys| - 1] == row.trial
    ensures GroupedByTrial(rows + [row], keys, trials[..|trials| - 1] + [trials[|trials| - 1] + [row.resourceId]])
  {
    var next := rows + [row];
    var trials' := trials[..|trials| - 1] + [trials[|trials| - 1] + [row.resourceId]];
    forall g | 0 <= g < |keys| ensures trials'[g] != [] && trials'[g] == IdsOfTrial(next, keys[g]) {
      IdsOfTrialSnoc(rows, row, keys[g]);
      if g < |keys| - 1 {
        assert keys[g] < keys[|keys| - 1];
      }
    }
    forall i | 0 <= i < |next| ensures next[i].trial in keys {
      if i < |rows| {
        assert next[i] == rows[i];
      }
    }
  }

  /** A row of a trial above every trial seen so far opens a new group. */
  lemma GroupOpen(rows: seq<ViewRow>, row: ViewRow, keys: seq<int>, trials: seq<seq<ResourceId>>)
    requires GroupedByTrial(rows, keys, trials)
    requires forall g :: 0 <= g < |keys| ==> keys[g] < row.trial
    ensures GroupedByTrial(rows + [row], keys + [row.trial], trials + [[row.resourceId]])
  {
    var next := rows + [row];
    var keys', trials' := keys + [row.trial], trials + [[row.resourceId]];
    forall i | 0 <= i < |rows| ensures rows[i].trial != row.trial {
      var g :| 0 <= g < |keys| && keys[g] == rows[i].trial;
    }
    RowsOfTrialAbsent(rows, row.trial);
    forall g | 0 <= g < |keys'| ensures trials'[g] != [] && trials'[g] == IdsOfTrial(next, keys'[g]) {
      IdsOfTrialSnoc(rows, row, keys'[g]);
    }
    forall i | 0 <= i < |next| ensures next[i].trial in keys' {
      if i < |rows| {
        assert next[i] == rows[i];
      }
    }
  }

  /** What the grouping loop keeps after the first `i` sorted rows. */
  ghost predicate Grouping(sorted: seq<ViewRow>, i: int, keys: seq<int>, trials: seq<seq<ResourceId>>) {
    && 0 <= i <= |sorted|
    && GroupedByTrial(sorted[..i], keys, trials)
    && Flatten(trials) == ResourceIdList(sorted[..i])
    && (i > 0 ==> keys != [] && keys[|keys| - 1] == sorted[i - 1].trial)
    && (i == 0 ==> keys == [])
  }

  /** A row of the current trial joins the last group. */
  lemma GroupStepExtend(sorted: seq<ViewRow>, i: nat, keys: seq<int>, trials: seq<seq<ResourceId>>)
    requires Grouping(sorted, i, keys, trials) && i < |sorted|
    requires keys != [] && keys[|keys| - 1] == sorted[i].trial
    ensures trials != []
    ensures Grouping(sorted, i + 1, keys, trials[..|trials| - 1] + [trials[|trials| - 1] + [sorted[i].resourceId]])
  {
    var row := sorted[i];
    assert sorted[..i + 1] == sorted[..i] + [row];
    GroupExtend(sorted[..i], row, keys, trials);
    FlattenExtendLast(trials, row.resourceId);
  }

  /** A row of a later trial opens a new group. */
  lemma GroupStepOpen(sorted: seq<ViewRow>, i: nat, keys: seq<int>, trials: seq<seq<ResourceId>>)
    requires SortedBy(sorted, RowLeq)
    requires Grouping(sorted, i, keys, trials) && i < |sorted|
    requires !(keys != [] && keys[|keys| - 1] == sorted[i].trial)
    ensures Grouping(sorted, i + 1, keys + [sorted[i].trial], trials + [[sorted[i].resourceId]])
  {
    var row := sorted[i];
    assert sorted[..i + 1] == sorted[..i] + [row];
    assert forall g :: 0 <= g < |keys| ==> keys[g] < row.trial by {
      if i > 0 {
        assert RowLeq(sorted[i - 1], row);
        assert keys[|keys| - 1] < row.trial;
      }
    }
    GroupOpen(sorted[..i], row, keys, trials);
    FlattenSnoc(trials, [row.resourceId]);
  }

  /** `for trial_id, gdf in df_view.groupby("trial")`, collecting each group's
      resource ids, over rows already sorted by (trial, index_order). */
  method GroupByTrial(sorted: seq<ViewRow>) returns (keys: seq<int>, trials: seq<seq<ResourceId>>)
    requires SortedBy(sorted, RowLeq)
    ensures GroupedByTrial(sorted, keys, trials)
    ensures Flatten(trials) == ResourceIdList(sorted)
  {
    keys, trials := [], [];
    var i := 0;
    while i < |sorted|
      invariant Grouping(sorted, i, keys, trials)
    {
      var row := sorted[i];
      if keys != [] && keys[|keys| - 1] == row.trial {
        GroupStepExtend(sorted, i, keys, trials);
        trials := trials[..|trials| - 1] + [trials[|trials| - 1] + [row.resourceId]];
      } else {
        GroupStepOpen(sorted, i, keys, trials);
        keys := keys + [row.trial];
        trials := trials + [[row.resourceId]];
      }
      i := i + 1;
    }
    assert sorted[..|sorted|] == sorted;
  }

  /** The resource ids of the rows are exactly the members of the id column. */
  lemma {:induction false} ResourceIdListMembers(rows: seq<ViewRow>)
    ensures forall x :: x in ResourceIdList(rows) <==> x in ResourceIds(rows)
    decreases |rows|
  {
    if rows != [] {
      var init := rows[..|rows| - 1];
      ResourceIdListMembers(init);
      assert ResourceIds(rows) == ResourceIds(init) + {rows[|rows| - 1].resourceId} by {
        forall x | x in ResourceIds(rows) ensures x in ResourceIds(init) + {rows[|rows| - 1].resourceId} {
          var i :| 0 <= i < |rows| && rows[i].resourceId == x;
          if i < |rows| - 1 {
            assert init[i] == rows[i];
          }
        }
        forall x | x in ResourceIds(init) ensures x in ResourceIds(rows) {
          var i :| 0 <= i < |init| && init[i].resourceId == x;
          assert rows[i] == init[i];
        }
      }
    }
  }

  /** `{res_id: 0.0 for res_id in unique_res_ids}`. */
  function ZeroValues(ids: set<ResourceId>): (v: map<ResourceId, real>)
    ensures v.Keys == ids
    ensures forall k :: k in v ==> v[k] == 0.0
  {
    map k | k in ids :: 0.0
  }

  /** Rearranging rows does not change which resource ids occur in them. */
  lemma ResourceIdsOfPermutation(a: seq<ViewRow>, b: seq<ViewRow>)
    requires multiset(a) == multiset(b)
    ensures ResourceIds(a) == ResourceIds(b)
  {
    forall x | x in ResourceIds(a) ensures x in ResourceIds(b) {
      var i :| 0 <= i < |a| && a[i].resourceId == x;
      assert a[i] in multiset(b);
      var j :| 0 <= j < |b| && b[j] == a[i];
    }
    forall x | x in ResourceIds(b) ensures x in ResourceIds(a) {
      var j :| 0 <= j < |b| && b[j].resourceId == x;
      assert b[j] in multiset(a);
      var i :| 0 <= i < |a| && a[i] == b[j];
    }
  }

  /** The `grouped-by-trial` relation, with the trial keys hidden. */
  ghost predicate TrialsOf(sorted: seq<ViewRow>, trials: seq<seq<ResourceId>>) {
    exists keys :: GroupedByTrial(sorted, keys, trials)
  }

  /** Every id of every trial is the resource id of some row. */
  lemma TrialIdsOccur(sorted: seq<ViewRow>, trials: seq<seq<ResourceId>>)
    requires TrialsOf(sorted, trials)
    ensures forall t, i :: 0 <= t < |trials| && 0 <= i < |trials[t]| ==> trials[t][i] in ResourceIds(sorted)
  {
    var keys :| GroupedByTrial(sorted, keys, trials);
    forall t, i | 0 <= t < |trials| && 0 <= i < |trials[t]| ensures trials[t][i] in ResourceIds(sorted) {
      var group := RowsOfTrial(sorted, keys[t]);
      ResourceIdListLength(group);
      ResourceIdListAt(group, i);
      RowsOfTrialMembers(sorted, keys[t]);
      assert group[i] in sorted;
      var j :| 0 <= j < |sorted| && sorted[j] == group[i];
    }
  }

  /** `m` maps exactly the keys of `entries`, each to the value of the LAST
      entry carrying that key. */
  ghost predicate IsLastWinsMap(m: map<ResourceId, string>, entries: seq<(ResourceId, string)>) {
    && m.Keys == (set i | 0 <= i < |entries| :: entries[i].0)
    && (forall i :: 0 <= i < |entries| && (forall j :: i < j < |entries| ==> entries[j].0 != entries[i].0)
          ==> m[entries[i].0] == entries[i].1)
  }

  /** `audio_map[res_id] = path` for each row in turn. */
  method BuildAudioMap(entries: seq<(ResourceId, string)>) returns (m: map<ResourceId, string>)
    ensures IsLastWinsMap(m, entries)
  {
    m := map[];
    var i := 0;
    while i < |entries|
      invariant 0 <= i <= |entries|
      invariant IsLastWinsMap(m, entries[..i])
    {
      var prefix, next := entries[..i], entries[..i + 1];
      assert next[..i] == prefix && next[i] == entries[i];
      m := m[entries[i].0 := entries[i].1];
      i := i + 1;
    }
    assert entries[..|entries|] == entries;
  }
}
