/** The trial-set generator (`scripts/sequence_generator.py`): every stimulus
    id gets a budget of `repeats` uses; sets of `setSize` distinct ids with
    budget left are drawn until fewer than `setSize` ids have any budget, and
    the sets become the rows of the `sequences` table. */
module SequenceGenerator {
  import opened Wrappers
  import opened Seqs

  type StimulusId = int

  /** `[sid for sid, count in file_counts.items() if count > 0]`: the ids with
      budget left, in key order. */
  function Available(keys: seq<StimulusId>, counts: map<StimulusId, int>): (r: seq<StimulusId>)
    requires forall k :: k in keys ==> k in counts
    ensures |r| <= |keys|
    ensures forall x :: x in r <==> x in keys && counts[x] > 0
    ensures Distinct(keys) ==> Distinct(r)
  {
    if keys == [] then []
    else
      var init, k := keys[..|keys| - 1], keys[|keys| - 1];
      assert forall x :: x in keys <==> x in init || x == k;
      assert Distinct(keys) ==> Distinct(init) && k !in init;
      Available(init, counts) + (if counts[k] > 0 then [k] else [])
  }

  /** The total budget left: the sum of the positive counts. */
  function Remaining(keys: seq<StimulusId>, counts: map<StimulusId, int>): nat
    requires forall k :: k in keys ==> k in counts
  {
    if keys == [] then 0
    else
      var init, k := keys[..|keys| - 1], keys[|keys| - 1];
      Remaining(init, counts) + (if counts[k] > 0 then counts[k] else 0)
  }

  /** Changing the count of an id that is not a key leaves the total alone. */
  lemma {:induction false} RemainingFrame(keys: seq<StimulusId>, counts: map<StimulusId, int>, x: StimulusId, v: int)
    requires forall k :: k in keys ==> k in counts
    requires x !in keys
    ensures Remaining(keys, counts[x := v]) == Remaining(keys, counts)
    decreases |keys|
  {
    if keys != [] {
      RemainingFrame(keys[..|keys| - 1], counts, x, v);
    }
  }

  /** Using one unit of an id with budget left lowers the total by one. */
  lemma {:induction false} RemainingDecrement(keys: seq<StimulusId>, counts: map<StimulusId, int>, x: StimulusId)
    requires forall k :: k in keys ==> k in counts
    requires Distinct(keys) && x in keys && counts[x] > 0
    ensures Remaining(keys, counts[x := counts[x] - 1]) == Remaining(keys, counts) - 1
    decreases |keys|
  {
    var init, k := keys[..|keys| - 1], keys[|keys| - 1];
    assert Distinct(init);
    if k == x {
      assert x !in init;
      RemainingFrame(init, counts, x, counts[x] - 1);
    } else {
      assert x in init;
      RemainingDecrement(init, counts, x);
    }
  }

  /** `[sid for sid, count in file_counts.items() for _ in range(count)]`. */
  function Leftover(keys: seq<StimulusId>, counts: map<StimulusId, int>): seq<StimulusId>
    requires forall k :: k in keys ==> k in counts
  {
    if keys == [] then []
    else
      var init, k := keys[..|keys| - 1], keys[|keys| - 1];
      Leftover(init, counts) + Repeat(k, counts[k])
  }

  /** Each key occurs in the leftover list as often as its (non-negative)
      count says, and nothing else occurs in it. */
  lemma {:induction false} LeftoverOcc(keys: seq<StimulusId>, counts: map<StimulusId, int>, x: StimulusId)
    requires forall k :: k in keys ==> k in counts
    requires Distinct(keys)
    ensures Occ(Leftover(keys, counts), x) == if x in keys && counts[x] > 0 then counts[x] else 0
    decreases |keys|
  {
    if keys != [] {
      var init, k := keys[..|keys| - 1], keys[|keys| - 1];
      assert Distinct(init) && k !in init;
      assert x in keys <==> x in init || x == k;
      LeftoverOcc(init, counts, x);
      OccConcat(Leftover(init, counts), Repeat(k, counts[k]), x);
      if counts[k] > 0 {
        OccRepeat(k, counts[k], x);
      }
    }
  }

  /** `random.sample(available, k)`: `k` distinct members of `available`. */
  predicate IsSample(group: seq<StimulusId>, available: seq<StimulusId>, k: nat) {
    |group| == k && Distinct(group) && forall i :: 0 <= i < |group| ==> group[i] in available
  }

  /** The counts after `sets` have been drawn from a budget of `repeats` each. */
  function CountsAfter(keys: seq<StimulusId>, repeats: int, sets: seq<seq<StimulusId>>): (m: map<StimulusId, int>)
    ensures forall k :: k in m <==> k in keys
  {
    map k | k in keys :: repeats - Occ(Flatten(sets), k)
  }

  /** Drawing `group` from counts that record the sets drawn so far gives
      counts that record one more set, and keeps every count non-negative. */
  lemma DrawRecorded(repeats: int, allSets: seq<seq<StimulusId>>, group: seq<StimulusId>,
                     before: map<StimulusId, int>, after: map<StimulusId, int>)
    requires forall k :: k in before ==> before[k] == repeats - Occ(Flatten(allSets), k)
    requires repeats >= 0 ==> forall k :: k in before ==> before[k] >= 0
    requires Distinct(group) && forall i :: 0 <= i < |group| ==> group[i] in before && before[group[i]] > 0
    requires forall k :: k in after <==> k in before
    requires forall k :: k in after ==> after[k] == before[k] - Occ(group, k)
    ensures forall k :: k in after ==> after[k] == repeats - Occ(Flatten(allSets + [group]), k)
    ensures repeats >= 0 ==> forall k :: k in after ==> after[k] >= 0
  {
    FlattenSnoc(allSets, group);
    forall k | k in after
      ensures after[k] == repeats - Occ(Flatten(allSets + [group]), k)
      ensures repeats >= 0 ==> after[k] >= 0
    {
      OccConcat(Flatten(allSets), group, k);
      OccDistinct(group, k);
    }
  }

  /** Counts that record `sets` are the counts `CountsAfter` computes. */
  lemma CountsRecorded(keys: seq<StimulusId>, repeats: int, sets: seq<seq<StimulusId>>, counts: map<StimulusId, int>)
    requires forall k :: k in counts <==> k in keys
    requires forall k :: k in counts ==> counts[k] == repeats - Occ(Flatten(sets), k)
    ensures counts == CountsAfter(keys, repeats, sets)
  {
    var after := CountsAfter(keys, repeats, sets);
    forall k ensures k in counts <==> k in after {
    }
    assert counts.Keys == after.Keys;
    forall k | k in counts ensures counts[k] == after[k] {
    }
  }

  /** With no negative count, each key's uses in the sets plus its copies in
      the leftover list make up the whole budget. */
  lemma LeftoverConserves(keys: seq<StimulusId>, repeats: int, sets: seq<seq<StimulusId>>, counts: map<StimulusId, int>, x: StimulusId)
    requires Distinct(keys) && x in keys
    requires forall k :: k in counts <==> k in keys
    requires forall k :: k in counts ==> counts[k] == repeats - Occ(Flatten(sets), k) && counts[k] >= 0
    ensures Occ(Flatten(sets), x) + Occ(Leftover(keys, counts), x) == repeats
  {
    LeftoverOcc(keys, counts, x);
  }

  /** The leftover list holds exactly the ids still available, so it has
      fewer distinct members than a set needs when no further set can be drawn. */
  lemma LeftoverFewDistinct(keys: seq<StimulusId>, counts: map<StimulusId, int>, setSize: nat)
    requires Distinct(keys)
    requires forall k :: k in keys ==> k in counts
    requires |Available(keys, counts)| < setSize
    ensures |set x | x in Leftover(keys, counts)| < setSize
  {
    var leftover := Leftover(keys, counts);
    var available := Available(keys, counts);
    forall x ensures x in leftover <==> x in available {
      LeftoverOcc(keys, counts, x);
    }
    assert (set x | x in leftover) == (set x | x in available);
    DistinctCard(available);
  }

  /** The `j`-th id of a list without repetitions is not among the ids before it. */
  lemma NotYetUsed(group: seq<StimulusId>, j: nat)
    requires Distinct(group) && j < |group|
    ensures Occ(group[..j], group[j]) == 0
  {
    assert group[j] !in group[..j];
  }

  /** Counting in one more element of a prefix. */
  lemma OccPrefixStep(group: seq<StimulusId>, j: nat, k: StimulusId)
    requires j < |group|
    ensures Occ(group[..j + 1], k) == Occ(group[..j], k) + (if group[j] == k then 1 else 0)
  {
    assert group[..j + 1][..j] == group[..j];
  }

  /** One decrement of `UseOnce`: the `j`-th id of the group still has budget,
      and using it keeps the loop's bookkeeping. */
  lemma UseStep(keys: seq<StimulusId>, counts: map<StimulusId, int>, group: seq<StimulusId>,
                j: nat, after: map<StimulusId, int>)
    requires forall k :: k in counts <==> k in keys
    requires Distinct(keys) && Distinct(group)
    requires forall i :: 0 <= i < |group| ==> group[i] in counts && counts[group[i]] > 0
    requires j < |group|
    requires after.Keys == counts.Keys
    requires forall k :: k in after ==> after[k] == counts[k] - Occ(group[..j], k)
    requires Remaining(keys, after) == Remaining(keys, counts) - j
    ensures group[j] in after && after[group[j]] > 0
    ensures var next := after[group[j] := after[group[j]] - 1];
      next.Keys == counts.Keys
      && (forall k :: k in next ==> next[k] == counts[k] - Occ(group[..j + 1], k))
      && Remaining(keys, next) == Remaining(keys, counts) - (j + 1)
  {
    var sid := group[j];
    NotYetUsed(group, j);
    assert sid in after && after[sid] > 0;
    RemainingDecrement(keys, after, sid);
    var next := after[sid := after[sid] - 1];
    forall k | k in next ensures next[k] == counts[k] - Occ(group[..j + 1], k) {
      OccPrefixStep(group, j, k);
    }
  }

  /** `for sid in group: file_counts[sid] -= 1`, for distinct ids that all
      have budget left. */
  method UseOnce(keys: seq<StimulusId>, counts: map<StimulusId, int>, group: seq<StimulusId>)
      returns (after: map<StimulusId, int>)
    requires forall k :: k in counts <==> k in keys
    requires Distinct(keys) && Distinct(group)
    requires forall i :: 0 <= i < |group| ==> group[i] in counts && counts[group[i]] > 0
    ensures forall k :: k in after <==> k in keys
    ensures forall k :: k in after ==> after[k] == counts[k] - Occ(group, k)
    ensures Remaining(keys, after) == Remaining(keys, counts) - |group|
  {
    after := counts;
    var j := 0;
    while j < |group|
      invariant 0 <= j <= |group|
      invariant after.Keys == counts.Keys
      invariant forall k :: k in after ==> after[k] == counts[k] - Occ(group[..j], k)
      invariant Remaining(keys, after) == Remaining(keys, counts) - j
    {
      var sid := group[j];
      UseStep(keys, counts, group, j, after);
      after := after[sid := after[sid] - 1];
      j := j + 1;
    }
    assert group[..|group|] == group;
  }

  /** The state the drawing loop keeps: every key has a count, each count is
      the budget less the uses in the sets drawn so far, and every set drawn
      holds `setSize` distinct keys. */
  ghost predicate Drawing(keys: seq<StimulusId>, repeats: int, setSize: nat,
                          counts: map<StimulusId, int>, allSets: seq<seq<StimulusId>>)
  {
    (forall k :: k in counts <==> k in keys)
    && (forall k :: k in counts ==> counts[k] == repeats - Occ(Flatten(allSets), k))
    && (repeats >= 0 ==> forall k :: k in counts ==> counts[k] >= 0)
    && (repeats < 0 ==> allSets == [])
    && (forall t :: 0 <= t < |allSets| ==> |allSets[t]| == setSize && Distinct(allSets[t]))
    && (forall x :: x in Flatten(allSets) ==> x in keys)
  }

  /** One round of the `while` loop: `random.sample` picks `setSize` ids with
      budget left, their counts drop by one, and the sample is appended. */
  method DrawSet(keys: seq<StimulusId>, repeats: int, setSize: nat,
                 counts: map<StimulusId, int>, allSets: seq<seq<StimulusId>>)
      returns (counts': map<StimulusId, int>, allSets': seq<seq<StimulusId>>)
    requires setSize >= 1 && Distinct(keys)
    requires Drawing(keys, repeats, setSize, counts, allSets)
    requires |Available(keys, counts)| >= setSize
    ensures Drawing(keys, repeats, setSize, counts', allSets')
    ensures |allSets'| == |allSets| + 1 && allSets'[..|allSets|] == allSets
    ensures IsSample(allSets'[|allSets|], Available(keys, counts), setSize)
    ensures Remaining(keys, counts') == Remaining(keys, counts) - setSize
  {
    var available := Available(keys, counts);
    assert IsSample(available[..setSize], available, setSize) by {
      assert Distinct(available);
    }
    var group :| IsSample(group, available, setSize);
    assert IsSample(group, available, setSize);
    assert repeats >= 0 by {
      var x := available[0];
      assert x in available;
      if allSets == [] {
        assert Occ(Flatten(allSets), x) == 0;
      }
    }
    forall i | 0 <= i < |group| ensures group[i] in counts && counts[group[i]] > 0 {
      assert group[i] in available;
    }
    counts' := UseOnce(keys, counts, group);
    DrawRecorded(repeats, allSets, group, counts, counts');
    FlattenSnoc(allSets, group);
    allSets' := allSets + [group];
    forall t | 0 <= t < |allSets'| ensures |allSets'[t]| == setSize && Distinct(allSets'[t]) {
      if t < |allSets| {
        assert allSets'[t] == allSets[t];
      }
    }
    assert allSets'[..|allSets|] == allSets;
  }

  /** `create_sets_of_stimuli`, with `random.sample` as a free choice among
      the valid samples. */
  method CreateSetsOfStimuli(stimuliIds: seq<StimulusId>, repeats: int, setSize: nat)
      returns (allSets: seq<seq<StimulusId>>, leftover: seq<StimulusId>)
    requires setSize >= 1
    ensures forall t :: 0 <= t < |allSets| ==> |allSets[t]| == setSize && Distinct(allSets[t])
    ensures forall x :: x in Flatten(allSets) ==> x in stimuliIds
    ensures forall x :: x in stimuliIds ==> Occ(Flatten(allSets), x) <= if repeats > 0 then repeats else 0
    ensures repeats >= 0 ==> forall x :: x in stimuliIds ==> Occ(Flatten(allSets), x) + Occ(leftover, x) == repeats
    ensures |set x | x in leftover| < setSize
    ensures leftover == Leftover(Unique(stimuliIds), CountsAfter(Unique(stimuliIds), repeats, allSets))
  {
    var keys := Unique(stimuliIds);
    UniqueMembers(stimuliIds);
    var counts := map k | k in keys :: repeats;
    allSets := [];
    while |Available(keys, counts)| >= setSize
      invariant Drawing(keys, repeats, setSize, counts, allSets)
      decreases Remaining(keys, counts)
    {
      counts, allSets := DrawSet(keys, repeats, setSize, counts, allSets);
    }
    leftover := Leftover(keys, counts);
    CountsRecorded(keys, repeats, allSets, counts);
    LeftoverFewDistinct(keys, counts, setSize);
    if repeats >= 0 {
      forall x | x in stimuliIds
        ensures Occ(Flatten(allSets), x) + Occ(leftover, x) == repeats
      {
        LeftoverConserves(keys, repeats, allSets, counts, x);
      }
    }
  }

  datatype SequenceRow = SequenceRow(sequenceId: int, stimuliId: StimulusId, trial: nat, indexOrder: nat)

  /** The row of `sequence_info`; `time_created` is not modelled. */
  datatype SequenceInfo = SequenceInfo(
    sequenceId: int,
    sequenceName: string,
    folderPath: string,
    choiceSetSize: nat,
    nTrials: nat)

  /** Where the rows of set `t` start. */
  function Offset(sets: seq<seq<StimulusId>>, t: nat): nat
    requires t <= |sets|
  {
    |Flatten(sets[..t])|
  }

  /** The rows of one set: position `k` of set `t` is `(sequenceId, id, t, k)`. */
  function SetRows(sequenceId: int, group: seq<StimulusId>, t: nat): (rows: seq<SequenceRow>)
    ensures |rows| == |group|
  {
    seq(|group|, k requires 0 <= k < |group| => SequenceRow(sequenceId, group[k], t, k))
  }

  /** The rows of all sets, one set after the other. */
  function RowsOf(sequenceId: int, sets: seq<seq<StimulusId>>): seq<SequenceRow>
  {
    if sets == [] then []
    else RowsOf(sequenceId, sets[..|sets| - 1]) + SetRows(sequenceId, sets[|sets| - 1], |sets| - 1)
  }

  /** There is one row per element of the flattened sets. */
  lemma {:induction false} RowsOfLength(sequenceId: int, sets: seq<seq<StimulusId>>)
    ensures |RowsOf(sequenceId, sets)| == |Flatten(sets)|
    decreases |sets|
  {
    if sets != [] {
      RowsOfLength(sequenceId, sets[..|sets| - 1]);
    }
  }

  /** The row at the position of set `t`, element `k` carries that element,
      `trial = t` and `index_order = k`. */
  lemma {:induction false} RowsOfAt(sequenceId: int, sets: seq<seq<StimulusId>>, t: nat, k: nat)
    requires t < |sets| && k < |sets[t]|
    ensures Offset(sets, t) + k < |RowsOf(sequenceId, sets)|
    ensures RowsOf(sequenceId, sets)[Offset(sets, t) + k] == SequenceRow(sequenceId, sets[t][k], t, k)
    decreases |sets|
  {
    var init := sets[..|sets| - 1];
    RowsOfLength(sequenceId, init);
    if t == |sets| - 1 {
      assert sets[..t] == init;
    } else {
      assert sets[..t] == init[..t];
      RowsOfAt(sequenceId, init, t, k);
    }
  }

  /** The nested `enumerate` loop of `main`. */
  method SequenceRows(sequenceId: int, allSets: seq<seq<StimulusId>>) returns (rows: seq<SequenceRow>)
    ensures rows == RowsOf(sequenceId, allSets)
  {
    rows := [];
    var t := 0;
    while t < |allSets|
      invariant 0 <= t <= |allSets|
      invariant rows == RowsOf(sequenceId, allSets[..t])
    {
      var group := allSets[t];
      var k := 0;
      while k < |group|
        invariant 0 <= k <= |group|
        invariant rows == RowsOf(sequenceId, allSets[..t]) + SetRows(sequenceId, group[..k], t)
      {
        assert SetRows(sequenceId, group[..k + 1], t) == SetRows(sequenceId, group[..k], t) + [SequenceRow(sequenceId, group[k], t, k)];
        rows := rows + [SequenceRow(sequenceId, group[k], t, k)];
        k := k + 1;
      }
      assert group[..k] == group;
      assert allSets[..t + 1][..t] == allSets[..t];
      t := t + 1;
    }
    assert allSets[..t] == allSets;
  }

  /** The ids of the resources stored under `folderPath`, in table order. */
  function IdsUnder(resources: seq<(StimulusId, string)>, folderPath: string): (ids: seq<StimulusId>)
    ensures forall x :: x in ids <==> exists j :: 0 <= j < |resources| && resources[j] == (x, folderPath)
  {
    if resources == [] then []
    else
      var init, last := resources[..|resources| - 1], resources[|resources| - 1];
      assert forall j :: 0 <= j < |init| ==> init[j] == resources[j];
      IdsUnder(init, folderPath) + (if last.1 == folderPath then [last.0] else [])
  }

  /** An id is listed as often as a resource under `folderPath` carries it. */
  lemma {:induction false} IdsUnderOcc(resources: seq<(StimulusId, string)>, folderPath: string, x: StimulusId)
    ensures Occ(IdsUnder(resources, folderPath), x) == Occ(resources, (x, folderPath))
    decreases |resources|
  {
    if resources != [] {
      var init, last := resources[..|resources| - 1], resources[|resources| - 1];
      IdsUnderOcc(init, folderPath, x);
      OccConcat(IdsUnder(init, folderPath), if last.1 == folderPath then [last.0] else [], x);
    }
  }

  /** The ids keep table order: those of a concatenation are those of each
      part, one after the other. */
  lemma {:induction false} IdsUnderConcat(a: seq<(StimulusId, string)>, b: seq<(StimulusId, string)>, folderPath: string)
    ensures IdsUnder(a + b, folderPath) == IdsUnder(a, folderPath) + IdsUnder(b, folderPath)
    decreases |b|
  {
    if b == [] {
      assert a + b == a;
    } else {
      assert (a + b)[..|a + b| - 1] == a + b[..|b| - 1];
      IdsUnderConcat(a, b[..|b| - 1], folderPath);
    }
  }

  /** `main`: the ids of the resources under `folderPath` (in table order), the
      sets drawn from them and the rows and info record to append; nothing when
      no resource lives under that path. */
  method GenerateSequence(resources: seq<(StimulusId, string)>, folderPath: string, repeats: int,
                          setSize: nat, sequenceId: int, sequenceName: string)
      returns (result: Option<(SequenceInfo, seq<SequenceRow>)>)
    requires setSize >= 1
    ensures result.None? <==> forall i :: 0 <= i < |resources| ==> resources[i].1 != folderPath
    ensures result.Some? ==>
      var (info, rows) := result.value;
      && info == SequenceInfo(sequenceId, sequenceName, folderPath, setSize, info.nTrials)
      && |rows| == info.nTrials * setSize
      && forall i :: 0 <= i < |rows| ==> rows[i].sequenceId == sequenceId && rows[i].trial < info.nTrials
                                         && rows[i].indexOrder < setSize
                                         && rows[i].stimuliId in IdsUnder(resources, folderPath)
  {
    var stimuliIds := [];
    var i := 0;
    while i < |resources|
      invariant 0 <= i <= |resources|
      invariant stimuliIds == [] <==> forall j :: 0 <= j < i ==> resources[j].1 != folderPath
      invariant stimuliIds == IdsUnder(resources[..i], folderPath)
    {
      assert resources[..i + 1][..i] == resources[..i];
      if resources[i].1 == folderPath {
        stimuliIds := stimuliIds + [resources[i].0];
      }
      i := i + 1;
    }
    assert resources[..i] == resources;
    if stimuliIds == [] {
      return None;
    }
    var allSets, leftover := CreateSetsOfStimuli(stimuliIds, repeats, setSize);
    var rows := SequenceRows(sequenceId, allSets);
    FlattenUniform(allSets, setSize);
    RowsOfLength(sequenceId, allSets);
    forall r | 0 <= r < |rows|
      ensures rows[r].sequenceId == sequenceId && rows[r].trial < |allSets| && rows[r].indexOrder < setSize
      ensures rows[r].stimuliId in stimuliIds
    {
      RowsOfBounds(sequenceId, allSets, r);
      FlattenContains(allSets, rows[r].trial, rows[r].indexOrder);
    }
    result := Some((SequenceInfo(sequenceId, sequenceName, folderPath, setSize, |allSets|), rows));
  }

  /** Every row names its sequence, a set of `sets` and a position in that set. */
  lemma {:induction false} RowsOfBounds(sequenceId: int, sets: seq<seq<StimulusId>>, r: nat)
    requires r < |RowsOf(sequenceId, sets)|
    ensures var row := RowsOf(sequenceId, sets)[r];
      && row.sequenceId == sequenceId && row.trial < |sets| && row.indexOrder < |sets[row.trial]|
      && row.stimuliId == sets[row.trial][row.indexOrder]
    decreases |sets|
  {
    var init := sets[..|sets| - 1];
    var prefix := RowsOf(sequenceId, init);
    if r < |prefix| {
      RowsOfBounds(sequenceId, init, r);
    }
  }
}
