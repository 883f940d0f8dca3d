/** The Flask backend (`www-react/backend/app.py`): the trials endpoint, which
    groups the rows of one sequence into trials, builds the id-to-path map and
    sets up the sequence's value table once, and the submit endpoint, which
    validates the request and records one trial result. */
module Backend {
  import opened Wrappers
  import opened Text
  import opened Seqs
  import opened Sorting
  import opened SequenceView
  import opened Database

  /** Reply of `GET /api/trials/<sequence_id>`. */
  datatype TrialsReply =
    | TrialsOk(trials: seq<seq<ResourceId>>, audioMap: map<ResourceId, string>)
    | TrialsError(status: int, message: string)

  /** The JSON body of a submit request; an absent field is `None`. */
  datatype SubmitBody = SubmitBody(
    participantName: Option<string>,
    bestStimulus: Option<int>,
    worstStimulus: Option<int>,
    resourcesInTrial: seq<int>)

  /** Reply of `POST /api/trials/<sequence_id>/<trial_index>/submit`. */
  datatype SubmitReply = Submitted(message: string) | SubmitError(status: int, message: string)

  /** The (resource id, `resource_folder_paths`) pairs the audio map is built from. */
  function FolderPathEntries(rows: seq<ViewRow>): (entries: seq<(ResourceId, string)>)
    ensures |entries| == |rows|
    ensures forall i :: 0 <= i < |rows| ==> entries[i] == (rows[i].resourceId, rows[i].resourceFolderPaths)
  {
    seq(|rows|, i requires 0 <= i < |rows| => (rows[i].resourceId, rows[i].resourceFolderPaths))
  }

  /** The keys of a last-wins map over the rows' pairs are the rows' resource ids. */
  lemma FolderPathMapKeys(rows: seq<ViewRow>, m: map<ResourceId, string>)
    requires IsLastWinsMap(m, FolderPathEntries(rows))
    ensures m.Keys == ResourceIds(rows)
  {
    var entries := FolderPathEntries(rows);
    assert (set i | 0 <= i < |entries| :: entries[i].0) == ResourceIds(rows) by {
      forall x ensures x in (set i | 0 <= i < |entries| :: entries[i].0) <==> x in ResourceIds(rows) {
        if x in ResourceIds(rows) {
          var i :| 0 <= i < |rows| && rows[i].resourceId == x;
          assert entries[i].0 == x;
        }
      }
    }
  }

  class Server {
    /** The module-level `V_values`: per sequence, the value of each resource. */
    var vValues: map<int, map<ResourceId, real>>
    /** The tables behind `db_manager`. */
    const db: Db

    constructor (db: Db)
      ensures this.db == db && vValues == map[]
    {
      this.db := db;
      vValues := map[];
    }

    /** `get_trials`: a 404 with nothing changed when the sequence has no
        rows; otherwise the trials (one list per `trial` value, ascending,
        each in `index_order`), the audio map (last sorted row wins) and, only
        if the sequence has no value table yet, a fresh one at 0 for every
        resource id of the sequence. */
    method GetTrials(sequenceId: nat, view: seq<ViewRow>) returns (reply: TrialsReply)
      modifies this`vValues
      ensures RowsOfSequence(view, sequenceId) == [] ==>
        reply == TrialsError(404, "No rows found for sequence_id=" + DecimalString(sequenceId))
        && vValues == old(vValues)
      ensures RowsOfSequence(view, sequenceId) != [] ==>
        var rows := RowsOfSequence(view, sequenceId);
        var sorted := SortRows(rows);
        && reply.TrialsOk?
        && TrialsOf(sorted, reply.trials)
        && Flatten(reply.trials) == ResourceIdList(sorted)
        && IsLastWinsMap(reply.audioMap, FolderPathEntries(sorted))
        && reply.audioMap.Keys == ResourceIds(rows)
        && vValues == if sequenceId in old(vValues) then old(vValues)
                      else old(vValues)[sequenceId := ZeroValues(ResourceIds(rows))]
    {
      var rows := RowsOfSequence(view, sequenceId);
      if rows == [] {
        return TrialsError(404, "No rows found for sequence_id=" + DecimalString(sequenceId));
      }
      var sorted := SortRows(rows);
      ResourceIdsOfPermutation(rows, sorted);
      if sequenceId !in vValues {
        vValues := vValues[sequenceId := ZeroValues(ResourceIds(sorted))];
      }
      var keys, trials := GroupByTrial(sorted);
      var audioMap := BuildAudioMap(FolderPathEntries(sorted));
      FolderPathMapKeys(sorted, audioMap);
      reply := TrialsOk(trials, audioMap);
    }

    /** `submit_trial`: a missing or empty participant name is answered with
        400 and nothing is written; otherwise the participant is looked up or
        created and exactly one `trial_results` row is appended, whatever the
        choices are (equal or absent choices are not rejected). */
    method SubmitTrial(sequenceId: nat, trialIndex: nat, body: SubmitBody) returns (reply: SubmitReply)
      requires db.Valid()
      modifies db`participants, db`nextParticipantId, db`trialResults
      ensures db.Valid()
      ensures body.participantName.None? || body.participantName.value == "" ==>
        reply == SubmitError(400, "Missing fields in request")
        && db.participants == old(db.participants) && db.trialResults == old(db.trialResults)
        && db.nextParticipantId == old(db.nextParticipantId)
      ensures body.participantName.Some? && body.participantName.value != "" ==>
        reply == Submitted("Submitted successfully")
        && FirstIdNamed(db.participants, body.participantName.value).Some?
        && db.trialResults == old(db.trialResults) + [TrialResult(
             FirstIdNamed(db.participants, body.participantName.value).value,
             sequenceId, trialIndex, body.bestStimulus, body.worstStimulus)]
      ensures (body.participantName.Some? && body.participantName.value != ""
          && old(FirstIdNamed(db.participants, body.participantName.value)).Some?) ==>
        db.participants == old(db.participants) && db.nextParticipantId == old(db.nextParticipantId)
      ensures (body.participantName.Some? && body.participantName.value != ""
          && old(FirstIdNamed(db.participants, body.participantName.value)).None?) ==>
        db.participants == old(db.participants) + [Participant(old(db.nextParticipantId), body.participantName.value)]
        && db.nextParticipantId == old(db.nextParticipantId) + 1
    {
      if body.participantName.None? || body.participantName.value == "" {
        return SubmitError(400, "Missing fields in request");
      }
      var participantId := db.GetOrCreateParticipant(body.participantName.value);
      db.AppendTrialResult(TrialResult(participantId, sequenceId, trialIndex,
                                       body.bestStimulus, body.worstStimulus));
      reply := Submitted("Submitted successfully");
    }
  }

  /** A second trials request for the same sequence keeps the value table the
      first one created, even if it were to see other rows. */
  method InitOnceWalkthrough(db: Db, view: seq<ViewRow>, other: seq<ViewRow>) {
    var server := new Server(db);
    var reply := server.GetTrials(7, view);
    if reply.TrialsOk? {
      var first := server.vValues[7];
      reply := server.GetTrials(7, other);
      assert server.vValues[7] == first;
    } else {
      assert server.vValues == map[];
    }
  }
}
