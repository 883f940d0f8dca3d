/** The database tables the survey writes, as in-memory lists: `participants`
    (with the table's own id sequence), `trial_results`, `final_scores` and
    `resources`.
    The SQL engine, its connection handling and its logging are not modelled;
    reading a table is reading the list, appending rows is concatenation. */
module Database {
  import opened Wrappers

  datatype Participant = Participant(id: int, name: string)

  /** One row of `trial_results`; a skipped trial stores `null` choices. The
      `submitted_at` timestamp is not modelled. */
  datatype TrialResult = TrialResult(
    participantId: int,
    sequenceId: int,
    trialIndex: int,
    bestStimulus: Option<int>,
    worstStimulus: Option<int>)

  /** One row of `final_scores`; the `computed_at` timestamp is not modelled. */
  datatype FinalScore = FinalScore(
    participantId: int,
    sequenceId: int,
    resourceId: int,
    finalScore: real,
    rankPosition: int)

  /** `df[df["participant_name"] == name].iloc[0]["id"]`: the id of the first
      row with that name, `None` when the filtered frame is empty. */
  function FirstIdNamed(ps: seq<Participant>, name: string): (r: Option<int>)
    ensures r.None? <==> forall i :: 0 <= i < |ps| ==> ps[i].name != name
    ensures r.Some? ==> exists i :: 0 <= i < |ps| && ps[i].name == name && ps[i].id == r.value
                                   && forall j :: 0 <= j < i ==> ps[j].name != name
  {
    if ps == [] then None
    else if ps[0].name == name then Some(ps[0].id)
    else
      var r := FirstIdNamed(ps[1..], name);
      if r.Some? then
        var i :| 0 <= i < |ps[1..]| && ps[1..][i].name == name && ps[1..][i].id == r.value
                 && forall j :: 0 <= j < i ==> ps[1..][j].name != name;
        assert ps[i + 1].name == name && ps[i + 1].id == r.value;
        r
      else r
  }

  /** One row of `resources`: file name, stored path and description. */
  datatype ResourceRecord = ResourceRecord(filename: string, folderPath: string, description: string)

  /** How a script that loads `resources` rows ends: an early `exit(code)`
      with its message, or the insert followed by the fixed success message. */
  datatype ScriptOutcome = Exited(code: int, message: string) | Inserted(message: string)

  /** What both loaders print once the rows are inserted. */
  const InsertedMessage: string := "Files inserted successfully into the database."

  class Db {
    var participants: seq<Participant>
    /** The id the table assigns to the next inserted participant. */
    var nextParticipantId: int
    var trialResults: seq<TrialResult>
    var finalScores: seq<FinalScore>
    var resources: seq<ResourceRecord>

    /** Every stored id was handed out by the table's id sequence. */
    ghost predicate Valid()
      reads this
    {
      forall i :: 0 <= i < |participants| ==> participants[i].id < nextParticipantId
    }

    constructor ()
      ensures Valid()
      ensures participants == [] && trialResults == [] && finalScores == [] && resources == []
    {
      participants, nextParticipantId := [], 1;
      trialResults, finalScores, resources := [], [], [];
    }

    /** `get_or_create_participant`: the id of the first participant with this
        name; when there is none, one row is appended, the table is read again
        and the new row's id is returned. */
    method GetOrCreateParticipant(name: string) returns (id: int)
      requires Valid()
      modifies this`participants, this`nextParticipantId
      ensures Valid()
      ensures old(FirstIdNamed(participants, name)).Some? ==>
        id == old(FirstIdNamed(participants, name)).value
        && participants == old(participants) && nextParticipantId == old(nextParticipantId)
      ensures old(FirstIdNamed(participants, name)).None? ==>
        id == old(nextParticipantId)
        && participants == old(participants) + [Participant(id, name)]
        && nextParticipantId == id + 1
      ensures FirstIdNamed(participants, name) == Some(id)
    {
      var existing := FirstIdNamed(participants, name);
      if existing.Some? {
        id := existing.value;
      } else {
        participants := participants + [Participant(nextParticipantId, name)];
        nextParticipantId := nextParticipantId + 1;
        var newEntry := FirstIdNamed(participants, name);
        assert participants[|participants| - 1].name == name;
        if newEntry.None? {
          // "Failed to add new participant.": the row just appended always matches
          assert false;
        }
        var i :| 0 <= i < |participants| && participants[i].name == name && participants[i].id == newEntry.value
                 && forall j :: 0 <= j < i ==> participants[j].name != name;
        assert i == |participants| - 1;
        id := newEntry.value;
      }
    }

    method AppendTrialResult(row: TrialResult)
      modifies this`trialResults
      ensures trialResults == old(trialResults) + [row]
    {
      trialResults := trialResults + [row];
    }

    method AppendFinalScores(rows: seq<FinalScore>)
      modifies this`finalScores
      ensures finalScores == old(finalScores) + rows
    {
      finalScores := finalScores + rows;
    }

    method AppendResources(rows: seq<ResourceRecord>)
      modifies this`resources
      ensures resources == old(resources) + rows
    {
      resources := resources + rows;
    }
  }
}
