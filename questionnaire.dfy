/** The questionnaire screen of the web client (`Questionnaire.jsx`): the
    component's state, the handlers that change it and the screen it shows.

    Each handler that calls the backend is split in two: the part that runs
    when the handler is invoked (it returns the request it sends) and the part
    that runs when the `fetch` settles (it takes the reply). React batches the
    state updates of one event, so each part is one atomic step here; the
    effect that resets playback when `currentTrialIndex` changes is folded into
    the steps that change the index. */
module Questionnaire {
  import opened Wrappers
  import opened Text

  type ResourceId = int

  /** `n.toString().padStart(2, "0")`: the decimal digits of `n`, a single
      digit preceded by a zero; it reads back as `n`. */
  function TwoDigits(n: nat): (s: string)
    ensures |s| >= 2 && AllDigits(s) && DecimalValue(s) == n
    ensures n < 100 ==> |s| == 2
  {
    DecimalRoundTrip(n);
    if n < 10 then
      DigitRoundTrip(n);
      ['0', DigitChar(n)]
    else
      if n < 100 then ShortDecimal(n); DecimalString(n) else DecimalString(n)
  }

  /** `TwoDigits` is `padStart` to width 2 with zeros applied to the decimal text. */
  lemma TwoDigitsIsPadStart(n: nat)
    ensures TwoDigits(n) == PadStart(DecimalString(n), 2, '0')
  {
    if n < 10 {
      assert PadStart(DecimalString(n), 2, '0') == ['0'] + PadStart(DecimalString(n), 1, '0');
    }
  }

  /** A number below 100 has at most two decimal digits. */
  lemma ShortDecimal(n: nat)
    requires n < 100
    ensures |DecimalString(n)| <= 2
  {
    if n >= 10 {
      assert DecimalString(n) == DecimalString(n / 10) + [DigitChar(n % 10)];
    }
  }

  /** A clock text: the minutes, a colon and the seconds, each at least two digits. */
  function Clock(minutes: nat, secs: nat): (r: string)
    requires secs < 100
    ensures |r| >= 5 && r[|r| - 3] == ':'
    ensures AllDigits(r[..|r| - 3]) && AllDigits(r[|r| - 2..])
  {
    var mm := TwoDigits(minutes);
    var ss := TwoDigits(secs);
    var r := mm + ":" + ss;
    assert r[..|mm|] == mm;
    assert r[|mm| + 1..] == ss;
    r
  }

  /** The value of the minutes field of a clock text. */
  function ClockMinutes(r: string): nat
    requires |r| >= 5 && AllDigits(r[..|r| - 3])
  {
    DecimalValue(r[..|r| - 3])
  }

  /** The value of the seconds field of a clock text. */
  function ClockSeconds(r: string): nat
    requires |r| >= 5 && AllDigits(r[|r| - 2..])
  {
    DecimalValue(r[|r| - 2..])
  }

  /** The fields of a clock text read back as the numbers written. */
  lemma ClockReadsBack(minutes: nat, secs: nat)
    requires secs < 100
    ensures ClockMinutes(Clock(minutes, secs)) == minutes
    ensures ClockSeconds(Clock(minutes, secs)) == secs
    ensures minutes < 100 ==> |Clock(minutes, secs)| == 5
  {
    var r := Clock(minutes, secs);
    var mm, ss := TwoDigits(minutes), TwoDigits(secs);
    assert r == mm + ":" + ss;
    assert r[|r| - 2..] == ss;
    assert r[..|r| - 3] == mm;
  }

  /** `formatTime`: whole minutes, a colon and the remaining seconds, each
      zero-padded to two digits (minutes are not capped at 59). */
  function FormatTime(seconds: nat): (r: string)
    ensures |r| >= 5 && r[|r| - 3] == ':'
    ensures AllDigits(r[..|r| - 3]) && AllDigits(r[|r| - 2..])
  {
    Clock(seconds / 60, seconds % 60)
  }

  /** Reading the timer back: the minutes field is the whole minutes elapsed,
      the seconds field the seconds past them, and under 100 minutes the text
      is exactly `mm:ss`. */
  lemma FormatTimeReadsBack(seconds: nat)
    ensures ClockMinutes(FormatTime(seconds)) == seconds / 60
    ensures ClockSeconds(FormatTime(seconds)) == seconds % 60
    ensures seconds < 6000 ==> |FormatTime(seconds)| == 5
  {
    ClockReadsBack(seconds / 60, seconds % 60);
  }

  /** `path.replace(/\\/g, "/")`: every backslash becomes a slash. */
  function ForwardSlashes(p: string): (r: string)
    ensures |r| == |p| && '\\' !in r
    ensures forall i :: 0 <= i < |p| ==> r[i] == if p[i] == '\\' then '/' else p[i]
  {
    if p == [] then []
    else ForwardSlashes(p[..|p| - 1]) + [if p[|p| - 1] == '\\' then '/' else p[|p| - 1]]
  }

  /** A path as the player receives it: the `"/ "` prefix the client adds,
      and no backslash. */
  predicate IsPlayerPath(u: string) {
    |u| >= 2 && u[..2] == "/ " && '\\' !in u
  }

  /** The client-side rewrite of each audio path: `"/ "` followed by the path
      with backslashes turned into slashes. */
  function PlayerPath(p: string): (u: string)
    ensures IsPlayerPath(u)
    ensures u[2..] == ForwardSlashes(p)
  {
    "/ " + ForwardSlashes(p)
  }

  /** The rewritten `audio_map`: the same keys, each path rewritten. */
  function NormalizeAudioMap(m: map<ResourceId, string>): (r: map<ResourceId, string>)
    ensures r.Keys == m.Keys
    ensures forall k :: k in r ==> IsPlayerPath(r[k]) && r[k][2..] == ForwardSlashes(m[k])
  {
    map k | k in m :: PlayerPath(m[k])
  }

  datatype Severity = Info | Success | Warning | Error

  datatype Snackbar = Snackbar(open: bool, message: string, severity: Severity)

  /** How a `fetch` settles: a JSON body without `error`, a JSON body whose
      `error` is the (non-empty) message shown, or a rejected promise (network
      failure or a body that is not JSON). An empty `error` string, which the
      component reads as success, is not modelled. */
  datatype Reply<T> = Ok(data: T) | AppError(message: string) | NetworkFailure

  /** The body of a successful `GET /api/trials/<sequence_id>`. */
  datatype TrialsData = TrialsData(trials: seq<seq<ResourceId>>, audioMap: map<ResourceId, string>)

  /** One entry of `sorted_stimuli` in a successful finalize reply. */
  datatype RankedStimulus = RankedStimulus(resourceId: ResourceId, filename: string, score: real)

  /** The body of a trial submission; `resourcesInTrial` is `None` when the
      index is past the last trial (`undefined`, which `JSON.stringify` drops). */
  datatype SubmitRequest = SubmitRequest(
    sequenceId: int,
    trialIndex: nat,
    participantName: string,
    bestStimulus: Option<ResourceId>,
    worstStimulus: Option<ResourceId>,
    resourcesInTrial: Option<seq<ResourceId>>)

  datatype FinalizeRequest = FinalizeRequest(sequenceId: int, participantName: string)

  /** The five screens the component renders, in the order it tests them. */
  datatype Screen = Results | Completed | Loading | Empty | Presenting

  class Session {
    const sequenceId: int
    const participantName: string
    var trials: seq<seq<ResourceId>>
    var audioMap: map<ResourceId, string>
    var currentTrialIndex: nat
    var bestChoice: Option<ResourceId>
    var worstChoice: Option<ResourceId>
    var loading: bool
    var snackbar: Snackbar
    var finalResults: Option<seq<RankedStimulus>>
    /** The path loaded in the player; `""` when no player is shown. */
    var currentAudioSrc: string
    var isPlaying: bool
    var timeUsed: nat

    /** Only a loaded player plays, and the player and the audio map only
        ever hold paths in player form. */
    ghost predicate Valid()
      reads this
    {
      && (isPlaying ==> currentAudioSrc != "")
      && (currentAudioSrc != "" ==> IsPlayerPath(currentAudioSrc))
      && (forall k :: k in audioMap ==> IsPlayerPath(audioMap[k]))
    }

    /** The initial `useState` values. */
    constructor (sequenceId: int, participantName: string)
      ensures Valid()
      ensures this.sequenceId == sequenceId && this.participantName == participantName
      ensures trials == [] && audioMap == map[] && currentTrialIndex == 0
      ensures bestChoice == None && worstChoice == None && !loading
      ensures snackbar == Snackbar(false, "", Info) && finalResults == None
      ensures currentAudioSrc == "" && !isPlaying && timeUsed == 0
    {
      this.sequenceId, this.participantName := sequenceId, participantName;
      trials, audioMap, currentTrialIndex := [], map[], 0;
      bestChoice, worstChoice, loading := None, None, false;
      snackbar, finalResults := Snackbar(false, "", Info), None;
      currentAudioSrc, isPlaying, timeUsed := "", false, 0;
    }

    /** The screen the component renders for the current state: results
        first, then the completion screen (even while a request is loading),
        then the spinner, then the empty screen, and only then a trial. */
    function CurrentScreen(): (s: Screen)
      reads this
      ensures s == Results <==> finalResults.Some?
      ensures s == Completed <==> finalResults.None? && 0 < |trials| <= currentTrialIndex
      ensures s == Loading <==> finalResults.None? && !(0 < |trials| <= currentTrialIndex) && loading
      ensures s == Empty <==> finalResults.None? && !loading && |trials| == 0
      ensures s == Presenting <==> finalResults.None? && !loading && currentTrialIndex < |trials|
    {
      if finalResults.Some? then Results
      else if currentTrialIndex >= |trials| && |trials| > 0 then Completed
      else if loading then Loading
      else if |trials| == 0 then Empty
      else Presenting
    }

    /** `trials[currentTrialIndex]`, `None` past the end. */
    function CurrentTrial(): (t: Option<seq<ResourceId>>)
      reads this
      ensures t.Some? <==> currentTrialIndex < |trials|
      ensures t.Some? ==> t.value == trials[currentTrialIndex]
    {
      if currentTrialIndex < |trials| then Some(trials[currentTrialIndex]) else None
    }

    /** `showSnackbar`. */
    method ShowSnackbar(message: string, severity: Severity)
      modifies this`snackbar
      ensures snackbar == Snackbar(true, message, severity)
    {
      snackbar := Snackbar(true, message, severity);
    }

    /** `handleCloseSnackbar`: hides the message, keeping its text and severity. */
    method CloseSnackbar()
      modifies this`snackbar
      ensures snackbar == old(snackbar).(open := false)
    {
      snackbar := snackbar.(open := false);
    }

    /** One tick of the one-second interval timer. */
    method Tick()
      modifies this`timeUsed
      ensures timeUsed == old(timeUsed) + 1
    {
      timeUsed := timeUsed + 1;
    }

    /** The effect run for `sequenceId`: show the spinner and request the trials. */
    method LoadTrials() returns (requested: int)
      modifies this`loading
      ensures loading && requested == sequenceId
    {
      loading := true;
      requested := sequenceId;
    }

    /** The trials request settles: store the trials and the rewritten audio
        map, or show the error; the spinner goes away in every case. */
    method OnTrialsReply(reply: Reply<TrialsData>)
      requires Valid()
      modifies this`trials, this`audioMap, this`snackbar, this`loading
      ensures Valid()
      ensures !loading
      ensures reply.Ok? ==> trials == reply.data.trials && audioMap == NormalizeAudioMap(reply.data.audioMap)
                            && snackbar == old(snackbar)
      ensures reply.AppError? ==> trials == old(trials) && audioMap == old(audioMap)
                                  && snackbar == Snackbar(true, reply.message, Error)
      ensures reply.NetworkFailure? ==> trials == old(trials) && audioMap == old(audioMap)
                                        && snackbar == Snackbar(true, "Error loading trials.", Error)
    {
      match reply {
        case Ok(data) =>
          trials := data.trials;
          audioMap := NormalizeAudioMap(data.audioMap);
        case AppError(message) =>
          ShowSnackbar(message, Error);
        case NetworkFailure =>
          ShowSnackbar("Error loading trials.", Error);
      }
      loading := false;
    }

    method SelectBest(resourceId: ResourceId)
      modifies this`bestChoice
      ensures bestChoice == Some(resourceId)
    {
      bestChoice := Some(resourceId);
    }

    method SelectWorst(resourceId: ResourceId)
      modifies this`worstChoice
      ensures worstChoice == Some(resourceId)
    {
      worstChoice := Some(resourceId);
    }

    /** `handleLoadAudio`, clicked on the Play button of a stimulus. A stimulus
        without a path does nothing. Clicking the stimulus that is playing
        pauses it and keeps it loaded. Otherwise its path is loaded, and it
        starts playing (after the component's 100 ms delay) only if a player
        was already on screen when the button was clicked: the player is shown
        exactly when a path is loaded, and the delayed callback sees the player
        of the click's render. */
    method HandleLoadAudio(resourceId: ResourceId)
      requires Valid()
      modifies this`currentAudioSrc, this`isPlaying
      ensures Valid()
      ensures resourceId !in audioMap || audioMap[resourceId] == "" ==>
        currentAudioSrc == old(currentAudioSrc) && isPlaying == old(isPlaying)
      ensures resourceId in audioMap && audioMap[resourceId] != ""
              && old(currentAudioSrc) == audioMap[resourceId] && old(isPlaying) ==>
        currentAudioSrc == old(currentAudioSrc) && !isPlaying
      ensures resourceId in audioMap && audioMap[resourceId] != ""
              && !(old(currentAudioSrc) == audioMap[resourceId] && old(isPlaying)) ==>
        currentAudioSrc == audioMap[resourceId] && isPlaying == (old(isPlaying) || old(currentAudioSrc) != "")
    {
      if resourceId !in audioMap || audioMap[resourceId] == "" {
        return;
      }
      var audioPath := audioMap[resourceId];
      if currentAudioSrc == audioPath && isPlaying {
        isPlaying := false;
      } else {
        var playerShown := currentAudioSrc != "";
        currentAudioSrc := audioPath;
        if playerShown {
          isPlaying := true;
        }
      }
    }

    /** The effect on `currentTrialIndex`: a new trial starts with no audio loaded. */
    method ResetPlayback()
      modifies this`currentAudioSrc, this`isPlaying
      ensures currentAudioSrc == "" && !isPlaying
    {
      currentAudioSrc, isPlaying := "", false;
    }

    /** `handleSkipTrial`, invoked: the request marking the current trial as
        skipped, with both choices `null`. */
    method HandleSkipTrial() returns (request: SubmitRequest)
      modifies this`loading
      ensures loading
      ensures request == SubmitRequest(sequenceId, currentTrialIndex, participantName, None, None, CurrentTrial())
    {
      loading := true;
      request := SubmitRequest(sequenceId, currentTrialIndex, participantName, None, None, CurrentTrial());
    }

    /** The skip request settles: on success the next trial is shown (the
        choices are NOT cleared), otherwise the error is shown. */
    method OnSkipReply(reply: Reply<()>)
      requires Valid()
      modifies this`snackbar, this`currentTrialIndex, this`currentAudioSrc, this`isPlaying, this`loading
      ensures Valid()
      ensures !loading
      ensures reply.Ok? ==> snackbar == Snackbar(true, "Trial skipped successfully!", Success)
                            && currentTrialIndex == old(currentTrialIndex) + 1
                            && currentAudioSrc == "" && !isPlaying
      ensures reply.AppError? ==> snackbar == Snackbar(true, reply.message, Error)
      ensures reply.NetworkFailure? ==> snackbar == Snackbar(true, "Error skipping trial.", Error)
      ensures !reply.Ok? ==> currentTrialIndex == old(currentTrialIndex)
                             && currentAudioSrc == old(currentAudioSrc) && isPlaying == old(isPlaying)
    {
      match reply {
        case Ok(_) =>
          ShowSnackbar("Trial skipped successfully!", Success);
          currentTrialIndex := currentTrialIndex + 1;
          ResetPlayback();
        case AppError(message) =>
          ShowSnackbar(message, Error);
        case NetworkFailure =>
          ShowSnackbar("Error skipping trial.", Error);
      }
      loading := false;
    }

    /** `handleSubmitTrial`, invoked: both choices must be made and differ,
        otherwise a warning is shown and nothing is sent; if they are, the
        request carries the choices and the resources of the current trial. */
    method HandleSubmitTrial() returns (request: Option<SubmitRequest>)
      modifies this`snackbar, this`loading
      ensures bestChoice.None? || worstChoice.None? ==>
        request.None? && loading == old(loading)
        && snackbar == Snackbar(true, "Please select both Best and Worst.", Warning)
      ensures bestChoice.Some? && worstChoice.Some? && bestChoice == worstChoice ==>
        request.None? && loading == old(loading)
        && snackbar == Snackbar(true, "Best and Worst cannot be the same!", Warning)
      ensures request.Some? <==> bestChoice.Some? && worstChoice.Some? && bestChoice != worstChoice
      ensures request.Some? ==>
        loading && snackbar == old(snackbar)
        && request.value == SubmitRequest(sequenceId, currentTrialIndex, participantName,
                                          bestChoice, worstChoice, CurrentTrial())
    {
      if bestChoice.None? || worstChoice.None? {
        ShowSnackbar("Please select both Best and Worst.", Warning);
        return None;
      }
      if bestChoice == worstChoice {
        ShowSnackbar("Best and Worst cannot be the same!", Warning);
        return None;
      }
      loading := true;
      request := Some(SubmitRequest(sequenceId, currentTrialIndex, participantName,
                                    bestChoice, worstChoice, CurrentTrial()));
    }

    /** The submit request settles: on success the choices are cleared and the
        next trial is shown, otherwise the error is shown and the choices kept. */
    method OnSubmitReply(reply: Reply<()>)
      requires Valid()
      modifies this`snackbar, this`bestChoice, this`worstChoice, this`currentTrialIndex,
               this`currentAudioSrc, this`isPlaying, this`loading
      ensures Valid()
      ensures !loading
      ensures reply.Ok? ==> snackbar == Snackbar(true, "Trial submitted successfully!", Success)
                            && bestChoice.None? && worstChoice.None?
                            && currentTrialIndex == old(currentTrialIndex) + 1
                            && currentAudioSrc == "" && !isPlaying
      ensures reply.AppError? ==> snackbar == Snackbar(true, reply.message, Error)
      ensures reply.NetworkFailure? ==> snackbar == Snackbar(true, "Error submitting trial.", Error)
      ensures !reply.Ok? ==> bestChoice == old(bestChoice) && worstChoice == old(worstChoice)
                             && currentTrialIndex == old(currentTrialIndex)
                             && currentAudioSrc == old(currentAudioSrc) && isPlaying == old(isPlaying)
    {
      match reply {
        case Ok(_) =>
          ShowSnackbar("Trial submitted successfully!", Success);
          bestChoice, worstChoice := None, None;
          currentTrialIndex := currentTrialIndex + 1;
          ResetPlayback();
        case AppError(message) =>
          ShowSnackbar(message, Error);
        case NetworkFailure =>
          ShowSnackbar("Error submitting trial.", Error);
      }
      loading := false;
    }

    /** `handleFinish`, invoked from the completion screen. */
    method HandleFinish() returns (request: FinalizeRequest)
      modifies this`loading
      ensures loading && request == FinalizeRequest(sequenceId, participantName)
    {
      loading := true;
      request := FinalizeRequest(sequenceId, participantName);
    }

    /** The finalize request settles: on success the ranking is stored (which
        switches to the results screen), otherwise the error is shown. */
    method OnFinishReply(reply: Reply<seq<RankedStimulus>>)
      modifies this`snackbar, this`finalResults, this`loading
      ensures !loading
      ensures reply.Ok? ==> finalResults == Some(reply.data)
                            && snackbar == Snackbar(true, "All trials completed!", Success)
      ensures reply.AppError? ==> finalResults == old(finalResults)
                                  && snackbar == Snackbar(true, reply.message, Error)
      ensures reply.NetworkFailure? ==> finalResults == old(finalResults)
                                        && snackbar == Snackbar(true, "Error finalizing results.", Error)
    {
      match reply {
        case Ok(sortedStimuli) =>
          finalResults := Some(sortedStimuli);
          ShowSnackbar("All trials completed!", Success);
        case AppError(message) =>
          ShowSnackbar(message, Error);
        case NetworkFailure =>
          ShowSnackbar("Error finalizing results.", Error);
      }
      loading := false;
    }
  }

  /** The Play button of one stimulus clicked three times: the first click
      loads its path and shows the player, the second starts playback, the
      third pauses it. */
  method PlayButtonWalkthrough() {
    var s := new Session(3, "Dana");
    var requested := s.LoadTrials();
    s.OnTrialsReply(Ok(TrialsData([[11, 12]], map[11 := "d\\a", 12 := "b"])));
    assert s.audioMap[11] == PlayerPath("d\\a") == "/ d/a";
    s.HandleLoadAudio(11);
    assert s.currentAudioSrc == "/ d/a" && !s.isPlaying;
    s.HandleLoadAudio(11);
    assert s.isPlaying;
    s.HandleLoadAudio(11);
    assert !s.isPlaying && s.currentAudioSrc == "/ d/a";
    s.HandleLoadAudio(12);
    assert s.isPlaying && s.currentAudioSrc == "/ b";
  }

  /** A submission on the first of two trials is rejected on the client
      while a choice is missing and while both choices are the same stimulus. */
  method SubmitRefusedWalkthrough() {
    var s := new Session(3, "Dana");
    s.OnTrialsReply(Ok(TrialsData([[11, 12], [13, 14]], map[])));
    s.SelectBest(11);
    var request := s.HandleSubmitTrial();
    assert request.None? && s.snackbar.message == "Please select both Best and Worst.";
    s.SelectWorst(11);
    request := s.HandleSubmitTrial();
    assert request.None? && s.snackbar.message == "Best and Worst cannot be the same!";
  }

  /** Two different choices are sent with the trial's ids; the reply moves
      on to the next trial with the choices cleared. */
  method SubmitAcceptedWalkthrough() {
    var s := new Session(3, "Dana");
    s.OnTrialsReply(Ok(TrialsData([[11, 12], [13, 14]], map[])));
    s.SelectBest(11);
    s.SelectWorst(12);
    var request := s.HandleSubmitTrial();
    assert request == Some(SubmitRequest(3, 0, "Dana", Some(11), Some(12), Some([11, 12])));
    s.OnSubmitReply(Ok(()));
    assert s.CurrentScreen() == Presenting && s.currentTrialIndex == 1 && s.bestChoice.None?;
  }

  /** The last trial skipped (a failed attempt changes nothing), then the
      completion screen, then the ranking on the results screen. */
  method SkipAndFinishWalkthrough() {
    var s := new Session(3, "Dana");
    var requested := s.LoadTrials();
    s.OnTrialsReply(Ok(TrialsData([[13, 14]], map[])));
    var skip := s.HandleSkipTrial();
    assert skip == SubmitRequest(3, 0, "Dana", None, None, Some([13, 14]));
    s.OnSkipReply(NetworkFailure);
    assert s.currentTrialIndex == 0 && s.snackbar.message == "Error skipping trial.";
    skip := s.HandleSkipTrial();
    s.OnSkipReply(Ok(()));
    assert s.CurrentScreen() == Completed;
    var finish := s.HandleFinish();
    s.OnFinishReply(Ok([RankedStimulus(13, "a.wav", 0.1), RankedStimulus(14, "b.wav", -0.1)]));
    assert s.CurrentScreen() == Results;
  }
}
