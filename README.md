# ListenQuestionnaire in Dafny

ListenQuestionnaire is a best–worst scaling listening survey for guitar
recordings. A participant hears the audio clips ("stimuli") of one trial after
another and marks, for each trial, the best and the worst clip. The
repository holds four pieces, and this project models each of them:

- **Loaders.** Two scripts fill the `resources` table.
  - `scripts/fetch_audio_s3.py` takes the object keys of an S3 listing
    (module `FetchAudioS3`).
  - `scripts/fetch_audio.py` reads the folder id out of a Google Drive share
    link and records the files found by walking the download directory
    (module `FetchAudio`).
- **Sequence generator.** `scripts/sequence_generator.py` draws sets of
  distinct stimuli, each stimulus at most `repeats` times overall. It lays
  the sets out as `sequences` rows and builds a `sequence_info` record
  (module `SequenceGenerator`).
- **Web survey.**
  - `www-react/frontend/src/LandingPage.jsx` asks for a name and consent
    (module `LandingPage`, class `LandingForm`).
  - `www-react/frontend/src/Questionnaire.jsx` drives the trials (module
    `Questionnaire`, class `Session`).
  - The Flask back end `www-react/backend/app.py` serves the trials of a
    sequence and records each submitted choice (module `Backend`, class
    `Server`).
- **Desktop survey.** The PyQt program `scripts/test_bws.py` runs the same
  survey. It updates a strength value `V` per stimulus after each choice with
  learning rate 0.1. At the end it stores the ranking by descending strength
  (module `Desktop`, class `ExperimentWindow`).

Shared pieces:

- **Tables.** Module `Database` models the tables the programs read and
  append to, as the fields of class `Db`.
- **The joined view.** Module `SequenceView` models the `sequence_view` rows,
  their sorting and grouping by trial, and the audio maps.
- **Library behaviour.** Modules `Seqs`, `Text`, `Paths` and `Sorting` state
  the library behaviour the code relies on:
  - `list.count`;
  - `pandas.unique` and the key order of dictionaries;
  - Python's `str.strip` and JavaScript's `String.prototype.trim`;
  - `os.path.join` and `os.path.basename` with POSIX (`posixpath`) behaviour;
  - a stable sort.

Everything the programs obtain from outside enters as a parameter:

- the S3 listing and the directory walk;
- the name dialog;
- the rows of `sequence_view` and of `resources`;
- the HTTP replies the front end receives.

Random sampling is a choice the method makes: its contract holds for every
sample it could draw.

## Model

| member | source | states |
|---|---|---|
| Database.FirstIdNamed | www-react/backend/app.py:36-39 | `None` exactly when no participant has the name; otherwise the id of the first row with that name |
| Database.Db.GetOrCreateParticipant | www-react/backend/app.py:31-48 | an existing name returns its first id and leaves the table alone; a new name is appended under the next id. Either way the name then resolves to the returned id, so a second call inserts nothing |
| Database.Db.AppendTrialResult | www-react/backend/app.py:134-142 | `trial_results` gains exactly the given row at the end |
| Database.Db.AppendFinalScores | scripts/test_bws.py:266-267 | `final_scores` gains exactly the given rows at the end |
| Database.Db.AppendResources | scripts/fetch_audio_s3.py:60 | `resources` gains exactly the given rows at the end |
| Text.TrimStart | scripts/test_bws.py:30-33 | a suffix of the input: everything dropped is whitespace, and what is left does not start with whitespace |
| Text.TrimEnd | scripts/test_bws.py:30-33 | a prefix of the input: everything dropped is whitespace, and what is left does not end with whitespace |
| Text.Trim | scripts/test_bws.py:30-33 | `strip()` / `trim()`: the result is a slice of the input with only whitespace before and after it, and a non-empty result neither starts nor ends with whitespace |
| Text.TrimEmpty | scripts/test_bws.py:30 | trimming leaves nothing exactly when every character is whitespace |
| Text.IsBlank | www-react/frontend/src/LandingPage.jsx:23 | true exactly when every character is whitespace, i.e. trimming leaves the empty string |
| Paths.Join | scripts/fetch_audio_s3.py:44 | `posixpath.join`: an absolute second part replaces the first; otherwise the parts are joined with one `/` unless the first is empty or already ends in `/` |
| Paths.JoinEndsWith | scripts/fetch_audio.py:34 | a joined path ends with its last component |
| Paths.Basename | scripts/fetch_audio_s3.py:32 | `posixpath.basename`: a separator-free suffix of the key, preceded by a separator unless it is the whole key |
| Paths.BasenameEmpty | scripts/fetch_audio_s3.py:32 | the base name is empty exactly when the key is empty or ends with `/` |
| FetchAudioS3.S3RecordShape | scripts/fetch_audio_s3.py:30-46 | a recorded key yields a non-empty, separator-free file name that ends the key, stored as `resources/Guitar/<name>` with the fixed description |
| FetchAudioS3.S3RecordsFromFiles | scripts/fetch_audio_s3.py:24-28 | every recorded row comes from a key that does not end in `/` |
| FetchAudioS3.S3RecordsPerFileKey | scripts/fetch_audio_s3.py:23-46 | one row per file key, in listing order; the recorded keys are exactly the keys not ending in `/` |
| FetchAudioS3.BuildRecords | scripts/fetch_audio_s3.py:23-46 | the loop builds exactly the rows of the file keys, in order |
| FetchAudioS3.Run | scripts/fetch_audio_s3.py:18-65 | a listing without contents, or with directory keys only, exits with code 0 and the script's message and inserts nothing; otherwise all rows are appended at once and the script's success message follows |
| FetchAudio.RunLength | scripts/fetch_audio.py:11 | the greedy `[^?]+` run: it contains no `?` and stops at a `?` or at the end |
| FetchAudio.SearchFrom | scripts/fetch_audio.py:11 | `re.search` from a position: `None` when no match starts there or later, otherwise the leftmost match |
| FetchAudio.ExtractFolderId | scripts/fetch_audio.py:11-16 | `None` exactly when the link contains no `folders/` followed by a non-`?` character; otherwise the group of the leftmost match: non-empty, `?`-free, right after `folders/`, up to the next `?` or the end |
| FetchAudio.GroupAtUnique | scripts/fetch_audio.py:13 | the group of a match is determined by where the match starts |
| FetchAudio.FolderIdOfLink | scripts/fetch_audio.py:8-13 | the script's own share link yields the id `1CH7arPsru4ejyj_Wm7dlPY0Np60YJeI7` |
| FetchAudio.DriveRecordShape | scripts/fetch_audio.py:34-36 | a file name is stored unchanged, as `resources/Guitar/<name>`, with the fixed description |
| FetchAudio.AppendDirectory | scripts/fetch_audio.py:32-36 | the inner loop appends one row per file of the directory, in order |
| FetchAudio.CollectRecords | scripts/fetch_audio.py:30-36 | one row per walked file, directory by directory, in walk order |
| FetchAudio.SameNameSamePath | scripts/fetch_audio.py:34 | the stored path ignores the directory: equal names in different directories get equal paths |
| FetchAudio.Run | scripts/fetch_audio.py:11-54 | a link without a folder id exits with code 1; a walk without files exits with code 0; neither inserts anything; otherwise all rows are appended and the script's success message follows |
| SequenceGenerator.Available | scripts/sequence_generator.py:24 | exactly the stimuli whose remaining count is positive, without repetition when the keys have none |
| SequenceGenerator.RemainingDecrement | scripts/sequence_generator.py:22-29 | using one stimulus lowers the loop's budget of remaining uses by one, which is why the `while` loop ends |
| SequenceGenerator.LeftoverOcc | scripts/sequence_generator.py:33 | the leftover list holds each stimulus exactly as often as its positive remaining count |
| SequenceGenerator.LeftoverConserves | scripts/sequence_generator.py:18-33 | uses in the drawn sets plus occurrences in the leftover equal `repeats`, per stimulus |
| SequenceGenerator.LeftoverFewDistinct | scripts/sequence_generator.py:22-33 | when the loop stops, the leftover holds fewer distinct stimuli than `set_size` |
| SequenceGenerator.UseOnce | scripts/sequence_generator.py:28-29 | each member of the group loses exactly one use, the others keep theirs, and the budget falls by the group's size |
| SequenceGenerator.DrawSet | scripts/sequence_generator.py:24-30 | one round draws `set_size` distinct available stimuli, appends them as a new set, and keeps the counts equal to `repeats` minus the uses so far |
| SequenceGenerator.CreateSetsOfStimuli | scripts/sequence_generator.py:7-35 | for every possible sample: each set has `set_size` distinct members drawn from the input. No stimulus is used more than `repeats` times, and uses plus leftover equal `repeats`. The leftover holds fewer than `set_size` distinct stimuli and lists the remaining counts |
| SequenceGenerator.IdsUnder | scripts/sequence_generator.py:51-53 | an id is listed exactly when some resource under the folder path carries it |
| SequenceGenerator.IdsUnderOcc | scripts/sequence_generator.py:51-53 | each id is listed as many times as resources under the folder path carry it |
| SequenceGenerator.IdsUnderConcat | scripts/sequence_generator.py:51-53 | table order is kept: the ids of two concatenated tables are the ids of the first followed by those of the second |
| SequenceGenerator.RowsOfLength | scripts/sequence_generator.py:66-69 | one `sequences` row per element of the drawn sets |
| SequenceGenerator.RowsOfAt | scripts/sequence_generator.py:67-69 | the row for element `k` of set `t` carries that stimulus, `trial = t` and `index_order = k` |
| SequenceGenerator.RowsOfBounds | scripts/sequence_generator.py:67-69 | every row names the sequence, an existing set and a position in it, and carries the stimulus found there |
| SequenceGenerator.SequenceRows | scripts/sequence_generator.py:66-69 | the nested `enumerate` loops build exactly that row layout |
| SequenceGenerator.GenerateSequence | scripts/sequence_generator.py:50-85 | nothing when no resource has the folder path. Otherwise the info record holds the id, name, path and set size, with `n_trials` the number of sets. There are `n_trials * set_size` rows, each with an in-range trial and position, naming a resource under that path |
| SequenceView.RowsOfSequence | www-react/backend/app.py:62-63 | every kept row belongs to the requested sequence, and every row of that sequence is kept |
| SequenceView.RowsOfSequenceOcc | www-react/backend/app.py:62-63 | each row of the sequence is kept as often as it occurs in the view; other rows not at all |
| SequenceView.RowsOfSequenceConcat | scripts/test_bws.py:37-38 | table order is kept: the rows of two concatenated views are the rows of the first followed by those of the second |
| SequenceView.SortRows | www-react/backend/app.py:69 | a permutation of the rows, ordered by `(trial, index_order)` |
| SequenceView.TrialRowsInIndexOrder | www-react/backend/app.py:79-80 | within one trial of the sorted rows, `index_order` never decreases |
| SequenceView.GroupByTrial | www-react/backend/app.py:78-81 | one non-empty list per distinct trial, trials ascending; each list holds that trial's resource ids in row order; together the lists hold exactly the sorted rows' ids |
| SequenceView.TrialIdsOccur | www-react/backend/app.py:78-81 | every id of every trial is the resource id of some row |
| SequenceView.ZeroValues | www-react/backend/app.py:72-74 | one strength of 0.0 for each distinct resource id |
| SequenceView.ResourceIdsOfPermutation | www-react/backend/app.py:69-72 | sorting does not change the set of resource ids |
| SequenceView.BuildAudioMap | www-react/backend/app.py:85-93 | a key for every resource id seen; each maps to the path of that id's last row |
| Backend.FolderPathMapKeys | www-react/backend/app.py:85-93 | the back end's audio map has exactly the sequence's resource ids as keys |
| Backend.Server.GetTrials | www-react/backend/app.py:54-100 | an unknown sequence gives 404 with the message and leaves `V_values` alone. Otherwise the reply holds the grouped trials and an audio map keyed by every resource id, and `V_values` gains zero strengths only on the sequence's first request |
| Backend.Server.SubmitTrial | www-react/backend/app.py:106-144 | a missing or empty participant name gives 400 and changes nothing. Otherwise a known name leaves the participants table unchanged, and a new name is appended under the next id. Exactly one trial-result row with the participant's id and the posted choices is appended; best and worst are not compared |
| Questionnaire.TwoDigits | www-react/frontend/src/Questionnaire.jsx:49 | at least two digits that read back as the number, exactly two below 100 |
| Questionnaire.TwoDigitsIsPadStart | www-react/frontend/src/Questionnaire.jsx:49 | equals `padStart(2, "0")` of the decimal string |
| Questionnaire.ClockReadsBack | www-react/frontend/src/Questionnaire.jsx:47-51 | `m:ss` reads back as the minutes and seconds it was built from, and is five characters when minutes < 100 |
| Questionnaire.FormatTime | www-react/frontend/src/Questionnaire.jsx:47-51 | digits, a colon, two digits |
| Questionnaire.FormatTimeReadsBack | www-react/frontend/src/Questionnaire.jsx:47-51 | the clock shows `seconds / 60` minutes and `seconds % 60` seconds, five characters below 100 minutes |
| Questionnaire.ForwardSlashes | www-react/frontend/src/Questionnaire.jsx:75 | every backslash becomes `/`; nothing else changes |
| Questionnaire.PlayerPath | www-react/frontend/src/Questionnaire.jsx:75 | the two characters `/ ` (slash, space) that the template adds, then the path with forward slashes |
| Questionnaire.NormalizeAudioMap | www-react/frontend/src/Questionnaire.jsx:72-77 | same keys; every path is rewritten for the player |
| Questionnaire.Session.constructor | www-react/frontend/src/Questionnaire.jsx:29-45 | the initial state of every hook |
| Questionnaire.Session.CurrentScreen | www-react/frontend/src/Questionnaire.jsx:219-325 | the screen order, each case an if-and-only-if: results when there are results; otherwise "completed" exactly when there are trials and the index is past them, even while loading; otherwise the spinner exactly when loading; otherwise the empty screen exactly when there are no trials; otherwise the current trial |
| Questionnaire.Session.CurrentTrial | www-react/frontend/src/Questionnaire.jsx:136 | the current trial's ids when the index is in range, otherwise nothing |
| Questionnaire.Session.ShowSnackbar | www-react/frontend/src/Questionnaire.jsx:88-90 | the snackbar opens with the message and severity |
| Questionnaire.Session.CloseSnackbar | www-react/frontend/src/Questionnaire.jsx:92-94 | the snackbar closes and keeps its message |
| Questionnaire.Session.Tick | www-react/frontend/src/Questionnaire.jsx:55-60 | one second more of time used |
| Questionnaire.Session.LoadTrials | www-react/frontend/src/Questionnaire.jsx:62-66 | loading starts and the sequence id is requested |
| Questionnaire.Session.OnTrialsReply | www-react/frontend/src/Questionnaire.jsx:66-85 | success stores the trials and the rewritten audio map; an error reply or a network failure keeps the old trials and opens an error snackbar with the reply's or the fixed message; loading ends in every case |
| Questionnaire.Session.SelectBest | www-react/frontend/src/Questionnaire.jsx:407 | the best choice becomes the clicked stimulus |
| Questionnaire.Session.SelectWorst | www-react/frontend/src/Questionnaire.jsx:420 | the worst choice becomes the clicked stimulus |
| Questionnaire.Session.HandleLoadAudio | www-react/frontend/src/Questionnaire.jsx:100-118 | a stimulus without a path changes nothing; clicking the clip that is playing pauses it; any other click loads the clip and plays it when a player was already shown |
| Questionnaire.Session.ResetPlayback | www-react/frontend/src/Questionnaire.jsx:121-124 | the player is cleared and stopped |
| Questionnaire.Session.HandleSkipTrial | www-react/frontend/src/Questionnaire.jsx:126-138 | loading starts and the request carries no choices and the current trial's ids |
| Questionnaire.Session.OnSkipReply | www-react/frontend/src/Questionnaire.jsx:141-153 | success advances one trial and resets playback; failures keep the trial and playback; each outcome opens its own snackbar; loading ends |
| Questionnaire.Session.HandleSubmitTrial | www-react/frontend/src/Questionnaire.jsx:157-177 | a request is sent exactly when both choices are made and differ; otherwise the matching warning opens and loading is untouched |
| Questionnaire.Session.OnSubmitReply | www-react/frontend/src/Questionnaire.jsx:179-193 | success clears both choices, advances one trial and resets playback; failures keep choices, trial and playback; each outcome opens its own snackbar; loading ends |
| Questionnaire.Session.HandleFinish | www-react/frontend/src/Questionnaire.jsx:196-202 | loading starts and the sequence and participant are sent |
| Questionnaire.Session.OnFinishReply | www-react/frontend/src/Questionnaire.jsx:204-216 | success stores the results and announces completion; failures keep the old results and open the matching error |
| LandingPage.LandingForm.constructor | www-react/frontend/src/LandingPage.jsx:15-19 | an empty name, unchecked consent, no errors |
| LandingPage.LandingForm.OnNameChange | www-react/frontend/src/LandingPage.jsx:85 | only the name changes |
| LandingPage.LandingForm.OnConsentChange | www-react/frontend/src/LandingPage.jsx:96-99 | consent follows the box; its error clears when checked |
| LandingPage.LandingForm.HandleSubmit | www-react/frontend/src/LandingPage.jsx:21-34 | the survey starts with the untrimmed name exactly when the name is not blank and consent is given; a blank name flags the name error, a missing consent the consent error |
| Sorting.Insert | scripts/test_bws.py:230 | inserting adds exactly the new element: the result is a permutation of the list plus it |
| Sorting.InsertSorted | scripts/test_bws.py:230 | inserting into a sorted list keeps it sorted |
| Sorting.Sort | scripts/test_bws.py:230 | the sort is a permutation of its input |
| Sorting.SortSorted | scripts/test_bws.py:230 | for a total preorder, the sort's result is sorted |
| Desktop.JoinedPathEntries | scripts/test_bws.py:45-51 | one entry per row, pairing the resource id with `folder_path` joined to the file name |
| Desktop.PulledWithin | scripts/test_bws.py:192-201 | an update step toward targets inside a range keeps the strength inside that range |
| Desktop.Reinforced | scripts/test_bws.py:191-201 | the best and worst strengths are updated; every other strength is unchanged |
| Desktop.FirstChoiceValues | scripts/test_bws.py:191-201 | a worked example of `Reinforced`: from all-zero strengths, best of three becomes 0.19, the middle stays 0, the worst stays within [0, 1] |
| Desktop.Items | scripts/test_bws.py:230 | the strengths listed in key order |
| Desktop.FinalRowsRanking | scripts/test_bws.py:229-263 | the ranking rows are a permutation of the strengths, in non-increasing score order, ranked 1, 2, … with the participant and sequence |
| Desktop.RankScores | scripts/test_bws.py:243-263 | the loop builds exactly those ranking rows |
| Desktop.ExperimentWindow.constructor | scripts/test_bws.py:20-71 | the window starts at trial 0 with `N_TRIALS` equal to the number of trials and establishes the window's invariant: one strength per unique id, and every trial id has a strength and an audio path |
| Desktop.ExperimentWindow.Reinforce | scripts/test_bws.py:192-201 | one update loop changes only the chosen stimulus's strength |
| Desktop.ExperimentWindow.ShowFinalResults | scripts/test_bws.py:217-267 | `final_scores` gains exactly the ranking rows |
| Desktop.ExperimentWindow.SubmitChoice | scripts/test_bws.py:169-215 | past the last trial, it shows results and records no trial. A missing or equal choice warns and changes nothing. Otherwise the strengths are reinforced, one trial row is appended, the index advances, and the last trial's submit also stores the ranking |
| Desktop.UniqueIdsAreResourceIds | scripts/test_bws.py:66-67 | the unique ids are distinct and are exactly the rows' resource ids |
| Desktop.JoinedPathMapKeys | scripts/test_bws.py:45-51 | the desktop audio map has exactly the sequence's resource ids as keys |
| Desktop.StartState | scripts/test_bws.py:58-67 | every id of every trial has a strength and an audio path |
| Desktop.Launch | scripts/test_bws.py:20-96 | no name or a blank one aborts with the script's message and creates nobody. Otherwise the trimmed name is looked up: a known name leaves the participants table unchanged, a new one is appended under the next id, and this happens even when the sequence then turns out empty. An empty sequence aborts with its message; else the window starts with that participant, the grouped trials, the joined-path audio map and zero strengths |

## Left out

- Database access, logging, printing, the message boxes and the exceptions these raise: the tables are fields of `Db`. A failed insert in the loaders is not modelled: their `try`/`except` only prints.
- Timestamps (`submitted_at`, `computed_at`, `time_created`): clocks are not modelled.
- Widgets, the media player, the snackbar's auto-hide timer, the 100 ms delay before playing, the progress bar and the teardown of the trial table: only the state they show is modelled.
- The `setInterval` timer itself: `Questionnaire.Session.Tick` is one firing of it.
- Desktop.Pulled: strengths are exact reals, not floating point, so `0.19` is exact.
- SequenceGenerator.CreateSetsOfStimuli: the contract holds for every sample that `random.sample` could return; which one it returns, and with what probability, is not modelled.
- SequenceGenerator.CreateSetsOfStimuli: requires a set size of at least 1. With size 0 the source loops for ever; the script always uses 5.
- SequenceGenerator.GenerateSequence: returns the rows and the info record instead of appending them. It states their shape but does not name the sets they came from, because those are drawn at random.
- Requests interleaved with one another on the front end: each handler and its reply are separate steps, applied in order.
- URL routing, JSON encoding, participant names that are not strings, and a request without a JSON body.
- The finalize route of `app.py`: it is commented out in the source. The front end's call to it is modelled through the reply it may receive.
- S3 listings longer than one page of results: the listing is given in full.
- `gdown`'s download and `os.makedirs`: the walk result is an input, in walk order.
- FetchAudioS3.S3RecordShape: requires a non-empty key; an empty key yields an empty file name.
- Equal scores in the final ranking: their order follows the dictionary's key order, which the stable sort keeps but the contract does not pin down beyond the permutation.
- The two audio maps: the back end builds its map over the sorted rows, the desktop over the unsorted ones, and both are modelled as written.
- `App.jsx`, `App.js`, `i18n.js` and `database_utils.py` are not part of this model, nor are the scratch scripts `test_append.py` and `test_readtable.py`.
- Paths.Join, Paths.Basename: only `/` is a separator, as `posixpath` does. Windows separators (`ntpath`) are not modelled. The record shapes and the desktop audio paths hold for POSIX hosts only.
- Questionnaire.Reply: `AppError` stands for a reply whose `error` field is a non-empty string. The source's `if (data.error)` treats an empty `error` string as success, and that case is not modelled.
