# WorkScanAI core, modelled in Dafny

WorkScanAI lets a user describe a workflow: type its tasks, dictate them, or
upload a document. The backend asks a language model how ready each task is
for automation, turns the answers into hours and money saved, and writes a
report. This project models the logic at the centre of that system, with the
HTTP, database, model-API, speech and rendering plumbing removed. It then
proves what that logic promises.

Backend (Python):

- **`Security`**: the per-IP sliding-window rate limiter.
  - It is a class that owns the IP-to-timestamps map.
  - It includes client-IP extraction from `X-Forwarded-For`.
  - It includes the reCAPTCHA accept/reject decision.
- **`AiAnalyzer`**: `analyze_task`'s line parser and `calculate_roi`.
  - The parser is a method with a loop, specified by a fold over the lines.
  - `calculate_roi` is an array method that writes each record's hours in place.
- **`ReportGenerator`**: what the DOCX and PDF reports select:
  - score tiers;
  - the stable descending sort;
  - labels and headings;
  - the difficulty sentence;
  - per-task annual value;
  - the three roadmap phases.
- **`Extraction`**:
  - file-extension dispatch and the image media-type table;
  - PDF page and DOCX paragraph concatenation;
  - code-fence stripping;
  - the placeholder transcription.
- **Schemas**:
  - `SchemaFields` holds the pydantic field kinds: required, required-nullable, defaulted, length-bounded, and lists.
  - `ApiSchemas` models `backend/app/api/schemas.py`.
  - `WorkflowSchemas` models `backend/app/schemas/workflow.py`.

Frontend (TypeScript, React state as class fields):

- **`WorkflowForm`**: the workflow entry form.
  - Task rows are added, removed and updated.
  - Parsed imports come from a document or a recording.
  - Submit validates the form, builds the payload and sends two requests.
- **`LandingPage`**: the landing page's quick form.
  - It has the recording timer and speech results capped at 2000 characters.
  - `applyTranscriptToTasks` merges the transcript into the task lines, capped at 20 and padded to 3.
- **`Dashboard`**:
  - per-workflow enrichment with its analysis;
  - the in-place newest-first sort;
  - analysed and pending counts, totals and the rounded mean score;
  - colour bands, links and labels.
- **`AnalyzePage`**: the dashboard's analyze form.

Shared helpers:

- `Wrappers`: Option, Result, and a Field that is absent or present.
- `Seqs`: filter, subsequence and element removal.
- `Text`: trimming of the six whitespace characters Python and JavaScript share, case mapping, split/join, and decimal rendering.
- `Reals`: sums and means.

Inputs from the outside world become parameters:

- The clock is an integer `now`.
- Google's verifier answer is a record.
- Python's `float()` is a `string -> Option<real>`.
- `round(x, 2)` is a `real -> real`.
- The language-model and library replies are strings or sequences of strings.
- A fetch reply is a `Reply` datatype.
- The three regular expressions of the landing page are a `Patterns` record of functions.

## Model

| member | source | states |
|---|---|---|
| Security.Pruned | backend/app/core/security.py:34-37 | the retained timestamps are exactly those later than `now - 3600`, in their original order (a subsequence), each kept as often as it occurs and nothing added |
| Security.Decide | backend/app/core/security.py:39-50 | admitted exactly when the pruned list is shorter than the limit; otherwise 429, with `retry_after_seconds = 3600 - (now - oldest)` and the minutes being its floor division by 60; an IndexError when the limit is not positive and the list is empty |
| Security.RetryAfterInRange | backend/app/core/security.py:40-48 | with integer timestamps in the window and not after `now`, the wait is between 1 and 3600 seconds and the minutes between 0 and 60 |
| Security.RateLimiter.CheckRateLimit | backend/app/core/security.py:27-52 | the IP's list becomes its pruned list, with `now` appended exactly once when admitted; when admitted the list length is at most the limit; every retained entry is inside the window; no other IP's list changes; the bound invariant `Valid` is kept |
| Security.ClientIp | backend/app/core/security.py:19-24 | a non-empty `X-Forwarded-For` yields the stripped text before its first comma (which contains no comma); otherwise the client host, else "unknown" |
| Security.RecaptchaDecision | backend/app/core/security.py:57-92 | an empty secret accepts; `success` false gives 403 captcha_failed; a score (0 when absent) below the minimum gives 403 bot_detected; accepted is stated as an if-and-only-if |
| AiAnalyzer.DifficultyField | backend/app/services/ai_analyzer.py:140-142 | the difficulty is always easy, medium or hard: the stripped, lower-cased value when it is one of them, else medium |
| AiAnalyzer.ParseLines | backend/app/services/ai_analyzer.py:129-144 | the fold of the parsing loop over the lines; any difficulty it sets is one of the three levels |
| AiAnalyzer.Complete | backend/app/services/ai_analyzer.py:146-154 | missing keys get 50.0, 25.0, medium and the fixed recommendation; a given difficulty is kept; the difficulty is always a level |
| AiAnalyzer.ParseReply | backend/app/services/ai_analyzer.py:126-156 | the imperative loop over the stripped reply's lines yields exactly `Complete(ParseLines(lines))`, all four keys set |
| AiAnalyzer.AnalyzeTask | backend/app/services/ai_analyzer.py:116-166 | a failed model call gives the fixed error defaults; otherwise the parsed reply |
| AiAnalyzer.ParseLineField | backend/app/services/ai_analyzer.py:129-144 | for each of the four keys, a line starting with its prefix sets it to that line's value (the parsed number or its fallback, the checked difficulty, the text after the first colon) and any other line leaves it unchanged |
| AiAnalyzer.CompleteField | backend/app/services/ai_analyzer.py:146-154 | each key that was read is returned as read; a missing one gets its default (50.0, 25.0, "medium", the generic recommendation) |
| AiAnalyzer.LastKeyLineWins | backend/app/services/ai_analyzer.py:129-144 | for every key, the last line carrying it decides its value, both while parsing and in the returned analysis; earlier lines are overridden and other lines change nothing |
| AiAnalyzer.NoKeyLine | backend/app/services/ai_analyzer.py:129-154 | for every key, without a line carrying it the key stays unset and the returned analysis holds its default |
| AiAnalyzer.ScoreTextEndsAtNextColon | backend/app/services/ai_analyzer.py:132 | the SCORE value is read from the text between the first and second colons |
| AiAnalyzer.RecommendationKeepsLaterColons | backend/app/services/ai_analyzer.py:144 | RECOMMENDATION keeps everything after the first colon, later colons included, stripped |
| AiAnalyzer.YearlyOccurrences | backend/app/services/ai_analyzer.py:184-192 | 250 exactly for daily, 12 exactly for monthly, and 52 for everything else, including a missing frequency |
| AiAnalyzer.HoursSavedBounded | backend/app/services/ai_analyzer.py:180-194 | per-task hours `(minutes/60) * (pct/100) * occ` are non-negative and never exceed the task's yearly hours |
| AiAnalyzer.MeanScoreInRange | backend/app/services/ai_analyzer.py:198 | the automation score (mean of the readiness scores, 0 for none) stays on the 0-100 scale |
| AiAnalyzer.TotalHoursNonNegative | backend/app/services/ai_analyzer.py:195 | the summed hours are non-negative |
| AiAnalyzer.WriteHours | backend/app/services/ai_analyzer.py:175-196 | the loop writes each record's own hours saved into it in place and returns the sum of the original scores and the sum of the per-record hours |
| AiAnalyzer.CalculateRoi | backend/app/services/ai_analyzer.py:168-205 | every record gets its own hours written in place; the result is the rounded mean score, the rounded summed hours, and round2 of the unrounded summed hours times the rate; the reported hours equal the sum of the stored per-record hours |
| ReportGenerator.TiersPartition | backend/app/services/report_generator.py:64-66 | HIGH, MEDIUM and LOW together hold every result exactly once (as a multiset), so their counts sum to the number of results |
| ReportGenerator.TierExactlyOne | backend/app/services/report_generator.py:64-66 | each score falls in exactly one tier |
| ReportGenerator.KeyInsights | backend/app/services/report_generator.py:51-70 | "Total Tasks Analyzed" is the number of results, and it equals the sum of the three tier counts |
| ReportGenerator.SortByScoreCorrect | backend/app/services/report_generator.py:77 | `sorted_results` is a permutation of the results in non-increasing score order |
| ReportGenerator.SortByScoreStable | backend/app/services/report_generator.py:77 | results with equal scores keep their input order |
| ReportGenerator.PotentialOf | backend/app/services/report_generator.py:90-99 | the label is HIGH exactly at 70 and up, MEDIUM exactly from 40 to below 70, and LOW below 40, with the matching colour |
| ReportGenerator.LabelMatchesTier | backend/app/services/report_generator.py:64-99 | the label a result gets names the tier it is counted in |
| ReportGenerator.Headings | backend/app/services/report_generator.py:79-83 | heading i is "Task {i+1}: {name}" for the (i+1)-th sorted result |
| ReportGenerator.HeadingNumbers | backend/app/services/report_generator.py:79-83 | the number in heading i reads back as i + 1, so the tasks are numbered 1..n in sorted order |
| ReportGenerator.DifficultySentence | backend/app/services/report_generator.py:123-132 | the paragraph appears exactly for a non-empty difficulty |
| ReportGenerator.DifficultySentenceByLevel | backend/app/services/report_generator.py:123-132 | the sentence follows the lower-cased difficulty: Easy is no-code, Medium is technical setup, and any other value is custom development and shows its title case |
| ReportGenerator.TitleMatchIffLower | backend/app/services/report_generator.py:124-128 | `d.title()` equals a title-cased lower-case word exactly when `d.lower()` equals that word |
| ReportGenerator.AnnualValue | backend/app/services/report_generator.py:135-139 | the savings line is shown exactly when the hours are truthy; its value is the hours times the rate, which defaults to 50 |
| ReportGenerator.Phase | backend/app/services/report_generator.py:148-164 | a phase holds exactly the members of `sorted_results` that meet its score threshold and match its difficulty case-insensitively, in order and each as often as it occurs; it raises exactly when a result passes the score test with a NULL difficulty |
| ReportGenerator.PhaseIsSubsequence | backend/app/services/report_generator.py:147-169 | each phase is a subsequence of `sorted_results` |
| ReportGenerator.PhasesDisjoint | backend/app/services/report_generator.py:147-169 | no result is in two phases |
| ReportGenerator.PhaseRaisesMonotone | backend/app/services/report_generator.py:148-164 | if phase 1 raises then phase 2 does, and if phase 2 raises then phase 3 does |
| ReportGenerator.PhaseLines | backend/app/services/report_generator.py:149-169 | one bullet per member, in order, or the phase's fallback line when the phase is empty |
| ReportGenerator.QuickWinGetsNoCodeSentence | backend/app/services/report_generator.py:126-148 | every quick win's detail paragraph is the no-code sentence |
| Extraction.Extension | backend/app/api/routes/extraction.py:38 | the extension is the text of the lower-cased name after its last dot, and contains no dot; a name without a dot is its own extension |
| Extraction.MediaType | backend/app/api/routes/extraction.py:69-76 | png is image/png; jpg and jpeg are image/jpeg; gif is image/gif; webp is image/webp; anything else falls back to image/png |
| Extraction.MediaTypeIsImage | backend/app/api/routes/extraction.py:69-76 | every media type produced is an image type |
| Extraction.ConcatPages | backend/app/api/routes/extraction.py:46-51 | the loop's text is each page followed by a newline, in page order |
| Extraction.PagesTextIsJoin | backend/app/api/routes/extraction.py:49-50 | the PDF text is the pages joined by newlines, with one more newline at the end |
| Extraction.PagesTextLines | backend/app/api/routes/extraction.py:49-50 | pages without line breaks split back into the pages, followed by one empty line |
| Extraction.DocxTextLines | backend/app/api/routes/extraction.py:55 | paragraphs without line breaks split back into exactly the paragraphs |
| Extraction.ExtractByExtension | backend/app/api/routes/extraction.py:41-108 | the same dispatch stated on the extension itself: each supported extension reaches its reader and returns its text, a reader's exception becomes a 400 with its message, an image without a key is the key error, and failure (always 400) happens exactly when the chosen reader raises, an image has no key, or the extension is not one of the nine supported |
| Extraction.ExtractText | backend/app/api/routes/extraction.py:36-108 | txt, pdf, doc/docx and the five image types go to their readers; a reader that raises (file, PDF, DOCX or OCR) gives a 400 with its message; an image without an API key fails before OCR; failure (always 400) happens exactly when the chosen reader raises, an image has no key, or the extension is unsupported |
| Extraction.UnsupportedNamesExtension | backend/app/api/routes/extraction.py:104-108 | an unsupported file is a 400 naming its extension |
| Extraction.StripFence | backend/app/api/routes/extraction.py:194-199 | text that does not start with a fence is returned stripped and otherwise unchanged |
| Extraction.StripFenceDropsEnds | backend/app/api/routes/extraction.py:194-199 | stripped text starting with a fence loses its first and last lines: with three lines or more the result splits into exactly the lines between them, closed fence or not, and with fewer it is empty |
| Extraction.StripFenceRoundTrip | backend/app/api/routes/extraction.py:194-199 | a fenced block with a language tag gives back exactly its body |
| Extraction.ParseTasksText | backend/app/api/routes/extraction.py:146-209 | no API key is a 500 before any call; a failed call is a 500 carrying the error; otherwise the fence-stripped reply |
| Extraction.TranscribeAudio | backend/app/api/routes/extraction.py:111-118 | the same placeholder text for every input |
| SchemaFields.Required | backend/app/api/schemas.py:48-50 | accepted exactly when the key is given and not null; otherwise a missing or null error at that key |
| SchemaFields.RequiredNullable | backend/app/api/schemas.py:51-54 | accepted exactly when the key is given; null is kept |
| SchemaFields.Defaulted | backend/app/api/schemas.py:12-16 | the default when the key is left out; any given value, including null, is kept |
| SchemaFields.BoundedString | backend/app/api/schemas.py:11 | accepted exactly when the string is given, not null, and its length is within the bounds; errors for too short and too long; no trimming |
| SchemaFields.ValidateList | backend/app/api/schemas.py:32 | a list is accepted exactly when every element is, and the values are the elements' values in order |
| ApiSchemas.TaskCreate | backend/app/api/schemas.py:10-16 | accepted exactly for a name of 1 to 255 characters (else one error at "name"); frequency defaults to "daily" and complexity to "medium"; the other fields default to null; given fields are kept |
| ApiSchemas.WorkflowCreate | backend/app/api/schemas.py:29-32 | accepted exactly for a name of 1 to 255 characters and a given list of at least one valid task; an empty list is a too-short error and a missing one a missing-field error |
| ApiSchemas.TaskResponseOf | backend/app/api/schemas.py:19-22 | a TaskCreate plus id, workflow_id and created_at, each required |
| ApiSchemas.AnalysisResultResponse | backend/app/api/schemas.py:47-54 | task_id, task_name and ai_readiness_score must be given and not null; the other four may be null but must be given |
| WorkflowSchemas.TaskCreate | backend/app/schemas/workflow.py:7-13 | accepted exactly for a name of 1 to 255 characters; every other field, frequency and complexity included, defaults to null |
| WorkflowSchemas.TaskCreateSchemasAgree | backend/app/schemas/workflow.py:7-13 | the two TaskCreate schemas accept the same bodies; they differ only in frequency and complexity, and only when those keys are left out |
| WorkflowSchemas.WorkflowCreate | backend/app/schemas/workflow.py:26-29 | accepted exactly for a name of 1 to 255 characters and, when tasks are given, a list of valid tasks; missing tasks become an empty list |
| WorkflowSchemas.EmptyTaskListAccepted | backend/app/schemas/workflow.py:29 | a workflow with zero tasks is valid here but rejected by the other schema module |
| WorkflowSchemas.TaskResponseOf | backend/app/schemas/workflow.py:16-19 | this module's TaskCreate plus the three required columns |
| WorkflowSchemas.WorkflowResponseOf | backend/app/schemas/workflow.py:32-38 | id, name and created_at are required; description and updated_at may be null; tasks default to an empty list, and each given task must be valid |
| WorkflowSchemas.AnalyzeRequestOf | backend/app/schemas/workflow.py:72-75 | workflow_id is required; hourly_rate defaults to 50.0 and recaptcha_token to null; an explicit null is kept |
| WorkflowForm.ApplyEdit | frontend/src/components/WorkflowForm.tsx:58-62 | exactly the named field takes the value; every other field is unchanged |
| WorkflowForm.PayloadTasks | frontend/src/components/WorkflowForm.tsx:200-207 | every payload row has a non-blank name and a non-empty description |
| WorkflowForm.PayloadNames | frontend/src/components/WorkflowForm.tsx:200-201 | the names sent are exactly the form's non-blank names, in the form's order |
| LandingPage.Landing.OnStart | frontend/src/app/page.tsx:66-69 | recording is on; every other field, the transcript included, is unchanged |
| WorkflowForm.PayloadKeepsFields | frontend/src/components/WorkflowForm.tsx:200-207 | rows go out as entered except for the description; an empty description is replaced by the name, and a given one is kept |
| WorkflowForm.PayloadNonEmptyIff | frontend/src/components/WorkflowForm.tsx:184-200 | the payload has a row exactly when some row has a non-blank name |
| WorkflowForm.ShownError | frontend/src/components/WorkflowForm.tsx:211-237 | the message is the server's `detail` when present and non-empty, else the step's fallback; a network error shows its own message, or the generic one |
| WorkflowForm.Submission | frontend/src/components/WorkflowForm.tsx:176-241 | a blank name, and then no named task, each reject with their message and send nothing; otherwise the create request carries the non-empty payload, the analyze request is sent exactly when creation succeeded, completion is reported exactly when both succeed, and any failure adds one non-empty error |
| WorkflowForm.SubmissionShowsError | frontend/src/components/WorkflowForm.tsx:205-237 | when a request fails, the message shown is the create step's error (server `detail`, else "Failed to create workflow") if creating failed, and otherwise the analyse step's (server `detail`, else "Failed to analyze workflow"), with the network error's message or the generic text for a failed fetch |
| WorkflowForm.Form.constructor | frontend/src/components/WorkflowForm.tsx:21-35 | one new row (empty name and description, weekly, 30 minutes, general, medium); rate 50; flags down |
| WorkflowForm.Form.AddTask | frontend/src/components/WorkflowForm.tsx:41-50 | one new row appended; existing rows and all other state unchanged |
| WorkflowForm.Form.RemoveTask | frontend/src/components/WorkflowForm.tsx:52-56 | nothing happens with one row left; otherwise exactly the row at the index goes and the rest keep their order; the list never becomes empty |
| WorkflowForm.Form.UpdateTask | frontend/src/components/WorkflowForm.tsx:58-62 | only that row changes, by `ApplyEdit`; the others and all other state are unchanged |
| WorkflowForm.Form.ExtractTasksFromText | frontend/src/components/WorkflowForm.tsx:152-174 | a non-empty parsed list replaces the rows, and then the name and description are overwritten only by truthy values; anything else leaves them; a failed call adds the extract error |
| WorkflowForm.Form.ImportText | frontend/src/components/WorkflowForm.tsx:96-150 | with no file nothing happens; a failed upload adds the given failure message; an upload is parsed as ExtractTasksFromText says, including a non-empty workflow name and description taking over only when tasks arrive; the upload flag ends lowered |
| WorkflowForm.Form.ProcessVoiceInput | frontend/src/components/WorkflowForm.tsx:96-119 | a failed transcription adds the voice-recording message and keeps the rows, name and description; a transcript is parsed into the rows, and a non-empty name or description in the reply replaces the old one when tasks arrive; the upload flag ends lowered |
| WorkflowForm.Form.HandleDocumentUpload | frontend/src/components/WorkflowForm.tsx:121-150 | no file changes nothing; a failed extraction adds the document message and keeps the rows, name and description; extracted text is parsed into the rows, and a non-empty name or description in the reply replaces the old one when tasks arrive; the upload flag ends lowered |
| WorkflowForm.Form.Submit | frontend/src/components/WorkflowForm.tsx:176-241 | errors, requests and completions grow by exactly what `Submission` gives; `isAnalyzing` is false after every path that got past the checks |
| LandingPage.Capped | frontend/src/app/page.tsx:89-94 | the result is a prefix of at most 2000 characters, and the whole text when it fits |
| LandingPage.CollapseSpaces | frontend/src/app/page.tsx:140 | no whitespace other than single spaces remains, no two spaces are adjacent, and the other characters are all kept, in order |
| LandingPage.CollapseSpacesIsScan | frontend/src/app/page.tsx:140 | the result is the character-by-character scan: each whitespace character that starts a run becomes one space in its place, the rest of the run is dropped, and every other character is copied |
| LandingPage.CollapseSpacesRun | frontend/src/app/page.tsx:140 | a non-empty run made only of whitespace becomes exactly one space |
| LandingPage.TrimLeftKeepsVisible | frontend/src/app/page.tsx:140 | dropping leading whitespace drops no other character |
| LandingPage.CollapseSpacesFixed | frontend/src/app/page.tsx:140 | text whose only whitespace is single spaces is left unchanged |
| LandingPage.CollapseSpacesIdempotent | frontend/src/app/page.tsx:140 | normalising the spaces twice is normalising them once |
| LandingPage.Utf16Length | frontend/src/app/page.tsx:156 | JavaScript's length counts one code unit per character, two for a character outside the Basic Multilingual Plane, so it lies between the number of characters and twice that |
| LandingPage.Detected | frontend/src/app/page.tsx:146-156 | every detected task is longer than 5 UTF-16 code units, as `t.length > 5` measures; there are no more of them than pieces |
| LandingPage.DetectedPieceByPiece | frontend/src/app/page.tsx:146-156 | the trim, filter, reshape, filter chain is the same as going piece by piece in order: a piece yields its trimmed and reshaped text exactly when the trimmed piece is non-empty and the reshaped text is longer than 5, and every such piece is kept |
| LandingPage.DetectedIsPieceByPiece | frontend/src/app/page.tsx:146-156 | the detected tasks are the piece-by-piece description applied to the split transcript |
| LandingPage.PadLines | frontend/src/app/page.tsx:167-169 | the padding loop gives the lines followed by just enough empty lines to make three |
| LandingPage.Merged | frontend/src/app/page.tsx:159-176 | with detections, the non-blank lines followed by the detected tasks, cut to the first 20; without, the non-blank lines followed by the cleaned transcript, uncapped |
| LandingPage.Padded | frontend/src/app/page.tsx:167-169 | at least 3 lines; the input is kept as a prefix and the rest are empty |
| LandingPage.MergeKeepsExisting | frontend/src/app/page.tsx:161-176 | the filled-in lines come first in their order, when there are at most 20 |
| LandingPage.MergeKeepsDetected | frontend/src/app/page.tsx:164 | every detected task is kept, in order after the existing ones, when all fit in 20 |
| LandingPage.Landing.constructor | frontend/src/app/page.tsx:10-16 | three empty task lines, not recording, timer 0, empty transcript, no session and no stop asked for |
| LandingPage.Landing.Tick | frontend/src/app/page.tsx:29-49 | while recording the counter counts up below 120; at 120 it stops recognition and resets to 0; the counter stays within 0..120; name, lines, transcript, alerts, location and session are unchanged |
| LandingPage.Landing.StartRecording | frontend/src/app/page.tsx:51-64 | without speech support an alert and nothing else changes; otherwise a new session that starts from the transcript so far; name, lines, transcript, timer and location are unchanged |
| LandingPage.Landing.OnResult | frontend/src/app/page.tsx:71-96 | final results are appended to the session text; the transcript becomes the session's starting text, then the final results, then the interim ones, cut to 2000 characters with recognition stopped when longer; all other fields are unchanged |
| LandingPage.Landing.OnEnd | frontend/src/app/page.tsx:112-120 | recording stops; a space is added when the session started with non-blank text; all other fields are unchanged |
| LandingPage.Landing.StopRecording | frontend/src/app/page.tsx:126-132 | recognition is asked to stop if active; recording ends and the timer is 0; all other fields are unchanged |
| LandingPage.Landing.ApplyTranscript | frontend/src/app/page.tsx:134-186 | a blank transcript changes nothing; otherwise the lines become the padded merge and the transcript is cleared; all other fields are unchanged |
| LandingPage.Landing.UpdateTask | frontend/src/app/page.tsx:188-192 | only that line changes; every other field is unchanged |
| LandingPage.Landing.Submit | frontend/src/app/page.tsx:194-212 | no non-blank line gives an alert (naming the workflow name too if it is blank); otherwise it goes to the demo results whatever the name; lines, name, transcript, recording and session are unchanged |
| Text.NonBlankEmptyIff | frontend/src/app/page.tsx:197 | the filter `t.trim() !== ''` keeps something exactly when some line has a non-space character |
| Text.NonBlankKeepsLines | frontend/src/app/page.tsx:161 | the lines `tasks.filter(t => t.trim() !== '')` keeps stay in order, each non-blank line is kept as often as it occurs, and nothing is added |
| Dashboard.Enrich | frontend/src/app/dashboard/page.tsx:31-66 | a failed fetch gives null score, hours and savings and the list's task count or 0; otherwise the analysis fields, with the task count taken from the analysis's workflow if present, then the list's, then 0 |
| Dashboard.SortNewestFirst | frontend/src/app/dashboard/page.tsx:69 | in place, newest first, and a permutation of the workflows |
| Dashboard.NeighboursGiveNewestFirst | frontend/src/app/dashboard/page.tsx:69 | order between neighbours gives order between every pair |
| Dashboard.Analyzed | frontend/src/app/dashboard/page.tsx:80 | exactly the workflows with a score, in their order and each as often as it occurs |
| Dashboard.PendingCount | frontend/src/app/dashboard/page.tsx:157-159 | total minus analysed counts exactly the workflows without a score, and it is zero exactly when all are analysed |
| Dashboard.PendingLine | frontend/src/app/dashboard/page.tsx:157-159 | "All workflows analyzed" exactly when every workflow is analysed, and otherwise the number of pending workflows followed by " pending analysis" |
| Dashboard.Round | frontend/src/app/dashboard/page.tsx:84 | Math.round: the integer within half a unit, halves going up |
| Dashboard.AvgScore | frontend/src/app/dashboard/page.tsx:82-85 | null exactly when nothing is analysed; otherwise within half a unit of the mean score of the analysed workflows |
| Dashboard.AvgScoreInRange | frontend/src/app/dashboard/page.tsx:82-85 | scores between 0 and 100 give a rounded average between 0 and 100 |
| Dashboard.TotalHoursNonNegative | frontend/src/app/dashboard/page.tsx:81 | the hours total, taken over analysed workflows with null as 0, is non-negative |
| Dashboard.NoAnalysisNoBanner | frontend/src/app/dashboard/page.tsx:204 | with nothing analysed the savings banner is hidden |
| Dashboard.ScoreTier | frontend/src/app/dashboard/page.tsx:88-98 | green exactly at 75 and up, yellow exactly from 50 to below 75, red below 50 |
| Dashboard.ScoreStyle | frontend/src/app/dashboard/page.tsx:88-98 | the text colour and the badge classes of each band: green from 75, yellow from 50, red below |
| Dashboard.TierMonotone | frontend/src/app/dashboard/page.tsx:88-98 | a higher score never gets a lower band |
| Dashboard.CardLink | frontend/src/app/dashboard/page.tsx:259 | a card links to its results only when analysed, else "#" |
| Dashboard.TaskCountLabel | frontend/src/app/dashboard/page.tsx:279 | the label is the count followed by " task", with an "s" exactly when the count is not 1, and nothing else |
| AnalyzePage.AnalyzeForm.constructor | frontend/src/app/dashboard/analyze/page.tsx:8-10 | one empty task line, an empty name, not loading |
| AnalyzePage.AnalyzeForm.AddTask | frontend/src/app/dashboard/analyze/page.tsx:12-14 | one empty line appended; all else unchanged |
| AnalyzePage.AnalyzeForm.UpdateTask | frontend/src/app/dashboard/analyze/page.tsx:16-20 | only that line changes |
| AnalyzePage.AnalyzeForm.RemoveTask | frontend/src/app/dashboard/analyze/page.tsx:22-24 | exactly that line goes and the rest keep their order; there is no guard, but called as the page allows (more than one line) at least one line remains |
| AnalyzePage.AnalyzeForm.Submit | frontend/src/app/dashboard/analyze/page.tsx:26-55 | with only blank lines an alert and no navigation; otherwise the demo results, or the failure alert if navigation throws; loading is off on every path |
| Seqs.Without | frontend/src/app/dashboard/analyze/page.tsx:23 | the element at the index is left out and the others keep their order; an index out of range changes nothing |
| Seqs.WithoutMultiset | frontend/src/components/WorkflowForm.tsx:54 | removal takes exactly that element out of the list's multiset |

## Left out

- I/O is left out: HTTP requests, the database, the language-model, pypdf, python-docx and reportlab calls, SpeechRecognition and MediaRecorder. Their results are parameters, as listed above.
- `time.time()` is an integer parameter, so fractional timestamps and the `int(...)` truncation of a fractional wait are not modelled.
- Security.RateLimiter.CheckRateLimit: the limiter is not thread-safe in the source; concurrent requests are not modelled.
- The limit and the minimum reCAPTCHA score are read from the environment; they are constructor and function parameters, with the defaults 5 and 0.5 as constants.
- The HTTP request to Google is left out; the decision starts from its answer.
- IEEE floating point is left out: every figure is a `real`. Python's `float()`, `round(x, 2)` and f-string formatting are parameters or are not modelled.
- AiAnalyzer.HoursSaved: an explicit `time_per_task` of None raises TypeError in the source; the model reads it as 0, like a missing key.
- AiAnalyzer.CalculateRoi: `analysis['ai_readiness_score']` and `analysis['task']` are assumed present in every record; a missing key (a KeyError in the source) is not modelled.
- Text.Trim: removes exactly space, tab, line feed, vertical tab, form feed and carriage return, the whitespace Python's `strip()` and JavaScript's `trim()` share. Python's `strip()` also removes U+001C to U+001F, and both remove non-ASCII spaces (U+00A0, U+2028 and the like); none of these are modelled as whitespace. `Lower`, `Title` and `Capitalize` map ASCII letters only; Unicode case rules are not modelled.
- JSON parsing of the task parser's reply (`json.loads`, `ParsedTasksResponse`) is not modelled; `Extraction.ParseTasksText` stops at the text handed to it.
- The title-casing of the frequency, category and complexity cells and the report's summary figures (`:.1f` formats) are presentation, and are not modelled.
- ReportGenerator.Phase: the report routes always set the difficulty key, so a missing key (which `.get` would read as `''`) is not modelled; a NULL difficulty is, and raises as in the source.
- ReportGenerator.PhaseLines: the f-string `str(None)` for a NULL recommendation is modelled as "None".
- The landing page's three regular expressions (filler removal, separator split, leading-phrase strip) are the `Patterns` parameter; their regex semantics are not modelled.
- LandingPage: the 30-second silence timer and `onerror` are timers and browser events and are left out.
- LandingPage.Capped: counts and cuts characters (Unicode scalar values), while JavaScript's `length` and `substring(0, 2000)` count UTF-16 code units. Text with characters outside the Basic Multilingual Plane is cut later than in the source, and the source's cut can split a surrogate pair, which a Dafny string cannot hold.
- LandingPage.Landing.OnResult: its 2000 limit is Capped's, so the same difference applies to when recognition is asked to stop. LandingPage.Detected's `> 5` test does count UTF-16 code units (Utf16Length).
- LandingPage.Landing.Tick: the `setInterval` scheduling is not modelled; one call is one tick.
- WorkflowForm.Form.ProcessVoiceInput: requires an upload outcome other than "no file", because the handler is only ever called with a finished recording.
- WorkflowForm: `startVoiceRecording` and `stopVoiceRecording` only drive MediaRecorder and are left out; `processVoiceInput` starts from the upload's outcome.
- WorkflowForm.Form.UpdateTask, LandingPage.Landing.UpdateTask and AnalyzePage.AnalyzeForm.UpdateTask require an index inside the list. In JavaScript an index past the end would grow the array with holes; the pages only pass existing indices.
- WorkflowForm.Submission: a non-string `detail` (such as pydantic's list of errors) is stringified by `new Error`; the model treats `detail` as text.
- Schema type coercion (for example "5" to 5, or a string to datetime) and the error messages' wording are not modelled; only error locations and kinds are.
- `Optional[X]` declared without a default is modelled as pydantic v2 treats it: required, but null is accepted. This is stricter than "optional".
- ApiSchemas.WorkflowCreate: `min_items` is treated as the list `min_length` it maps to.
- The `WorkflowResponse` and `AnalysisResponse` of backend/app/api/schemas.py, and the `AnalysisResultResponse` and `AnalysisResponse` of backend/app/schemas/workflow.py, are not part of this model.
- Dashboard: `created_at` is modelled as an already-parsed number, so `new Date(...)` parsing (and an invalid date's NaN comparison) is left out.
- Dashboard.SortNewestFirst: the sort is proved to be ordered and a permutation; that equal timestamps keep their order (JavaScript's sort is stable) is not stated.
- Dashboard.Enrich: an analysis whose `automation_score` key is missing (undefined rather than null) is treated as null.
- The async fan-out of `Promise.all` is not modelled; each workflow is enriched independently.
- AnalyzePage.AnalyzeForm.Submit: the 1.5-second delay is not modelled, and `router.push` failing is the `navigationFails` parameter.
- JSX markup and rendering are not modelled.
