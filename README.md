# Karaoke orchestrator model

This project models the orchestration layer of the karaoke generator, `src/lib/karaoke.js`. It covers:

- `generate`: separation of the original audio into vocals and instruments, plus line- and word-level lyric alignment;
- `alignline`: word alignment derived from stored line alignments;
- `realign`: a fresh alignment job for one caption mode;
- the sub-workflows `split` and `align`;
- the `SUPPORTED_LANGS` table;
- the expressions that route each alignment job to a queue and an audio source.

The collaborators are the content library, the queue client, the HTTP fetch and the retry wrapper. They are not modelled. Their answers are oracle inputs: the lyrics found, the language detected, and what each awaited job yields. Every effect the orchestrator performs is an `Event` appended to a trace:

- a status report;
- a library lookup;
- an upload;
- an enqueue and the wait on it;
- a fetch of a job result, flagged as retried or not;
- a saved file;
- a video fetch.

The modules are:

- `Trace`: events, runs (`Ok(trace)` or `Err(failure, trace)`, where the failure carries the exact error message of the source), and `Effects`, the projection of a trace onto one kind of effect.
- `Routing`: the language table and its membership scan, plus the queue and audio routing.
- `Workflows`: each workflow as a pure function from its oracle to its run. This covers the two `Promise.all` joins of `generate`, the array of tasks each one launches, and a flat stage-by-stage reference run that the joins are proved to compose to.
- `Orchestrator`: class `Karaoke`, whose methods perform the workflows step by step on the `trace` field. Each method is proved to perform exactly the run its function describes. The joins are a loop over the task array.
- `Properties`: what each workflow uploads, enqueues (queue, audio, caption mode and language of every job), fetches and saves, in order, and when each one throws with which message. They also state that every file is saved only after the job result it comes from has been fetched, from the URL that job yielded.

Two behaviours of the code are worth noting. Both are modelled as written:

- The original video is only fetched with `getVideo` (line 42). `generate` never calls `saveFile` for it. Whether `getVideo` stores the download is up to the library.
- The English word-level fast path is launched in the same join as `split` (lines 40-57). It runs to completion and may save word captions even when `split` throws. `Properties.GenerateSaves` states this.

## Model

| member | source | states |
|---|---|---|
| Routing.AlignQueue | src/lib/karaoke.js:155-159 | an alignment job goes to the English queue exactly when the language is "en" and the mode is word captions; every other job, English line captions included, goes to the general queue |
| Routing.RealignRoute | src/lib/karaoke.js:132-134 | realign uses the original audio and the English queue exactly for "en", and the vocals and the general queue for every other language |
| Routing.IncludesMembers | src/lib/karaoke.js:60 | the `includes` scan of the language table finds exactly the languages listed in it |
| Routing.EnglishSupported | src/lib/karaoke.js:212-309 | "en" is in the supported-language table, so the supported check never excludes English |
| Workflows.LaunchPlanTasks | src/lib/karaoke.js:40-56 | the first join always holds split, the original video and the metadata, in that order; its only alignment is the word-level one on the original audio, present exactly when there are lyrics and the language is "en" |
| Workflows.AlignPlanTasks | src/lib/karaoke.js:60-82 | the second join holds only alignments, all on the vocals and only for lyrics in a supported language: line level always, word level exactly when the language is not "en" |
| Workflows.AlignGroupNeverThrows | src/lib/karaoke.js:60-83 | a join made only of alignment sub-workflows never throws, whatever their jobs yield |
| Workflows.LaunchRun | src/lib/karaoke.js:40-57 | the first join throws exactly the error of split; it performs split, the original video, the metadata and the fast path, in array order |
| Workflows.AlignsRun | src/lib/karaoke.js:60-83 | the second join performs the line, then the word alignment on the vocals |
| Workflows.StagesCases | src/lib/karaoke.js:57-87 | a throwing join stops generate with its error after the prologue and that join; otherwise both joins run and the two separated videos follow |
| Workflows.JoinsMatchRun | src/lib/karaoke.js:15-88 | generate composed from its joins equals the flat stage-by-stage run: it throws "Processing failed" exactly when the separation result is malformed, and then stops after the first join |
| Orchestrator.Karaoke.Split | src/lib/karaoke.js:176-210 | performs the split run: enqueue and wait on the split queue; if the job, result, instruments or vocals URL is missing, throw "Processing failed"; else fetch both tracks with retry and save instruments then vocals as M4A |
| Orchestrator.Karaoke.Align | src/lib/karaoke.js:155-174 | performs the align run: enqueue on the routed queue and wait; return quietly without an alignments URL; else fetch with retry and save one JSON file under the mode; never throws |
| Orchestrator.Karaoke.RunTask | src/lib/karaoke.js:40-56 | performs one member of a join: split, a video fetch, the metadata fetch or an alignment |
| Orchestrator.Karaoke.RunAll | src/lib/karaoke.js:57 | `Promise.all`: performs every task of the array in order and reports the first error |
| Orchestrator.Karaoke.Prepare | src/lib/karaoke.js:18-38 | performs the prologue; the language is detected, and the lyrics uploaded, only when lyrics were found |
| Orchestrator.Karaoke.Launch | src/lib/karaoke.js:40-57 | builds the `promises` array of the plan and runs it as one join |
| Orchestrator.Karaoke.AlignSupported | src/lib/karaoke.js:60-84 | builds the `alignPromises` array for lyrics in a supported language and runs it; otherwise does nothing |
| Orchestrator.Karaoke.Generate | src/lib/karaoke.js:15-88 | performs exactly the generate run and throws exactly its error |
| Orchestrator.Karaoke.AlignLine | src/lib/karaoke.js:90-125 | performs exactly the alignline run and throws exactly its error |
| Orchestrator.Karaoke.Realign | src/lib/karaoke.js:127-153 | performs exactly the realign run and throws exactly its error |
| Properties.SplitJobs | src/lib/karaoke.js:177 | split enqueues exactly one job, on the split queue, over the original audio |
| Properties.SplitQuiet | src/lib/karaoke.js:176-210 | split uploads nothing and fetches no video |
| Properties.SplitRejects | src/lib/karaoke.js:179-185 | a malformed separation result throws "Processing failed" and saves nothing |
| Properties.SplitSaves | src/lib/karaoke.js:196-207 | a complete separation result succeeds and saves exactly instruments then vocals, both M4A |
| Properties.SplitFetches | src/lib/karaoke.js:186-195 | a complete separation result fetches the vocals URL then the instruments URL, both with retry |
| Properties.AlignJobs | src/lib/karaoke.js:156-164 | align never throws and enqueues exactly one job: routed queue, given audio, lyrics, mode and language |
| Properties.AlignQuiet | src/lib/karaoke.js:155-174 | align uploads nothing and fetches no video |
| Properties.AlignSaves | src/lib/karaoke.js:166-173 | align saves one JSON file under its mode exactly when the job yields an alignments URL, and nothing otherwise |
| Properties.AlignFetches | src/lib/karaoke.js:166-172 | align fetches the alignments URL once, with retry, exactly when it is present |
| Properties.PrologueUploads | src/lib/karaoke.js:30-38 | before the joins, generate uploads the original audio, then the lyrics only when lyrics were found |
| Properties.PrologueQuiet | src/lib/karaoke.js:18-38 | before the joins, generate enqueues, fetches and saves nothing, and fetches no video |
| Properties.FastPathJobs | src/lib/karaoke.js:45-56 | the fast path enqueues one English-queue word job on the original audio exactly for lyrics in "en" |
| Properties.FastPathSaves | src/lib/karaoke.js:45-56 | the fast path saves word captions exactly for lyrics in "en" whose job yields an alignments URL |
| Properties.FastPathQuiet | src/lib/karaoke.js:45-56 | the fast path uploads nothing and fetches no video |
| Properties.VocalsJobs | src/lib/karaoke.js:60-83 | the vocals alignments enqueue, for lyrics in a supported language, a line job then, unless "en", a word job, both over the vocals; else none |
| Properties.VocalsSaves | src/lib/karaoke.js:60-83 | the vocals alignments save line captions, then word captions unless "en", each only when its job yields an alignments URL |
| Properties.VocalsQuiet | src/lib/karaoke.js:60-83 | the vocals alignments upload nothing and fetch no video |
| Properties.GenerateFails | src/lib/karaoke.js:57 | generate throws exactly when the separation result is malformed, and then with the message "Processing failed" |
| Properties.GenerateJobs | src/lib/karaoke.js:40-84 | generate enqueues, in order: the split job; the English word job on the original audio for lyrics in "en"; and, only when split succeeded, the vocals line job and, unless "en", the vocals word job, for lyrics in a supported language |
| Properties.GenerateSaves | src/lib/karaoke.js:15-88 | generate saves instruments and vocals when split succeeds, and the fast-path word captions even if split fails (these first-join saves listed in array order); after them, the vocals captions only if split succeeded |
| Properties.FastPathFetches | src/lib/karaoke.js:45-56 | the fast path fetches the alignments of its job, with retry, exactly for lyrics in "en" whose job yields an alignments URL |
| Properties.VocalsFetches | src/lib/karaoke.js:60-83 | the vocals alignments fetch the line job's alignments, then the word job's unless "en", each with retry and only when the job yields an alignments URL |
| Properties.GenerateFetches | src/lib/karaoke.js:40-87 | generate fetches, each with retry: the vocals and instruments tracks when split succeeds; the fast-path alignments; then, only if split succeeded, the vocals alignments; a job without alignments is not fetched |
| Properties.GenerateVideos | src/lib/karaoke.js:42-87 | generate fetches the original video, then the instruments and vocals videos only when split succeeded |
| Properties.GenerateUploads | src/lib/karaoke.js:30-38 | generate uploads the original audio, then the lyrics when found, and nothing else |
| Properties.UnsupportedJobs | src/lib/karaoke.js:60 | without lyrics or with an unsupported language, generate enqueues only the split job |
| Properties.UnsupportedSaves | src/lib/karaoke.js:45-84 | without lyrics or with an unsupported language, generate saves only instruments and vocals, and only when split succeeds |
| Properties.EnglishJobs | src/lib/karaoke.js:45-82 | for lyrics in "en", generate enqueues split, one English-queue word job on the original audio and, if split succeeded, one general-queue line job on the vocals; never a second word job |
| Properties.OtherLanguageJobs | src/lib/karaoke.js:60-83 | for lyrics in a supported language other than "en", generate enqueues split and, if split succeeded, a line and a word job, both on the vocals and the general queue |
| Properties.AlignLineLookups | src/lib/karaoke.js:92-103 | an alignline run that fails an input check performs only the lookups of the stored alignments, the language and the vocals |
| Properties.AlignLineOutcome | src/lib/karaoke.js:96-114 | alignline throws "Line level sync not found" exactly for missing or empty alignments; "Can't detect language" exactly when alignments exist but the language does not; "Can't find vocals" exactly when only the vocals are missing; "Sync failed" exactly when the inputs pass but the job yields no alignments URL; else it succeeds; each error carries that message text |
| Properties.AlignLineRejects | src/lib/karaoke.js:96-103 | a failed input check happens before any upload, enqueue, fetch or save |
| Properties.AlignLineUploads | src/lib/karaoke.js:104-106 | past the checks, alignline uploads the vocals then the line alignments |
| Properties.AlignLineJobs | src/lib/karaoke.js:107-111 | past the checks, alignline enqueues exactly one job, on the line-to-word queue, over the vocals, with the line alignments and the language |
| Properties.AlignLineSaves | src/lib/karaoke.js:113-124 | alignline saves one word-caption JSON file exactly when it succeeds, and nothing otherwise |
| Properties.AlignLineFetches | src/lib/karaoke.js:115-118 | a successful alignline fetches the alignments URL once, without retry |
| Properties.RealignLookups | src/lib/karaoke.js:128-131 | a realign run that fails an input check performs only the lyrics and language lookups |
| Properties.RealignOutcome | src/lib/karaoke.js:128-145 | realign throws "Lyrics is empty" exactly without lyrics; "Can't detect language" exactly with lyrics but no language; "Sync failed" exactly when the inputs pass but the job yields no alignments URL; else it succeeds; each error carries that message text |
| Properties.RealignRejects | src/lib/karaoke.js:128-131 | a failed input check happens before any upload, enqueue, fetch or save |
| Properties.RealignJobs | src/lib/karaoke.js:132-142 | past the checks, realign enqueues exactly one job: English queue on the original audio for "en", else general queue on the vocals, with the requested mode whatever it is |
| Properties.RealignUploads | src/lib/karaoke.js:135-137 | past the checks, realign uploads the routed audio then the lyrics |
| Properties.RealignSaves | src/lib/karaoke.js:143-152 | realign saves one JSON file under the requested mode exactly when it succeeds, and nothing otherwise |
| Properties.RealignFetches | src/lib/karaoke.js:144-151 | a successful realign fetches the alignments URL once, with retry |
| Properties.SplitFetchedFirst | src/lib/karaoke.js:186-207 | split saves instruments only after fetching the instruments URL its job yielded, and vocals only after fetching the vocals URL |
| Properties.AlignFetchedFirst | src/lib/karaoke.js:166-173 | align saves its captions only after fetching the alignments URL its job yielded |
| Properties.GenerateFetchedFirst | src/lib/karaoke.js:15-88 | every file generate saves comes after the fetch of its source: the tracks from the split result, line captions from the vocals line job, word captions from the original-audio job for "en" and from the vocals word job otherwise |
| Properties.AlignLineFetchedFirst | src/lib/karaoke.js:113-124 | alignline saves word captions only after fetching the alignments URL its job yielded |
| Properties.RealignFetchedFirst | src/lib/karaoke.js:144-152 | realign saves captions under the requested mode only after fetching the alignments URL its job yielded |

## Left out

- Collaborator failures: an upload, enqueue, wait, library call or fetch that rejects, or a retry that gives up. Their behaviour belongs to the client, library and retry modules, which are not part of this model. Every collaborator call is modelled as answering.
- Retry policy: attempt counts and backoff belong to the retry library. A fetch records only whether its call site retries it.
- Orchestrator.Karaoke.RunAll: members of a `Promise.all` run one after another in array order. Interleavings are not modelled. Members launched after a failing one are modelled as running to completion, as the source lets them. The join's error is the first failure in array order.
- Properties.GenerateSaves: lists the saves of the first join (split's two tracks, then the fast path's word captions) in array order. The source does not order them: the fast path usually finishes before separation does. Only the order between the two joins is a promise of the source. The same holds for Properties.GenerateFetches and the first join's fetches.
- Payload contents: audio bytes, lyrics text, alignment JSON and the serialisation at line 106. An uploaded audio file is identified by the media mode it was loaded in. A job's parameters are identified by their audio, text, caption mode and language.
- Audio URLs: a job's audio is named by its media mode only. The vocals of the alignment jobs of generate are the `vocalsUrl` that split returns (line 58), while alignline and realign upload the vocals the library holds. Both are written `MediaVocals`, so the model does not tell the two sources apart.
- Item identifier and title: every call concerns the same item, so they are not modelled.
- `debug` logging: not modelled.
- Status reports made by the queue client while it waits: not modelled. The status labels of the orchestrator itself are events without properties.
- Job identifiers returned by enqueue: a wait is identified by its queue.
- Language detection and lyrics search belong to the library: their results are oracle inputs.
