/** The workflows of the orchestrator as functions from the answers of its
    collaborators (the oracles) to the run they produce: the effects performed,
    in order, and whether the workflow threw. */
module Workflows {
  import opened Trace
  import opened Routing

  /** What `client.wait` yields for a job: possibly nothing, possibly a job
      without a result, and a result whose URL fields may each be missing. */
  datatype JobResult = JobResult(alignmentsUrl: Option<Url>, instrumentsUrl: Option<Url>, vocalsUrl: Option<Url>)
  datatype Job = Job(result: Option<JobResult>)

  /** The negation of `!job || !job.result || !job.result.alignmentsUrl`. */
  predicate AlignmentsReady(job: Option<Job>)
  {
    job.Some? && job.value.result.Some? && Truthy(job.value.result.value.alignmentsUrl)
  }

  /** The negation of the guard of split: the job, its result and both
      separated track URLs are present. */
  predicate SeparationReady(job: Option<Job>)
  {
    job.Some? && job.value.result.Some?
    && Truthy(job.value.result.value.instrumentsUrl) && Truthy(job.value.result.value.vocalsUrl)
  }

  /** split: one job on the separation queue over the original audio; both
      tracks are fetched with retry, then instruments and vocals are saved. */
  function SplitRun(job: Option<Job>): Run
  {
    var t := [Enqueue(QueueSplit, JobParams(MediaOriginal, None, None, None)), Wait(QueueSplit)];
    if !SeparationReady(job) then Err(ProcessingFailed, t)
    else
      var res := job.value.result.value;
      Ok(t + [Status(DownloadingFiles),
              Fetch(res.vocalsUrl.value, true), Fetch(res.instrumentsUrl.value, true),
              SaveFile(MediaInstruments, M4a), SaveFile(MediaVocals, M4a)])
  }

  /** align: one job on the queue the routing policy picks; a job without an
      alignments URL ends the sub-workflow quietly. */
  function AlignRun(audio: Mode, lang: Option<Lang>, mode: Mode, job: Option<Job>): Run
  {
    var q := AlignQueue(lang, mode);
    var t := [Enqueue(q, JobParams(audio, Some(LyricsText), Some(mode), lang)), Wait(q)];
    if !AlignmentsReady(job) then Ok(t)
    else Ok(t + [Fetch(job.value.result.value.alignmentsUrl.value, true), SaveFile(mode, Json)])
  }

  /** The answers generate receives: the lyrics found, the language detected
      from them, and the result of each job it may wait on. Alignment jobs are
      told apart by the audio they run on and the caption mode they produce. */
  datatype GenerateOracle = GenerateOracle(
    lyrics: Option<string>,
    lang: Option<Lang>,
    splitJob: Option<Job>,
    alignJobs: (Mode, Mode) -> Option<Job>)

  /** The members of a `Promise.all` in generate. */
  datatype Task = SplitTask | VideoTask(mode: Mode) | InfoTask | AlignTask(audio: Mode, mode: Mode)

  /** The language generate works with: detected only when lyrics were found. */
  function DetectedLang(o: GenerateOracle): Option<Lang>
  {
    if Truthy(o.lyrics) then o.lang else None
  }

  function TaskRun(task: Task, lang: Option<Lang>, o: GenerateOracle): Run
  {
    match task
    case SplitTask => SplitRun(o.splitJob)
    case VideoTask(m) => Ok([GetVideo(m)])
    case InfoTask => Ok([GetInfo])
    case AlignTask(audio, mode) => AlignRun(audio, lang, mode, o.alignJobs(audio, mode))
  }

  /** `Promise.all(tasks)`: every task is launched and runs to completion, in
      array order; the first failure in that order is the one the join throws. */
  function GroupRun(tasks: seq<Task>, lang: Option<Lang>, o: GenerateOracle): Run
    decreases |tasks|
  {
    if tasks == [] then Ok([])
    else Join(GroupRun(tasks[..|tasks| - 1], lang, o), TaskRun(tasks[|tasks| - 1], lang, o))
  }

  /** Joining one more task extends the join of the tasks before it. */
  lemma GroupRunStep(tasks: seq<Task>, i: nat, lang: Option<Lang>, o: GenerateOracle)
    requires i < |tasks|
    ensures GroupRun(tasks[..i + 1], lang, o) == Join(GroupRun(tasks[..i], lang, o), TaskRun(tasks[i], lang, o))
  {
    assert tasks[..i + 1][..i] == tasks[..i];
  }

  /** The `promises` array of generate: separation, original video and
      metadata, and the English word-level fast path on the original audio. */
  function LaunchPlan(lyrics: Option<string>, lang: Option<Lang>): seq<Task>
  {
    var promises := [SplitTask, VideoTask(MediaOriginal), InfoTask];
    if Truthy(lyrics) && lang == Some("en") then promises + [AlignTask(MediaOriginal, CaptionsWord)]
    else promises
  }

  /** The `alignPromises` array of generate: line level always and word level
      unless English, both on the separated vocals, only for a supported
      language. */
  function AlignPlan(lyrics: Option<string>, lang: Option<Lang>): seq<Task>
  {
    if Truthy(lyrics) && Supported(lang) then
      var alignPromises := [AlignTask(MediaVocals, CaptionsLine)];
      if lang != Some("en") then alignPromises + [AlignTask(MediaVocals, CaptionsWord)]
      else alignPromises
    else []
  }

  /** The first join always launches separation, the original video and the
      metadata, in that order, and its only alignment is the English
      word-level one on the original audio. */
  lemma LaunchPlanTasks(lyrics: Option<string>, lang: Option<Lang>)
    ensures var tasks := LaunchPlan(lyrics, lang);
            && |tasks| >= 3 && tasks[..3] == [SplitTask, VideoTask(MediaOriginal), InfoTask]
            && forall a, m :: AlignTask(a, m) in tasks <==>
                 a == MediaOriginal && m == CaptionsWord && Truthy(lyrics) && IsEnglish(lang)
  {
  }

  /** The second join holds alignments only: line level on the vocals for a
      supported language, and word level on the vocals unless English, which
      already has its word-level job. */
  lemma AlignPlanTasks(lyrics: Option<string>, lang: Option<Lang>)
    ensures forall a, m :: AlignTask(a, m) in AlignPlan(lyrics, lang) <==>
              a == MediaVocals && Truthy(lyrics) && Supported(lang)
              && (m == CaptionsLine || (m == CaptionsWord && !IsEnglish(lang)))
    ensures forall t :: t in AlignPlan(lyrics, lang) ==> t.AlignTask?
  {
  }

  /** A join of alignment sub-workflows never throws, whatever their jobs
      yield. */
  lemma {:induction false} AlignGroupNeverThrows(tasks: seq<Task>, lang: Option<Lang>, o: GenerateOracle)
    requires forall t :: t in tasks ==> t.AlignTask?
    ensures GroupRun(tasks, lang, o).Ok?
    decreases |tasks|
  {
    if tasks != [] {
      var init := tasks[..|tasks| - 1];
      assert forall t :: t in init ==> t in tasks;
      AlignGroupNeverThrows(init, lang, o);
      assert tasks[|tasks| - 1] in tasks;
    }
  }

  /** The steps of generate before its first join. */
  function Prologue(o: GenerateOracle): seq<Event>
  {
    [Status(Initializing), Init, Status(SearchingLyrics), GetLyrics,
     Status(DownloadingAudio), GetAudio(MediaOriginal),
     Status(UploadingFiles), Upload(AudioFile(MediaOriginal))]
    + (if Truthy(o.lyrics) then [GetLanguage(false), Upload(LyricsText)] else [])
  }

  /** generate as the code composes it: the prologue, the launch join, the
      alignment join, and the two final video fetches, each stage only when
      the previous one did not throw. */
  function GenerateJoins(o: GenerateOracle): Run
  {
    var lang := DetectedLang(o);
    Stages(Prologue(o), GroupRun(LaunchPlan(o.lyrics, lang), lang, o), GroupRun(AlignPlan(o.lyrics, lang), lang, o))
  }

  /** The stages of generate once both joins are known. */
  function Stages(prologue: seq<Event>, launch: Run, aligns: Run): Run
  {
    After(prologue, Then(launch, Then(aligns, Ok([GetVideo(MediaInstruments), GetVideo(MediaVocals)]))))
  }

  /** generate stage by stage: the trace of each stage that ran, and the error
      of the first stage that threw. */
  lemma StagesCases(prologue: seq<Event>, launch: Run, aligns: Run)
    ensures launch.Err? ==> Stages(prologue, launch, aligns) == Err(launch.failure, prologue + launch.trace)
    ensures launch.Ok? && aligns.Err? ==>
              Stages(prologue, launch, aligns) == Err(aligns.failure, prologue + launch.trace + aligns.trace)
    ensures launch.Ok? && aligns.Ok? ==>
              Stages(prologue, launch, aligns)
              == Ok(prologue + launch.trace + aligns.trace + [GetVideo(MediaInstruments), GetVideo(MediaVocals)])
  {
    var videos := [GetVideo(MediaInstruments), GetVideo(MediaVocals)];
    if launch.Ok? && aligns.Ok? {
      assert prologue + (launch.trace + (aligns.trace + videos)) == prologue + launch.trace + aligns.trace + videos;
    } else if launch.Ok? {
      assert prologue + (launch.trace + aligns.trace) == prologue + launch.trace + aligns.trace;
    }
  }

  /** The trace of the English word-level fast path of generate, when it is
      launched. */
  function FastPath(o: GenerateOracle, lang: Option<Lang>): seq<Event>
  {
    if Truthy(o.lyrics) && IsEnglish(lang)
    then AlignRun(MediaOriginal, lang, CaptionsWord, o.alignJobs(MediaOriginal, CaptionsWord)).trace
    else []
  }

  /** The traces of the alignments on the separated vocals, when they are
      launched: line level, then word level unless English. */
  function VocalsAligns(o: GenerateOracle, lang: Option<Lang>): seq<Event>
  {
    if Truthy(o.lyrics) && Supported(lang) then
      AlignRun(MediaVocals, lang, CaptionsLine, o.alignJobs(MediaVocals, CaptionsLine)).trace
      + (if IsEnglish(lang) then []
         else AlignRun(MediaVocals, lang, CaptionsWord, o.alignJobs(MediaVocals, CaptionsWord)).trace)
    else []
  }

  /** The first join of generate fails exactly when split does, and performs
      split, the original video, the metadata and the fast path, in that
      order. */
  lemma LaunchRun(o: GenerateOracle, lang: Option<Lang>)
    ensures var launch := GroupRun(LaunchPlan(o.lyrics, lang), lang, o);
            && ErrorOf(launch) == ErrorOf(SplitRun(o.splitJob))
            && launch.trace == SplitRun(o.splitJob).trace + [GetVideo(MediaOriginal), GetInfo] + FastPath(o, lang)
  {
    var base := [SplitTask, VideoTask(MediaOriginal), InfoTask];
    assert base[..2] == [SplitTask, VideoTask(MediaOriginal)];
    assert base[..2][..1] == [SplitTask];
    assert [SplitTask][..0] == [];
    var split := SplitRun(o.splitJob).trace;
    assert GroupRun(base, lang, o).trace == split + [GetVideo(MediaOriginal), GetInfo];
    if Truthy(o.lyrics) && IsEnglish(lang) {
      var plan := base + [AlignTask(MediaOriginal, CaptionsWord)];
      assert plan[..3] == base;
    } else {
      assert split + [GetVideo(MediaOriginal), GetInfo] + [] == split + [GetVideo(MediaOriginal), GetInfo];
    }
  }

  /** The second join of generate performs the vocals alignments in array
      order. */
  lemma AlignsRun(o: GenerateOracle, lang: Option<Lang>)
    ensures GroupRun(AlignPlan(o.lyrics, lang), lang, o).trace == VocalsAligns(o, lang)
  {
    if Truthy(o.lyrics) && Supported(lang) {
      var line := AlignTask(MediaVocals, CaptionsLine);
      assert [line][..0] == [];
      if !IsEnglish(lang) {
        assert [line, AlignTask(MediaVocals, CaptionsWord)][..1] == [line];
      }
    }
  }

  /** The joins of generate compose to its stage-by-stage run: it throws,
      with the message of split, exactly when the separation result is
      malformed, and then stops after the first join. */
  lemma JoinsMatchRun(o: GenerateOracle)
    ensures GenerateJoins(o) == GenerateRun(o)
  {
    var lang := DetectedLang(o);
    var launch := GroupRun(LaunchPlan(o.lyrics, lang), lang, o);
    var aligns := GroupRun(AlignPlan(o.lyrics, lang), lang, o);
    LaunchRun(o, lang);
    AlignsRun(o, lang);
    AlignPlanTasks(o.lyrics, lang);
    AlignGroupNeverThrows(AlignPlan(o.lyrics, lang), lang, o);
    StagesCases(Prologue(o), launch, aligns);
    var split := SplitRun(o.splitJob).trace;
    var middle := [GetVideo(MediaOriginal), GetInfo];
    assert Prologue(o) + (split + middle + FastPath(o, lang)) == Prologue(o) + split + middle + FastPath(o, lang);
  }

  /** generate, stage by stage as it happens: the prologue; split, the
      original video, the metadata and the fast path; then, only when split
      succeeded, the vocals alignments and the two separated videos. */
  function GenerateRun(o: GenerateOracle): Run
  {
    var lang := DetectedLang(o);
    var launched := Prologue(o) + SplitRun(o.splitJob).trace + [GetVideo(MediaOriginal), GetInfo] + FastPath(o, lang);
    if !SeparationReady(o.splitJob) then Err(ProcessingFailed, launched)
    else Ok(launched + VocalsAligns(o, lang) + [GetVideo(MediaInstruments), GetVideo(MediaVocals)])
  }

  /** The answers alignline receives: the stored line alignments, the stored
      language, whether vocals audio was found, and the result of its job. */
  datatype AlignLineOracle = AlignLineOracle(
    alignments: Option<seq<string>>,
    lang: Option<Lang>,
    vocalsFound: bool,
    job: Option<Job>)

  /** alignline: three input checks, then one line-to-word job whose result is
      fetched once, without retry, and saved as word captions. */
  function AlignLineRun(o: AlignLineOracle): Run
  {
    var t0 := [GetAlignments(CaptionsLine)];
    if o.alignments.None? || |o.alignments.value| == 0 then Err(LineSyncNotFound, t0)
    else
      var t1 := t0 + [GetLanguage(false)];
      if !Truthy(o.lang) then Err(LanguageNotDetected, t1)
      else
        var t2 := t1 + [GetAudio(MediaVocals)];
        if !o.vocalsFound then Err(VocalsNotFound, t2)
        else
          var t3 := t2 + [Status(UploadingFiles), Upload(AudioFile(MediaVocals)), Upload(LineAlignments),
                          Enqueue(QueueAlignLine, JobParams(MediaVocals, Some(LineAlignments), None, o.lang)),
                          Wait(QueueAlignLine)];
          if !AlignmentsReady(o.job) then Err(SyncFailed, t3)
          else Ok(t3 + [Fetch(o.job.value.result.value.alignmentsUrl.value, false), SaveFile(CaptionsWord, Json)])
  }

  /** The answers realign receives: the lyrics, the re-detected language and
      the result of its job. */
  datatype RealignOracle = RealignOracle(
    lyrics: Option<string>,
    lang: Option<Lang>,
    job: Option<Job>)

  /** realign: two input checks, then one alignment job routed by language
      alone, whose result is fetched with retry and saved under `mode`. */
  function RealignRun(o: RealignOracle, mode: Mode): Run
  {
    var t0 := [GetLyrics];
    if !Truthy(o.lyrics) then Err(LyricsEmpty, t0)
    else
      var t1 := t0 + [GetLanguage(true)];
      if !Truthy(o.lang) then Err(LanguageNotDetected, t1)
      else
        var (audioMode, queue) := RealignRoute(o.lang.value);
        var t2 := t1 + [GetAudio(audioMode), Upload(AudioFile(audioMode)), Upload(LyricsText),
                        Enqueue(queue, JobParams(audioMode, Some(LyricsText), Some(mode), o.lang)),
                        Wait(queue)];
        if !AlignmentsReady(o.job) then Err(SyncFailed, t2)
        else Ok(t2 + [Fetch(o.job.value.result.value.alignmentsUrl.value, true), SaveFile(mode, Json)])
  }
}
