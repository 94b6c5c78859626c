/** The orchestrator itself: each workflow performs its effects one at a time
    by appending them to `trace`, and is proved to perform exactly the run its
    specification function in module Workflows describes. */
module Orchestrator {
  import opened Trace
  import opened Routing
  import opened Workflows

  class Karaoke {
    /** Every effect performed so far, oldest first. */
    var trace: seq<Event>

    constructor ()
      ensures trace == []
    {
      trace := [];
    }

    /** Performs one effect. */
    method Emit(e: Event)
      modifies this
      ensures trace == old(trace) + [e]
    {
      trace := trace + [e];
    }

    method Split(job: Option<Job>) returns (err: Option<Failure>)
      modifies this
      ensures Performed(old(trace), trace, err, SplitRun(job))
    {
      Emit(Enqueue(QueueSplit, JobParams(MediaOriginal, None, None, None)));
      Emit(Wait(QueueSplit));
      if !SeparationReady(job) {
        return Some(ProcessingFailed);
      }
      var res := job.value.result.value;
      Emit(Status(DownloadingFiles));
      Emit(Fetch(res.vocalsUrl.value, true));
      Emit(Fetch(res.instrumentsUrl.value, true));
      Emit(SaveFile(MediaInstruments, M4a));
      Emit(SaveFile(MediaVocals, M4a));
      err := None;
    }

    /** align never throws: it has no error to return. */
    method Align(audio: Mode, lang: Option<Lang>, mode: Mode, job: Option<Job>)
      modifies this
      ensures trace == old(trace) + AlignRun(audio, lang, mode, job).trace
    {
      var queue := AlignQueue(lang, mode);
      Emit(Enqueue(queue, JobParams(audio, Some(LyricsText), Some(mode), lang)));
      Emit(Wait(queue));
      if !AlignmentsReady(job) {
        return;
      }
      Emit(Fetch(job.value.result.value.alignmentsUrl.value, true));
      Emit(SaveFile(mode, Json));
    }

    method RunTask(task: Task, lang: Option<Lang>, o: GenerateOracle) returns (err: Option<Failure>)
      modifies this
      ensures Performed(old(trace), trace, err, TaskRun(task, lang, o))
    {
      match task
      case SplitTask =>
        err := Split(o.splitJob);
      case VideoTask(m) =>
        Emit(GetVideo(m));
        err := None;
      case InfoTask =>
        Emit(GetInfo);
        err := None;
      case AlignTask(audio, mode) =>
        Align(audio, lang, mode, o.alignJobs(audio, mode));
        err := None;
    }

    /** `await Promise.all(tasks)`: runs every task in array order and keeps
        the first error. */
    method RunAll(tasks: seq<Task>, lang: Option<Lang>, o: GenerateOracle) returns (err: Option<Failure>)
      modifies this
      ensures Performed(old(trace), trace, err, GroupRun(tasks, lang, o))
    {
      err := None;
      var i := 0;
      while i < |tasks|
        invariant 0 <= i <= |tasks|
        invariant Performed(old(trace), trace, err, GroupRun(tasks[..i], lang, o))
      {
        var e := RunTask(tasks[i], lang, o);
        if err.None? {
          err := e;
        }
        GroupRunStep(tasks, i, lang, o);
        Extend(old(trace), GroupRun(tasks[..i], lang, o).trace, TaskRun(tasks[i], lang, o).trace);
        i := i + 1;
      }
      assert tasks[..|tasks|] == tasks;
    }

    /** The steps of generate before its first join; answers the language
        generate goes on with. */
    method Prepare(o: GenerateOracle) returns (lang: Option<Lang>)
      modifies this
      ensures trace == old(trace) + Prologue(o) && lang == DetectedLang(o)
    {
      Emit(Status(Initializing));
      Emit(Init);
      Emit(Status(SearchingLyrics));
      Emit(GetLyrics);
      Emit(Status(DownloadingAudio));
      Emit(GetAudio(MediaOriginal));
      Emit(Status(UploadingFiles));
      Emit(Upload(AudioFile(MediaOriginal)));
      lang := None;
      if Truthy(o.lyrics) {
        Emit(GetLanguage(false));
        lang := o.lang;
        Emit(Upload(LyricsText));
      }
    }

    /** The first join of generate: separation, original video, metadata and,
        for English lyrics, the word-level fast path on the original audio. */
    method Launch(o: GenerateOracle, lang: Option<Lang>) returns (err: Option<Failure>)
      modifies this
      ensures Performed(old(trace), trace, err, GroupRun(LaunchPlan(o.lyrics, lang), lang, o))
    {
      var promises := [SplitTask, VideoTask(MediaOriginal), InfoTask];
      if Truthy(o.lyrics) && lang == Some("en") {
        promises := promises + [AlignTask(MediaOriginal, CaptionsWord)];
      }
      assert promises == LaunchPlan(o.lyrics, lang);
      err := RunAll(promises, lang, o);
    }

    /** The second join of generate: line and word alignment on the separated
        vocals for a supported language. It never throws. */
    method AlignSupported(o: GenerateOracle, lang: Option<Lang>)
      modifies this
      ensures trace == old(trace) + GroupRun(AlignPlan(o.lyrics, lang), lang, o).trace
    {
      if Truthy(o.lyrics) && Supported(lang) {
        var alignPromises := [AlignTask(MediaVocals, CaptionsLine)];
        if lang != Some("en") {
          alignPromises := alignPromises + [AlignTask(MediaVocals, CaptionsWord)];
        }
        assert alignPromises == AlignPlan(o.lyrics, lang);
        var err := RunAll(alignPromises, lang, o);
      }
    }

    method Generate(o: GenerateOracle) returns (err: Option<Failure>)
      modifies this
      ensures Performed(old(trace), trace, err, GenerateRun(o))
    {
      JoinsMatchRun(o);
      ghost var start := trace;
      var lang := Prepare(o);
      ghost var launch := GroupRun(LaunchPlan(o.lyrics, lang), lang, o);
      ghost var aligns := GroupRun(AlignPlan(o.lyrics, lang), lang, o);
      StagesCases(Prologue(o), launch, aligns);

      err := Launch(o, lang);
      Extend(start, Prologue(o), launch.trace);
      if err.Some? {
        return;
      }
      AlignSupported(o, lang);
      AlignPlanTasks(o.lyrics, lang);
      AlignGroupNeverThrows(AlignPlan(o.lyrics, lang), lang, o);
      Extend(start, Prologue(o) + launch.trace, aligns.trace);
      ghost var aligned := trace;
      Emit(GetVideo(MediaInstruments));
      Emit(GetVideo(MediaVocals));
      ghost var videos := [GetVideo(MediaInstruments), GetVideo(MediaVocals)];
      assert trace == aligned + videos;
      Extend(start, Prologue(o) + launch.trace + aligns.trace, videos);
    }

    method AlignLine(o: AlignLineOracle) returns (err: Option<Failure>)
      modifies this
      ensures Performed(old(trace), trace, err, AlignLineRun(o))
    {
      Emit(GetAlignments(CaptionsLine));
      if o.alignments.None? || |o.alignments.value| == 0 {
        return Some(LineSyncNotFound);
      }
      Emit(GetLanguage(false));
      if !Truthy(o.lang) {
        return Some(LanguageNotDetected);
      }
      Emit(GetAudio(MediaVocals));
      if !o.vocalsFound {
        return Some(VocalsNotFound);
      }
      Emit(Status(UploadingFiles));
      Emit(Upload(AudioFile(MediaVocals)));
      Emit(Upload(LineAlignments));
      Emit(Enqueue(QueueAlignLine, JobParams(MediaVocals, Some(LineAlignments), None, o.lang)));
      Emit(Wait(QueueAlignLine));
      assert trace == old(trace) + [GetAlignments(CaptionsLine), GetLanguage(false), GetAudio(MediaVocals), Status(UploadingFiles),
                                    Upload(AudioFile(MediaVocals)), Upload(LineAlignments),
                                    Enqueue(QueueAlignLine, JobParams(MediaVocals, Some(LineAlignments), None, o.lang)), Wait(QueueAlignLine)];
      if !AlignmentsReady(o.job) {
        return Some(SyncFailed);
      }
      Emit(Fetch(o.job.value.result.value.alignmentsUrl.value, false));
      Emit(SaveFile(CaptionsWord, Json));
      err := None;
    }

    method Realign(o: RealignOracle, mode: Mode) returns (err: Option<Failure>)
      modifies this
      ensures Performed(old(trace), trace, err, RealignRun(o, mode))
    {
      Emit(GetLyrics);
      if !Truthy(o.lyrics) {
        return Some(LyricsEmpty);
      }
      Emit(GetLanguage(true));
      if !Truthy(o.lang) {
        return Some(LanguageNotDetected);
      }
      var (audioMode, queue) := RealignRoute(o.lang.value);
      Emit(GetAudio(audioMode));
      Emit(Upload(AudioFile(audioMode)));
      Emit(Upload(LyricsText));
      Emit(Enqueue(queue, JobParams(audioMode, Some(LyricsText), Some(mode), o.lang)));
      Emit(Wait(queue));
      assert trace == old(trace) + [GetLyrics, GetLanguage(true), GetAudio(audioMode), Upload(AudioFile(audioMode)), Upload(LyricsText),
                                    Enqueue(queue, JobParams(audioMode, Some(LyricsText), Some(mode), o.lang)), Wait(queue)];
      if !AlignmentsReady(o.job) {
        return Some(SyncFailed);
      }
      Emit(Fetch(o.job.value.result.value.alignmentsUrl.value, true));
      Emit(SaveFile(mode, Json));
      err := None;
    }
  }
}
