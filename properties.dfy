/** What the orchestrator guarantees about its remote jobs: which jobs go to
    which queue on which audio, which files are persisted and in what order,
    and which failures are fatal. Each property is stated over the run its
    specification function in module Workflows describes. */
module Properties {
  import opened Trace
  import opened Routing
  import opened Workflows

  const SplitJob := Enqueue(QueueSplit, JobParams(MediaOriginal, None, None, None))

  /** The alignment job generate enqueues for `audio` and caption `mode`. */
  function AlignJob(audio: Mode, lang: Option<Lang>, mode: Mode): Event
  {
    Enqueue(AlignQueue(lang, mode), JobParams(audio, Some(LyricsText), Some(mode), lang))
  }

  /** The caption file an alignment job yields: one JSON file under `mode`
      when its result carries alignments. */
  function Saved(mode: Mode, job: Option<Job>): seq<Event>
  {
    if AlignmentsReady(job) then [SaveFile(mode, Json)] else []
  }

  // split

  /** The projection of a run of split, effect by effect. */
  lemma SplitEffects(job: Option<Job>, k: Kind)
    ensures Effects(SplitRun(job).trace, k)
            == Keep(SplitJob, k) + Keep(Wait(QueueSplit), k)
               + (if SeparationReady(job)
                  then Keep(Status(DownloadingFiles), k)
                       + Keep(Fetch(job.value.result.value.vocalsUrl.value, true), k)
                       + Keep(Fetch(job.value.result.value.instrumentsUrl.value, true), k)
                       + Keep(SaveFile(MediaInstruments, M4a), k) + Keep(SaveFile(MediaVocals, M4a), k)
                  else [])
  {
    var head := [SplitJob, Wait(QueueSplit)];
    EffectsOf2(SplitJob, Wait(QueueSplit));
    if SeparationReady(job) {
      var res := job.value.result.value;
      var tail := [Status(DownloadingFiles), Fetch(res.vocalsUrl.value, true), Fetch(res.instrumentsUrl.value, true),
                   SaveFile(MediaInstruments, M4a), SaveFile(MediaVocals, M4a)];
      assert SplitRun(job).trace == head + tail;
      EffectsOf5(tail[0], tail[1], tail[2], tail[3], tail[4]);
      EffectsAppend(head, tail);
    } else {
      assert SplitRun(job).trace == head;
    }
  }

  /** split enqueues exactly one job: on the separation queue, over the
      original audio. */
  lemma SplitJobs(job: Option<Job>)
    ensures Effects(SplitRun(job).trace, Enqueues) == [SplitJob]
  {
    SplitEffects(job, Enqueues);
  }

  /** split uploads nothing and fetches no video. */
  lemma SplitQuiet(job: Option<Job>, k: Kind)
    requires k == Uploads || k == Videos
    ensures Effects(SplitRun(job).trace, k) == []
  {
    SplitEffects(job, k);
  }

  /** A separation result without both track URLs makes split throw
      "Processing failed" having saved nothing. */
  lemma SplitRejects(job: Option<Job>)
    requires !SeparationReady(job)
    ensures SplitRun(job).Err? && SplitRun(job).failure == ProcessingFailed
    ensures Effects(SplitRun(job).trace, Saves) == []
  {
    SplitEffects(job, Saves);
  }

  /** Otherwise split succeeds, and saves instruments, then vocals, both as
      M4A. */
  lemma SplitSaves(job: Option<Job>)
    requires SeparationReady(job)
    ensures SplitRun(job).Ok?
    ensures Effects(SplitRun(job).trace, Saves) == [SaveFile(MediaInstruments, M4a), SaveFile(MediaVocals, M4a)]
  {
    SplitEffects(job, Saves);
  }

  /** ... after fetching vocals, then instruments, each with retry. */
  lemma SplitFetches(job: Option<Job>)
    requires SeparationReady(job)
    ensures Effects(SplitRun(job).trace, Fetches)
            == [Fetch(job.value.result.value.vocalsUrl.value, true), Fetch(job.value.result.value.instrumentsUrl.value, true)]
  {
    SplitEffects(job, Fetches);
  }

  // align

  /** The projection of a run of align, effect by effect. */
  lemma AlignEffects(audio: Mode, lang: Option<Lang>, mode: Mode, job: Option<Job>, k: Kind)
    ensures Effects(AlignRun(audio, lang, mode, job).trace, k)
            == Keep(AlignJob(audio, lang, mode), k) + Keep(Wait(AlignQueue(lang, mode)), k)
               + (if AlignmentsReady(job)
                  then Keep(Fetch(job.value.result.value.alignmentsUrl.value, true), k) + Keep(SaveFile(mode, Json), k)
                  else [])
  {
    var head := [AlignJob(audio, lang, mode), Wait(AlignQueue(lang, mode))];
    EffectsOf2(head[0], head[1]);
    if AlignmentsReady(job) {
      var tail := [Fetch(job.value.result.value.alignmentsUrl.value, true), SaveFile(mode, Json)];
      assert AlignRun(audio, lang, mode, job).trace == head + tail;
      EffectsOf2(tail[0], tail[1]);
      EffectsAppend(head, tail);
    } else {
      assert AlignRun(audio, lang, mode, job).trace == head;
    }
  }

  /** align uploads nothing and fetches no video. */
  lemma AlignQuiet(audio: Mode, lang: Option<Lang>, mode: Mode, job: Option<Job>, k: Kind)
    requires k == Uploads || k == Videos
    ensures Effects(AlignRun(audio, lang, mode, job).trace, k) == []
  {
    AlignEffects(audio, lang, mode, job, k);
  }

  /** align never throws, and enqueues exactly one job, on the queue the
      routing policy picks for its language and mode. */
  lemma AlignJobs(audio: Mode, lang: Option<Lang>, mode: Mode, job: Option<Job>)
    ensures AlignRun(audio, lang, mode, job).Ok?
    ensures Effects(AlignRun(audio, lang, mode, job).trace, Enqueues) == [AlignJob(audio, lang, mode)]
  {
    AlignEffects(audio, lang, mode, job, Enqueues);
  }

  /** A job without an alignments URL ends align without a save; otherwise
      it saves exactly one JSON file under `mode`. */
  lemma AlignSaves(audio: Mode, lang: Option<Lang>, mode: Mode, job: Option<Job>)
    ensures Effects(AlignRun(audio, lang, mode, job).trace, Saves)
            == if AlignmentsReady(job) then [SaveFile(mode, Json)] else []
  {
    AlignEffects(audio, lang, mode, job, Saves);
  }

  /** ... and without a fetch; otherwise it fetches the alignments once,
      with retry. */
  lemma AlignFetches(audio: Mode, lang: Option<Lang>, mode: Mode, job: Option<Job>)
    ensures Effects(AlignRun(audio, lang, mode, job).trace, Fetches)
            == if AlignmentsReady(job) then [Fetch(job.value.result.value.alignmentsUrl.value, true)] else []
  {
    AlignEffects(audio, lang, mode, job, Fetches);
  }

  // generate

  /** The projection of the prologue of generate, effect by effect. */
  lemma PrologueEffects(o: GenerateOracle, k: Kind)
    ensures Effects(Prologue(o), k)
            == Keep(Status(Initializing), k) + Keep(Init, k) + Keep(Status(SearchingLyrics), k) + Keep(GetLyrics, k)
               + Keep(Status(DownloadingAudio), k) + Keep(GetAudio(MediaOriginal), k)
               + Keep(Status(UploadingFiles), k) + Keep(Upload(AudioFile(MediaOriginal)), k)
               + (if Truthy(o.lyrics) then Keep(GetLanguage(false), k) + Keep(Upload(LyricsText), k) else [])
  {
    var fixed := [Status(Initializing), Init, Status(SearchingLyrics), GetLyrics,
                  Status(DownloadingAudio), GetAudio(MediaOriginal),
                  Status(UploadingFiles), Upload(AudioFile(MediaOriginal))];
    EffectsOf8(fixed[0], fixed[1], fixed[2], fixed[3], fixed[4], fixed[5], fixed[6], fixed[7]);
    var found: seq<Event> := if Truthy(o.lyrics) then [GetLanguage(false), Upload(LyricsText)] else [];
    EffectsOf2(GetLanguage(false), Upload(LyricsText));
    assert Prologue(o) == fixed + found;
    EffectsAppend(fixed, found);
  }

  /** The prologue uploads the original audio and, when lyrics were found,
      the lyrics. */
  lemma PrologueUploads(o: GenerateOracle)
    ensures Effects(Prologue(o), Uploads)
            == [Upload(AudioFile(MediaOriginal))] + (if Truthy(o.lyrics) then [Upload(LyricsText)] else [])
  {
    PrologueEffects(o, Uploads);
  }

  /** ... and performs no effect of any other kind. */
  lemma PrologueQuiet(o: GenerateOracle, k: Kind)
    requires k != Uploads
    ensures Effects(Prologue(o), k) == []
  {
    PrologueEffects(o, k);
  }

  /** A run of generate seen through one projection, assembled from the
      projections of its stages: the prologue, split, the original video and
      the metadata, the fast path and, only when split succeeded, the vocals
      alignments and the two separated videos. */
  function Assemble(ready: bool, prologue: seq<Event>, split: seq<Event>, launch: seq<Event>, fast: seq<Event>,
                    vocals: seq<Event>, videos: seq<Event>): seq<Event>
  {
    var launched := prologue + split + launch + fast;
    if ready then launched + vocals + videos else launched
  }

  /** The projection of a run of generate is assembled from the projections
      of its stages. */
  lemma GenerateEffects(o: GenerateOracle, k: Kind)
    ensures var lang := DetectedLang(o);
            Effects(GenerateRun(o).trace, k)
            == Assemble(SeparationReady(o.splitJob), Effects(Prologue(o), k), Effects(SplitRun(o.splitJob).trace, k),
                        Effects([GetVideo(MediaOriginal), GetInfo], k), Effects(FastPath(o, lang), k),
                        Effects(VocalsAligns(o, lang), k), Effects([GetVideo(MediaInstruments), GetVideo(MediaVocals)], k))
  {
    var lang := DetectedLang(o);
    var split := SplitRun(o.splitJob).trace;
    var middle := [GetVideo(MediaOriginal), GetInfo];
    EffectsAppend(Prologue(o), split);
    EffectsAppend(Prologue(o) + split, middle);
    EffectsAppend(Prologue(o) + split + middle, FastPath(o, lang));
    var launched := Prologue(o) + split + middle + FastPath(o, lang);
    if SeparationReady(o.splitJob) {
      EffectsAppend(launched, VocalsAligns(o, lang));
      EffectsAppend(launched + VocalsAligns(o, lang), [GetVideo(MediaInstruments), GetVideo(MediaVocals)]);
    }
  }

  /** The fast path enqueues the English word-level job when it runs. */
  lemma FastPathJobs(o: GenerateOracle, lang: Option<Lang>)
    ensures Effects(FastPath(o, lang), Enqueues)
            == if Truthy(o.lyrics) && IsEnglish(lang) then [AlignJob(MediaOriginal, lang, CaptionsWord)] else []
  {
    if Truthy(o.lyrics) && IsEnglish(lang) {
      AlignJobs(MediaOriginal, lang, CaptionsWord, o.alignJobs(MediaOriginal, CaptionsWord));
    }
  }

  lemma FastPathSaves(o: GenerateOracle, lang: Option<Lang>)
    ensures Effects(FastPath(o, lang), Saves)
            == if Truthy(o.lyrics) && IsEnglish(lang) then Saved(CaptionsWord, o.alignJobs(MediaOriginal, CaptionsWord)) else []
  {
    if Truthy(o.lyrics) && IsEnglish(lang) {
      AlignSaves(MediaOriginal, lang, CaptionsWord, o.alignJobs(MediaOriginal, CaptionsWord));
    }
  }

  /** The fast path uploads nothing and fetches no video. */
  lemma FastPathQuiet(o: GenerateOracle, lang: Option<Lang>, k: Kind)
    requires k == Uploads || k == Videos
    ensures Effects(FastPath(o, lang), k) == []
  {
    if Truthy(o.lyrics) && IsEnglish(lang) {
      AlignQuiet(MediaOriginal, lang, CaptionsWord, o.alignJobs(MediaOriginal, CaptionsWord), k);
    }
  }

  /** The vocals alignments enqueue line level, then word level unless
      English. */
  lemma VocalsJobs(o: GenerateOracle, lang: Option<Lang>)
    ensures Effects(VocalsAligns(o, lang), Enqueues)
            == if !(Truthy(o.lyrics) && Supported(lang)) then []
               else [AlignJob(MediaVocals, lang, CaptionsLine)]
                    + (if IsEnglish(lang) then [] else [AlignJob(MediaVocals, lang, CaptionsWord)])
  {
    if Truthy(o.lyrics) && Supported(lang) {
      var line := AlignRun(MediaVocals, lang, CaptionsLine, o.alignJobs(MediaVocals, CaptionsLine)).trace;
      var word: seq<Event> := if IsEnglish(lang) then []
                              else AlignRun(MediaVocals, lang, CaptionsWord, o.alignJobs(MediaVocals, CaptionsWord)).trace;
      AlignJobs(MediaVocals, lang, CaptionsLine, o.alignJobs(MediaVocals, CaptionsLine));
      AlignJobs(MediaVocals, lang, CaptionsWord, o.alignJobs(MediaVocals, CaptionsWord));
      assert VocalsAligns(o, lang) == line + word;
      EffectsAppend(line, word);
    }
  }

  lemma VocalsSaves(o: GenerateOracle, lang: Option<Lang>)
    ensures Effects(VocalsAligns(o, lang), Saves)
            == if !(Truthy(o.lyrics) && Supported(lang)) then []
               else Saved(CaptionsLine, o.alignJobs(MediaVocals, CaptionsLine))
                    + (if IsEnglish(lang) then [] else Saved(CaptionsWord, o.alignJobs(MediaVocals, CaptionsWord)))
  {
    if Truthy(o.lyrics) && Supported(lang) {
      var line := AlignRun(MediaVocals, lang, CaptionsLine, o.alignJobs(MediaVocals, CaptionsLine)).trace;
      var word: seq<Event> := if IsEnglish(lang) then []
                              else AlignRun(MediaVocals, lang, CaptionsWord, o.alignJobs(MediaVocals, CaptionsWord)).trace;
      AlignSaves(MediaVocals, lang, CaptionsLine, o.alignJobs(MediaVocals, CaptionsLine));
      AlignSaves(MediaVocals, lang, CaptionsWord, o.alignJobs(MediaVocals, CaptionsWord));
      assert VocalsAligns(o, lang) == line + word;
      EffectsAppend(line, word);
    }
  }

  /** Neither do the vocals alignments. */
  lemma VocalsQuiet(o: GenerateOracle, lang: Option<Lang>, k: Kind)
    requires k == Uploads || k == Videos
    ensures Effects(VocalsAligns(o, lang), k) == []
  {
    if Truthy(o.lyrics) && Supported(lang) {
      var line := AlignRun(MediaVocals, lang, CaptionsLine, o.alignJobs(MediaVocals, CaptionsLine)).trace;
      var word: seq<Event> := if IsEnglish(lang) then []
                              else AlignRun(MediaVocals, lang, CaptionsWord, o.alignJobs(MediaVocals, CaptionsWord)).trace;
      AlignQuiet(MediaVocals, lang, CaptionsLine, o.alignJobs(MediaVocals, CaptionsLine), k);
      AlignQuiet(MediaVocals, lang, CaptionsWord, o.alignJobs(MediaVocals, CaptionsWord), k);
      assert VocalsAligns(o, lang) == line + word;
      EffectsAppend(line, word);
    }
  }

  /** generate throws exactly when split does, and then with its message. */
  lemma GenerateFails(o: GenerateOracle)
    ensures GenerateRun(o).Err? <==> !SeparationReady(o.splitJob)
    ensures GenerateRun(o).Err? ==> GenerateRun(o).failure == ProcessingFailed
    ensures GenerateRun(o).Err? ==> Message(GenerateRun(o).failure) == "Processing failed"
  {
  }

  /** The jobs of generate, put together from the jobs of its stages. */
  lemma AssembleJobs(o: GenerateOracle, prologue: seq<Event>, split: seq<Event>, launch: seq<Event>, fast: seq<Event>,
                     vocals: seq<Event>, videos: seq<Event>)
    requires var lang := DetectedLang(o);
             && prologue == [] && split == [SplitJob] && launch == [] && videos == []
             && fast == (if Truthy(o.lyrics) && IsEnglish(lang) then [AlignJob(MediaOriginal, lang, CaptionsWord)] else [])
             && vocals == (if !(Truthy(o.lyrics) && Supported(lang)) then []
                           else [AlignJob(MediaVocals, lang, CaptionsLine)]
                                + (if IsEnglish(lang) then [] else [AlignJob(MediaVocals, lang, CaptionsWord)]))
    ensures var lang := DetectedLang(o);
            Assemble(SeparationReady(o.splitJob), prologue, split, launch, fast, vocals, videos)
            == [SplitJob]
               + (if Truthy(o.lyrics) && IsEnglish(lang) then [AlignJob(MediaOriginal, lang, CaptionsWord)] else [])
               + (if SeparationReady(o.splitJob) && Truthy(o.lyrics) && Supported(lang)
                  then [AlignJob(MediaVocals, lang, CaptionsLine)]
                       + (if IsEnglish(lang) then [] else [AlignJob(MediaVocals, lang, CaptionsWord)])
                  else [])
  {
  }

  /** Every job generate enqueues, in order: separation on the original
      audio; for English lyrics the word-level job on the original audio
      through the English queue; and, once the vocals exist and the language
      is supported, line level and (unless English) word level on them. */
  lemma GenerateJobs(o: GenerateOracle)
    ensures var lang := DetectedLang(o);
            Effects(GenerateRun(o).trace, Enqueues)
            == [SplitJob]
               + (if Truthy(o.lyrics) && IsEnglish(lang) then [AlignJob(MediaOriginal, lang, CaptionsWord)] else [])
               + (if SeparationReady(o.splitJob) && Truthy(o.lyrics) && Supported(lang)
                  then [AlignJob(MediaVocals, lang, CaptionsLine)]
                       + (if IsEnglish(lang) then [] else [AlignJob(MediaVocals, lang, CaptionsWord)])
                  else [])
  {
    var lang := DetectedLang(o);
    GenerateEffects(o, Enqueues);
    StageJobs(o);
    AssembleJobs(o, Effects(Prologue(o), Enqueues), Effects(SplitRun(o.splitJob).trace, Enqueues),
                 Effects([GetVideo(MediaOriginal), GetInfo], Enqueues), Effects(FastPath(o, lang), Enqueues),
                 Effects(VocalsAligns(o, lang), Enqueues), Effects([GetVideo(MediaInstruments), GetVideo(MediaVocals)], Enqueues));
  }

  /** The jobs of each stage of generate. */
  lemma StageJobs(o: GenerateOracle)
    ensures var lang := DetectedLang(o);
            && Effects(Prologue(o), Enqueues) == [] && Effects(SplitRun(o.splitJob).trace, Enqueues) == [SplitJob]
            && Effects([GetVideo(MediaOriginal), GetInfo], Enqueues) == []
            && Effects(FastPath(o, lang), Enqueues)
               == (if Truthy(o.lyrics) && IsEnglish(lang) then [AlignJob(MediaOriginal, lang, CaptionsWord)] else [])
            && Effects(VocalsAligns(o, lang), Enqueues)
               == (if !(Truthy(o.lyrics) && Supported(lang)) then []
                   else [AlignJob(MediaVocals, lang, CaptionsLine)]
                        + (if IsEnglish(lang) then [] else [AlignJob(MediaVocals, lang, CaptionsWord)]))
            && Effects([GetVideo(MediaInstruments), GetVideo(MediaVocals)], Enqueues) == []
  {
    var lang := DetectedLang(o);
    PrologueQuiet(o, Enqueues);
    SplitJobs(o.splitJob);
    EffectsOf2(GetVideo(MediaOriginal), GetInfo);
    EffectsOf2(GetVideo(MediaInstruments), GetVideo(MediaVocals));
    FastPathJobs(o, lang);
    VocalsJobs(o, lang);
  }

  /** The files of generate, put together from the files of its stages. */
  lemma AssembleSaves(o: GenerateOracle, prologue: seq<Event>, split: seq<Event>, launch: seq<Event>, fast: seq<Event>,
                      vocals: seq<Event>, videos: seq<Event>)
    requires var lang := DetectedLang(o);
             && prologue == [] && launch == [] && videos == []
             && split == (if SeparationReady(o.splitJob) then [SaveFile(MediaInstruments, M4a), SaveFile(MediaVocals, M4a)] else [])
             && fast == (if Truthy(o.lyrics) && IsEnglish(lang) then Saved(CaptionsWord, o.alignJobs(MediaOriginal, CaptionsWord)) else [])
             && vocals == (if !(Truthy(o.lyrics) && Supported(lang)) then []
                           else Saved(CaptionsLine, o.alignJobs(MediaVocals, CaptionsLine))
                                + (if IsEnglish(lang) then [] else Saved(CaptionsWord, o.alignJobs(MediaVocals, CaptionsWord))))
    ensures var lang := DetectedLang(o);
            var ready := SeparationReady(o.splitJob);
            Assemble(ready, prologue, split, launch, fast, vocals, videos)
            == (if ready then [SaveFile(MediaInstruments, M4a), SaveFile(MediaVocals, M4a)] else [])
               + (if Truthy(o.lyrics) && IsEnglish(lang) then Saved(CaptionsWord, o.alignJobs(MediaOriginal, CaptionsWord)) else [])
               + (if ready && Truthy(o.lyrics) && Supported(lang)
                  then Saved(CaptionsLine, o.alignJobs(MediaVocals, CaptionsLine))
                       + (if IsEnglish(lang) then [] else Saved(CaptionsWord, o.alignJobs(MediaVocals, CaptionsWord)))
                  else [])
  {
  }

  /** Everything generate persists: the separated tracks and the fast path's
      word captions, from the first join, then the line and word captions of
      the vocals alignments; each caption file only when its job yielded
      alignments. The first join's saves are listed in array order; the
      source does not order split's saves against the fast path's. */
  lemma GenerateSaves(o: GenerateOracle)
    ensures var lang := DetectedLang(o);
            var ready := SeparationReady(o.splitJob);
            Effects(GenerateRun(o).trace, Saves)
            == (if ready then [SaveFile(MediaInstruments, M4a), SaveFile(MediaVocals, M4a)] else [])
               + (if Truthy(o.lyrics) && IsEnglish(lang) then Saved(CaptionsWord, o.alignJobs(MediaOriginal, CaptionsWord)) else [])
               + (if ready && Truthy(o.lyrics) && Supported(lang)
                  then Saved(CaptionsLine, o.alignJobs(MediaVocals, CaptionsLine))
                       + (if IsEnglish(lang) then [] else Saved(CaptionsWord, o.alignJobs(MediaVocals, CaptionsWord)))
                  else [])
  {
    var lang := DetectedLang(o);
    GenerateEffects(o, Saves);
    StageSaves(o);
    AssembleSaves(o, Effects(Prologue(o), Saves), Effects(SplitRun(o.splitJob).trace, Saves),
                  Effects([GetVideo(MediaOriginal), GetInfo], Saves), Effects(FastPath(o, lang), Saves),
                  Effects(VocalsAligns(o, lang), Saves), Effects([GetVideo(MediaInstruments), GetVideo(MediaVocals)], Saves));
  }

  /** The files of each stage of generate. */
  lemma StageSaves(o: GenerateOracle)
    ensures var lang := DetectedLang(o);
            && Effects(Prologue(o), Saves) == [] && Effects([GetVideo(MediaOriginal), GetInfo], Saves) == []
            && Effects(SplitRun(o.splitJob).trace, Saves)
               == (if SeparationReady(o.splitJob) then [SaveFile(MediaInstruments, M4a), SaveFile(MediaVocals, M4a)] else [])
            && Effects(FastPath(o, lang), Saves)
               == (if Truthy(o.lyrics) && IsEnglish(lang) then Saved(CaptionsWord, o.alignJobs(MediaOriginal, CaptionsWord)) else [])
            && Effects(VocalsAligns(o, lang), Saves)
               == (if !(Truthy(o.lyrics) && Supported(lang)) then []
                   else Saved(CaptionsLine, o.alignJobs(MediaVocals, CaptionsLine))
                        + (if IsEnglish(lang) then [] else Saved(CaptionsWord, o.alignJobs(MediaVocals, CaptionsWord))))
            && Effects([GetVideo(MediaInstruments), GetVideo(MediaVocals)], Saves) == []
  {
    var lang := DetectedLang(o);
    PrologueQuiet(o, Saves);
    if SeparationReady(o.splitJob) {
      SplitSaves(o.splitJob);
    } else {
      SplitRejects(o.splitJob);
    }
    EffectsOf2(GetVideo(MediaOriginal), GetInfo);
    EffectsOf2(GetVideo(MediaInstruments), GetVideo(MediaVocals));
    FastPathSaves(o, lang);
    VocalsSaves(o, lang);
  }

  /** The videos of generate, put together from the videos of its stages. */
  lemma AssembleVideos(ready: bool, prologue: seq<Event>, split: seq<Event>, launch: seq<Event>, fast: seq<Event>,
                       vocals: seq<Event>, videos: seq<Event>)
    requires prologue == [] && split == [] && fast == [] && vocals == []
    requires launch == [GetVideo(MediaOriginal)] && videos == [GetVideo(MediaInstruments), GetVideo(MediaVocals)]
    ensures Assemble(ready, prologue, split, launch, fast, vocals, videos)
            == [GetVideo(MediaOriginal)] + (if ready then [GetVideo(MediaInstruments), GetVideo(MediaVocals)] else [])
  {
  }

  /** The original video is fetched beside split in every run; the two
      separated videos only after split succeeded. */
  lemma GenerateVideos(o: GenerateOracle)
    ensures Effects(GenerateRun(o).trace, Videos)
            == [GetVideo(MediaOriginal)]
               + (if SeparationReady(o.splitJob) then [GetVideo(MediaInstruments), GetVideo(MediaVocals)] else [])
  {
    var lang := DetectedLang(o);
    GenerateEffects(o, Videos);
    StageVideos(o);
    AssembleVideos(SeparationReady(o.splitJob), Effects(Prologue(o), Videos), Effects(SplitRun(o.splitJob).trace, Videos),
                   Effects([GetVideo(MediaOriginal), GetInfo], Videos), Effects(FastPath(o, lang), Videos),
                   Effects(VocalsAligns(o, lang), Videos), Effects([GetVideo(MediaInstruments), GetVideo(MediaVocals)], Videos));
  }

  /** The videos of each stage of generate. */
  lemma StageVideos(o: GenerateOracle)
    ensures var lang := DetectedLang(o);
            && Effects(Prologue(o), Videos) == [] && Effects(SplitRun(o.splitJob).trace, Videos) == []
            && Effects([GetVideo(MediaOriginal), GetInfo], Videos) == [GetVideo(MediaOriginal)]
            && Effects(FastPath(o, lang), Videos) == [] && Effects(VocalsAligns(o, lang), Videos) == []
            && Effects([GetVideo(MediaInstruments), GetVideo(MediaVocals)], Videos) == [GetVideo(MediaInstruments), GetVideo(MediaVocals)]
  {
    var lang := DetectedLang(o);
    PrologueQuiet(o, Videos);
    SplitQuiet(o.splitJob, Videos);
    EffectsOf2(GetVideo(MediaOriginal), GetInfo);
    EffectsOf2(GetVideo(MediaInstruments), GetVideo(MediaVocals));
    FastPathQuiet(o, lang, Videos);
    VocalsQuiet(o, lang, Videos);
  }

  /** The uploads of generate, put together from the uploads of its stages. */
  lemma AssembleUploads(o: GenerateOracle, prologue: seq<Event>, split: seq<Event>, launch: seq<Event>, fast: seq<Event>,
                        vocals: seq<Event>, videos: seq<Event>)
    requires prologue == [Upload(AudioFile(MediaOriginal))] + (if Truthy(o.lyrics) then [Upload(LyricsText)] else [])
    requires split == [] && launch == [] && fast == [] && vocals == [] && videos == []
    ensures Assemble(SeparationReady(o.splitJob), prologue, split, launch, fast, vocals, videos)
            == [Upload(AudioFile(MediaOriginal))] + (if Truthy(o.lyrics) then [Upload(LyricsText)] else [])
  {
  }

  /** generate uploads the original audio and, when lyrics were found, the
      lyrics, both before launching any job; no stage after the prologue
      uploads anything. */
  lemma GenerateUploads(o: GenerateOracle)
    ensures Effects(GenerateRun(o).trace, Uploads)
            == [Upload(AudioFile(MediaOriginal))] + (if Truthy(o.lyrics) then [Upload(LyricsText)] else [])
  {
    var lang := DetectedLang(o);
    GenerateEffects(o, Uploads);
    StageUploads(o);
    AssembleUploads(o, Effects(Prologue(o), Uploads), Effects(SplitRun(o.splitJob).trace, Uploads),
                    Effects([GetVideo(MediaOriginal), GetInfo], Uploads), Effects(FastPath(o, lang), Uploads),
                    Effects(VocalsAligns(o, lang), Uploads), Effects([GetVideo(MediaInstruments), GetVideo(MediaVocals)], Uploads));
  }

  /** The uploads of each stage of generate. */
  lemma StageUploads(o: GenerateOracle)
    ensures var lang := DetectedLang(o);
            && Effects(Prologue(o), Uploads) == [Upload(AudioFile(MediaOriginal))] + (if Truthy(o.lyrics) then [Upload(LyricsText)] else [])
            && Effects(SplitRun(o.splitJob).trace, Uploads) == []
            && Effects([GetVideo(MediaOriginal), GetInfo], Uploads) == []
            && Effects(FastPath(o, lang), Uploads) == [] && Effects(VocalsAligns(o, lang), Uploads) == []
            && Effects([GetVideo(MediaInstruments), GetVideo(MediaVocals)], Uploads) == []
  {
    var lang := DetectedLang(o);
    PrologueUploads(o);
    SplitQuiet(o.splitJob, Uploads);
    EffectsOf2(GetVideo(MediaOriginal), GetInfo);
    EffectsOf2(GetVideo(MediaInstruments), GetVideo(MediaVocals));
    FastPathQuiet(o, lang, Uploads);
    VocalsQuiet(o, lang, Uploads);
  }

  /** The fetch an alignment job yields: its alignments, once, with retry,
      when its result carries them. */
  function Fetched(job: Option<Job>): seq<Event>
  {
    if AlignmentsReady(job) then [Fetch(job.value.result.value.alignmentsUrl.value, true)] else []
  }

  /** The fetches of split: both separated tracks, vocals first, each with
      retry, when the separation result is complete. */
  function SplitFetched(job: Option<Job>): seq<Event>
  {
    if SeparationReady(job)
    then [Fetch(job.value.result.value.vocalsUrl.value, true), Fetch(job.value.result.value.instrumentsUrl.value, true)]
    else []
  }

  /** The fetches of split in every run: none from a malformed separation
      result. */
  lemma SplitAllFetches(job: Option<Job>)
    ensures Effects(SplitRun(job).trace, Fetches) == SplitFetched(job)
  {
    SplitEffects(job, Fetches);
  }

  lemma FastPathFetches(o: GenerateOracle, lang: Option<Lang>)
    ensures Effects(FastPath(o, lang), Fetches)
            == if Truthy(o.lyrics) && IsEnglish(lang) then Fetched(o.alignJobs(MediaOriginal, CaptionsWord)) else []
  {
    if Truthy(o.lyrics) && IsEnglish(lang) {
      AlignFetches(MediaOriginal, lang, CaptionsWord, o.alignJobs(MediaOriginal, CaptionsWord));
    }
  }

  lemma VocalsFetches(o: GenerateOracle, lang: Option<Lang>)
    ensures Effects(VocalsAligns(o, lang), Fetches)
            == if !(Truthy(o.lyrics) && Supported(lang)) then []
               else Fetched(o.alignJobs(MediaVocals, CaptionsLine))
                    + (if IsEnglish(lang) then [] else Fetched(o.alignJobs(MediaVocals, CaptionsWord)))
  {
    if Truthy(o.lyrics) && Supported(lang) {
      var line := AlignRun(MediaVocals, lang, CaptionsLine, o.alignJobs(MediaVocals, CaptionsLine)).trace;
      var word: seq<Event> := if IsEnglish(lang) then []
                              else AlignRun(MediaVocals, lang, CaptionsWord, o.alignJobs(MediaVocals, CaptionsWord)).trace;
      AlignFetches(MediaVocals, lang, CaptionsLine, o.alignJobs(MediaVocals, CaptionsLine));
      AlignFetches(MediaVocals, lang, CaptionsWord, o.alignJobs(MediaVocals, CaptionsWord));
      assert VocalsAligns(o, lang) == line + word;
      EffectsAppend(line, word);
    }
  }

  /** The fetches of generate, put together from the fetches of its stages. */
  lemma AssembleFetches(o: GenerateOracle, prologue: seq<Event>, split: seq<Event>, launch: seq<Event>, fast: seq<Event>,
                        vocals: seq<Event>, videos: seq<Event>)
    requires var lang := DetectedLang(o);
             && prologue == [] && launch == [] && videos == []
             && split == SplitFetched(o.splitJob)
             && fast == (if Truthy(o.lyrics) && IsEnglish(lang) then Fetched(o.alignJobs(MediaOriginal, CaptionsWord)) else [])
             && vocals == (if !(Truthy(o.lyrics) && Supported(lang)) then []
                           else Fetched(o.alignJobs(MediaVocals, CaptionsLine))
                                + (if IsEnglish(lang) then [] else Fetched(o.alignJobs(MediaVocals, CaptionsWord))))
    ensures var lang := DetectedLang(o);
            var ready := SeparationReady(o.splitJob);
            Assemble(ready, prologue, split, launch, fast, vocals, videos)
            == SplitFetched(o.splitJob)
               + (if Truthy(o.lyrics) && IsEnglish(lang) then Fetched(o.alignJobs(MediaOriginal, CaptionsWord)) else [])
               + (if ready && Truthy(o.lyrics) && Supported(lang)
                  then Fetched(o.alignJobs(MediaVocals, CaptionsLine))
                       + (if IsEnglish(lang) then [] else Fetched(o.alignJobs(MediaVocals, CaptionsWord)))
                  else [])
  {
  }

  /** Every job result generate fetches, each with retry: the two separated
      tracks when split succeeds; the alignments of the fast path; then, only
      after split succeeded, the alignments of the vocals jobs; an alignment
      job without alignments is not fetched. */
  lemma GenerateFetches(o: GenerateOracle)
    ensures var lang := DetectedLang(o);
            var ready := SeparationReady(o.splitJob);
            Effects(GenerateRun(o).trace, Fetches)
            == SplitFetched(o.splitJob)
               + (if Truthy(o.lyrics) && IsEnglish(lang) then Fetched(o.alignJobs(MediaOriginal, CaptionsWord)) else [])
               + (if ready && Truthy(o.lyrics) && Supported(lang)
                  then Fetched(o.alignJobs(MediaVocals, CaptionsLine))
                       + (if IsEnglish(lang) then [] else Fetched(o.alignJobs(MediaVocals, CaptionsWord)))
                  else [])
  {
    var lang := DetectedLang(o);
    GenerateEffects(o, Fetches);
    StageFetches(o);
    AssembleFetches(o, Effects(Prologue(o), Fetches), Effects(SplitRun(o.splitJob).trace, Fetches),
                    Effects([GetVideo(MediaOriginal), GetInfo], Fetches), Effects(FastPath(o, lang), Fetches),
                    Effects(VocalsAligns(o, lang), Fetches), Effects([GetVideo(MediaInstruments), GetVideo(MediaVocals)], Fetches));
  }

  /** The fetches of each stage of generate. */
  lemma StageFetches(o: GenerateOracle)
    ensures var lang := DetectedLang(o);
            && Effects(Prologue(o), Fetches) == [] && Effects([GetVideo(MediaOriginal), GetInfo], Fetches) == []
            && Effects(SplitRun(o.splitJob).trace, Fetches) == SplitFetched(o.splitJob)
            && Effects(FastPath(o, lang), Fetches)
               == (if Truthy(o.lyrics) && IsEnglish(lang) then Fetched(o.alignJobs(MediaOriginal, CaptionsWord)) else [])
            && Effects(VocalsAligns(o, lang), Fetches)
               == (if !(Truthy(o.lyrics) && Supported(lang)) then []
                   else Fetched(o.alignJobs(MediaVocals, CaptionsLine))
                        + (if IsEnglish(lang) then [] else Fetched(o.alignJobs(MediaVocals, CaptionsWord))))
            && Effects([GetVideo(MediaInstruments), GetVideo(MediaVocals)], Fetches) == []
  {
    var lang := DetectedLang(o);
    PrologueQuiet(o, Fetches);
    SplitAllFetches(o.splitJob);
    EffectsOf2(GetVideo(MediaOriginal), GetInfo);
    EffectsOf2(GetVideo(MediaInstruments), GetVideo(MediaVocals));
    FastPathFetches(o, lang);
    VocalsFetches(o, lang);
  }

  /** Without lyrics, or with a language that is not supported, generate
      enqueues the separation job alone ... */
  lemma UnsupportedJobs(o: GenerateOracle)
    requires !Truthy(o.lyrics) || !Supported(DetectedLang(o))
    ensures Effects(GenerateRun(o).trace, Enqueues) == [SplitJob]
  {
    EnglishSupported();
    GenerateJobs(o);
  }

  /** ... and saves no caption file: nothing but the two separated tracks. */
  lemma UnsupportedSaves(o: GenerateOracle)
    requires !Truthy(o.lyrics) || !Supported(DetectedLang(o))
    ensures Effects(GenerateRun(o).trace, Saves)
            == if SeparationReady(o.splitJob) then [SaveFile(MediaInstruments, M4a), SaveFile(MediaVocals, M4a)] else []
  {
    EnglishSupported();
    GenerateSaves(o);
  }

  /** English lyrics: one word-level job on the original audio through the
      English queue, launched beside split, and once the vocals exist one
      line-level job on them through the general queue; no second word-level
      job. */
  lemma EnglishJobs(o: GenerateOracle)
    requires Truthy(o.lyrics) && o.lang == Some("en")
    ensures Effects(GenerateRun(o).trace, Enqueues)
            == [SplitJob, Enqueue(QueueAlignEn, JobParams(MediaOriginal, Some(LyricsText), Some(CaptionsWord), o.lang))]
               + (if SeparationReady(o.splitJob)
                  then [Enqueue(QueueAlign, JobParams(MediaVocals, Some(LyricsText), Some(CaptionsLine), o.lang))]
                  else [])
  {
    EnglishSupported();
    GenerateJobs(o);
  }

  /** Another supported language: once the vocals exist, a line-level and a
      word-level job, both on them and both through the general queue. */
  lemma OtherLanguageJobs(o: GenerateOracle)
    requires Truthy(o.lyrics) && Supported(o.lang) && !IsEnglish(o.lang)
    ensures Effects(GenerateRun(o).trace, Enqueues)
            == [SplitJob]
               + (if SeparationReady(o.splitJob)
                  then [Enqueue(QueueAlign, JobParams(MediaVocals, Some(LyricsText), Some(CaptionsLine), o.lang)),
                        Enqueue(QueueAlign, JobParams(MediaVocals, Some(LyricsText), Some(CaptionsWord), o.lang))]
                  else [])
  {
    GenerateJobs(o);
  }

  // alignline

  /** The stored line alignments exist and are not empty. */
  predicate LinesFound(o: AlignLineOracle)
  {
    o.alignments.Some? && |o.alignments.value| > 0
  }

  /** All three input checks of alignline pass. */
  predicate LineInputsValid(o: AlignLineOracle)
  {
    LinesFound(o) && Truthy(o.lang) && o.vocalsFound
  }

  /** The one job alignline enqueues. */
  function LineJob(o: AlignLineOracle): Event
  {
    Enqueue(QueueAlignLine, JobParams(MediaVocals, Some(LineAlignments), None, o.lang))
  }

  /** A run of alignline that fails one of its checks performs nothing but
      the lookups of those checks. */
  lemma AlignLineLookups(o: AlignLineOracle)
    requires !LineInputsValid(o)
    ensures forall e :: e in AlignLineRun(o).trace ==> e in [GetAlignments(CaptionsLine), GetLanguage(false), GetAudio(MediaVocals)]
  {
  }

  /** The projection of a run of alignline that passed its checks, effect by
      effect. */
  lemma AlignLineEffects(o: AlignLineOracle, k: Kind)
    requires LineInputsValid(o)
    ensures Effects(AlignLineRun(o).trace, k)
            == Keep(GetAlignments(CaptionsLine), k) + Keep(GetLanguage(false), k) + Keep(GetAudio(MediaVocals), k)
               + Keep(Status(UploadingFiles), k) + Keep(Upload(AudioFile(MediaVocals)), k)
               + Keep(Upload(LineAlignments), k) + Keep(LineJob(o), k) + Keep(Wait(QueueAlignLine), k)
               + (if !AlignmentsReady(o.job) then []
                  else Keep(Fetch(o.job.value.result.value.alignmentsUrl.value, false), k) + Keep(SaveFile(CaptionsWord, Json), k))
  {
    var job := [GetAlignments(CaptionsLine), GetLanguage(false), GetAudio(MediaVocals), Status(UploadingFiles),
                Upload(AudioFile(MediaVocals)), Upload(LineAlignments), LineJob(o), Wait(QueueAlignLine)];
    EffectsOf8(job[0], job[1], job[2], job[3], job[4], job[5], job[6], job[7]);
    if AlignmentsReady(o.job) {
      var done := [Fetch(o.job.value.result.value.alignmentsUrl.value, false), SaveFile(CaptionsWord, Json)];
      EffectsOf2(done[0], done[1]);
      EffectsAppend(job, done);
      assert AlignLineRun(o).trace == job + done;
    } else {
      assert AlignLineRun(o).trace == job;
    }
  }

  /** alignline checks its inputs in order, and each failed check throws its
      own message; past the checks it throws only when its job yields no
      alignments. */
  lemma AlignLineOutcome(o: AlignLineOracle)
    ensures ErrorOf(AlignLineRun(o)) == Some(LineSyncNotFound) <==> !LinesFound(o)
    ensures ErrorOf(AlignLineRun(o)) == Some(LanguageNotDetected) <==> LinesFound(o) && !Truthy(o.lang)
    ensures ErrorOf(AlignLineRun(o)) == Some(VocalsNotFound) <==> LinesFound(o) && Truthy(o.lang) && !o.vocalsFound
    ensures ErrorOf(AlignLineRun(o)) == Some(SyncFailed) <==> LineInputsValid(o) && !AlignmentsReady(o.job)
    ensures AlignLineRun(o).Ok? <==> LineInputsValid(o) && AlignmentsReady(o.job)
    ensures AlignLineRun(o).Err? ==>
              Message(AlignLineRun(o).failure)
              == if !LinesFound(o) then "Line level sync not found"
                 else if !Truthy(o.lang) then "Can't detect language"
                 else if !o.vocalsFound then "Can't find vocals"
                 else "Sync failed"
  {
  }

  /** A failed input check leaves no trace in the backend: nothing uploaded,
      no job enqueued, nothing fetched or saved. */
  lemma AlignLineRejects(o: AlignLineOracle, k: Kind)
    requires !LineInputsValid(o)
    ensures Effects(AlignLineRun(o).trace, k) == []
  {
    AlignLineLookups(o);
    EffectsNone(AlignLineRun(o).trace, k);
  }

  /** Past the checks, alignline uploads the vocals and the line alignments
      ... */
  lemma AlignLineUploads(o: AlignLineOracle)
    requires LineInputsValid(o)
    ensures Effects(AlignLineRun(o).trace, Uploads) == [Upload(AudioFile(MediaVocals)), Upload(LineAlignments)]
  {
    AlignLineEffects(o, Uploads);
  }

  /** ... and enqueues one job, on the line-to-word queue, over the vocals. */
  lemma AlignLineJobs(o: AlignLineOracle)
    requires LineInputsValid(o)
    ensures Effects(AlignLineRun(o).trace, Enqueues) == [LineJob(o)]
  {
    AlignLineEffects(o, Enqueues);
  }

  /** alignline saves word captions exactly when it succeeds. */
  lemma AlignLineSaves(o: AlignLineOracle)
    ensures Effects(AlignLineRun(o).trace, Saves)
            == if AlignLineRun(o).Ok? then [SaveFile(CaptionsWord, Json)] else []
  {
    if LineInputsValid(o) {
      AlignLineEffects(o, Saves);
    } else {
      AlignLineRejects(o, Saves);
    }
  }

  /** It fetches the result once, without retry. */
  lemma AlignLineFetches(o: AlignLineOracle)
    requires LineInputsValid(o) && AlignmentsReady(o.job)
    ensures Effects(AlignLineRun(o).trace, Fetches) == [Fetch(o.job.value.result.value.alignmentsUrl.value, false)]
  {
    AlignLineEffects(o, Fetches);
  }

  // realign

  /** Both input checks of realign pass. */
  predicate RealignInputsValid(o: RealignOracle)
  {
    Truthy(o.lyrics) && Truthy(o.lang)
  }

  /** A run of realign that fails one of its checks performs nothing but
      the lookups of those checks. */
  lemma RealignLookups(o: RealignOracle, mode: Mode)
    requires !RealignInputsValid(o)
    ensures forall e :: e in RealignRun(o, mode).trace ==> e in [GetLyrics, GetLanguage(true)]
  {
  }

  /** The effects of realign up to the wait on its job, once past its
      checks. */
  function RealignJobTrace(o: RealignOracle, mode: Mode): seq<Event>
    requires RealignInputsValid(o)
  {
    var audio, queue := RealignRoute(o.lang.value).0, RealignRoute(o.lang.value).1;
    [GetLyrics, GetLanguage(true), GetAudio(audio), Upload(AudioFile(audio)), Upload(LyricsText),
     Enqueue(queue, JobParams(audio, Some(LyricsText), Some(mode), o.lang)), Wait(queue)]
  }

  lemma RealignTrace(o: RealignOracle, mode: Mode)
    requires RealignInputsValid(o)
    ensures RealignRun(o, mode).trace
            == RealignJobTrace(o, mode)
               + (if !AlignmentsReady(o.job) then []
                  else [Fetch(o.job.value.result.value.alignmentsUrl.value, true), SaveFile(mode, Json)])
  {
  }

  /** The projection of a run of realign that passed its checks, effect by
      effect. */
  lemma RealignEffects(o: RealignOracle, mode: Mode, k: Kind)
    requires RealignInputsValid(o)
    ensures var audio, queue := RealignRoute(o.lang.value).0, RealignRoute(o.lang.value).1;
            Effects(RealignRun(o, mode).trace, k)
            == Keep(GetLyrics, k) + Keep(GetLanguage(true), k)
               + Keep(GetAudio(audio), k) + Keep(Upload(AudioFile(audio)), k) + Keep(Upload(LyricsText), k)
               + Keep(Enqueue(queue, JobParams(audio, Some(LyricsText), Some(mode), o.lang)), k) + Keep(Wait(queue), k)
               + (if !AlignmentsReady(o.job) then []
                  else Keep(Fetch(o.job.value.result.value.alignmentsUrl.value, true), k) + Keep(SaveFile(mode, Json), k))
  {
    var job := RealignJobTrace(o, mode);
    RealignTrace(o, mode);
    EffectsOf7(job[0], job[1], job[2], job[3], job[4], job[5], job[6]);
    assert job == [job[0], job[1], job[2], job[3], job[4], job[5], job[6]];
    if AlignmentsReady(o.job) {
      var done := [Fetch(o.job.value.result.value.alignmentsUrl.value, true), SaveFile(mode, Json)];
      EffectsOf2(done[0], done[1]);
      EffectsAppend(job, done);
    } else {
      assert RealignRun(o, mode).trace == job;
    }
  }

  /** realign throws "Lyrics is empty" before looking at the language, then
      "Can't detect language"; past both checks it throws only when its job
      yields no alignments. */
  lemma RealignOutcome(o: RealignOracle, mode: Mode)
    ensures ErrorOf(RealignRun(o, mode)) == Some(LyricsEmpty) <==> !Truthy(o.lyrics)
    ensures ErrorOf(RealignRun(o, mode)) == Some(LanguageNotDetected) <==> Truthy(o.lyrics) && !Truthy(o.lang)
    ensures ErrorOf(RealignRun(o, mode)) == Some(SyncFailed) <==> RealignInputsValid(o) && !AlignmentsReady(o.job)
    ensures RealignRun(o, mode).Ok? <==> RealignInputsValid(o) && AlignmentsReady(o.job)
    ensures RealignRun(o, mode).Err? ==>
              Message(RealignRun(o, mode).failure)
              == if !Truthy(o.lyrics) then "Lyrics is empty"
                 else if !Truthy(o.lang) then "Can't detect language"
                 else "Sync failed"
  {
  }

  /** A failed input check leaves no trace in the backend. */
  lemma RealignRejects(o: RealignOracle, mode: Mode, k: Kind)
    requires !RealignInputsValid(o)
    ensures Effects(RealignRun(o, mode).trace, k) == []
  {
    RealignLookups(o, mode);
    EffectsNone(RealignRun(o, mode).trace, k);
  }

  /** Past the checks, realign enqueues one job whose audio and queue depend on
      the language alone, whatever the caption mode: English goes on the
      original audio to the English queue, any other language on the vocals to
      the general queue. */
  lemma RealignJobs(o: RealignOracle, mode: Mode)
    requires RealignInputsValid(o)
    ensures Effects(RealignRun(o, mode).trace, Enqueues)
            == if IsEnglish(o.lang)
               then [Enqueue(QueueAlignEn, JobParams(MediaOriginal, Some(LyricsText), Some(mode), o.lang))]
               else [Enqueue(QueueAlign, JobParams(MediaVocals, Some(LyricsText), Some(mode), o.lang))]
  {
    RealignEffects(o, mode, Enqueues);
  }

  /** It uploads that audio and the lyrics. */
  lemma RealignUploads(o: RealignOracle, mode: Mode)
    requires RealignInputsValid(o)
    ensures Effects(RealignRun(o, mode).trace, Uploads)
            == [Upload(AudioFile(if IsEnglish(o.lang) then MediaOriginal else MediaVocals)), Upload(LyricsText)]
  {
    RealignEffects(o, mode, Uploads);
  }

  /** realign saves captions under the requested mode exactly when it
      succeeds. */
  lemma RealignSaves(o: RealignOracle, mode: Mode)
    ensures Effects(RealignRun(o, mode).trace, Saves)
            == if RealignRun(o, mode).Ok? then [SaveFile(mode, Json)] else []
  {
    if RealignInputsValid(o) {
      RealignEffects(o, mode, Saves);
    } else {
      RealignRejects(o, mode, Saves);
    }
  }

  /** It fetches the result with retry. */
  lemma RealignFetches(o: RealignOracle, mode: Mode)
    requires RealignInputsValid(o) && AlignmentsReady(o.job)
    ensures Effects(RealignRun(o, mode).trace, Fetches) == [Fetch(o.job.value.result.value.alignmentsUrl.value, true)]
  {
    RealignEffects(o, mode, Fetches);
  }

  // persisting only what was retrieved

  /** The URL fields of the result a job yields, when it yields one. */
  function AlignmentsUrl(job: Option<Job>): Option<Url>
  {
    if job.Some? && job.value.result.Some? then job.value.result.value.alignmentsUrl else None
  }

  function InstrumentsUrl(job: Option<Job>): Option<Url>
  {
    if job.Some? && job.value.result.Some? then job.value.result.value.instrumentsUrl else None
  }

  function VocalsUrl(job: Option<Job>): Option<Url>
  {
    if job.Some? && job.value.result.Some? then job.value.result.value.vocalsUrl else None
  }

  /** split saves each separated track only after fetching it from the URL
      its job yielded. */
  lemma SplitFetchedFirst(job: Option<Job>, source: Mode -> Option<Url>)
    requires source(MediaInstruments) == InstrumentsUrl(job) && source(MediaVocals) == VocalsUrl(job)
    ensures FetchedBeforeSaved(SplitRun(job).trace, source)
  {
    var t := SplitRun(job).trace;
    if SeparationReady(job) {
      forall i | 0 <= i < |t| && t[i].SaveFile?
        ensures source(t[i].mode).Some? && exists j :: 0 <= j < i && t[j].Fetch? && t[j].url == source(t[i].mode).value
      {
        if i == 5 {
          assert t[4].url == source(MediaInstruments).value;
        } else {
          assert i == 6;
          assert t[3].url == source(MediaVocals).value;
        }
      }
    }
  }

  /** align saves its captions only after fetching them from the URL its job
      yielded. */
  lemma AlignFetchedFirst(audio: Mode, lang: Option<Lang>, mode: Mode, job: Option<Job>, source: Mode -> Option<Url>)
    requires source(mode) == AlignmentsUrl(job)
    ensures FetchedBeforeSaved(AlignRun(audio, lang, mode, job).trace, source)
  {
    var t := AlignRun(audio, lang, mode, job).trace;
    if AlignmentsReady(job) {
      forall i | 0 <= i < |t| && t[i].SaveFile?
        ensures source(t[i].mode).Some? && exists j :: 0 <= j < i && t[j].Fetch? && t[j].url == source(t[i].mode).value
      {
        assert i == 3 && t[2].url == source(mode).value;
      }
    }
  }

  /** Where each file generate saves comes from: the separated tracks from
      the split result, line captions from the line job on the vocals, and
      word captions from the word job on the original audio for English and
      on the vocals otherwise. */
  function GenerateSource(o: GenerateOracle): Mode -> Option<Url>
  {
    var english := IsEnglish(DetectedLang(o));
    (m: Mode) => match m
         case MediaInstruments => InstrumentsUrl(o.splitJob)
         case MediaVocals => VocalsUrl(o.splitJob)
         case CaptionsLine => AlignmentsUrl(o.alignJobs(MediaVocals, CaptionsLine))
         case CaptionsWord => AlignmentsUrl(o.alignJobs(if english then MediaOriginal else MediaVocals, CaptionsWord))
         case MediaOriginal => None
  }

  lemma FastPathFetchedFirst(o: GenerateOracle)
    ensures FetchedBeforeSaved(FastPath(o, DetectedLang(o)), GenerateSource(o))
  {
    var lang := DetectedLang(o);
    if Truthy(o.lyrics) && IsEnglish(lang) {
      AlignFetchedFirst(MediaOriginal, lang, CaptionsWord, o.alignJobs(MediaOriginal, CaptionsWord), GenerateSource(o));
    }
  }

  lemma VocalsFetchedFirst(o: GenerateOracle)
    ensures FetchedBeforeSaved(VocalsAligns(o, DetectedLang(o)), GenerateSource(o))
  {
    var lang := DetectedLang(o);
    if Truthy(o.lyrics) && Supported(lang) {
      var line := AlignRun(MediaVocals, lang, CaptionsLine, o.alignJobs(MediaVocals, CaptionsLine)).trace;
      var word: seq<Event> := if IsEnglish(lang) then []
                              else AlignRun(MediaVocals, lang, CaptionsWord, o.alignJobs(MediaVocals, CaptionsWord)).trace;
      AlignFetchedFirst(MediaVocals, lang, CaptionsLine, o.alignJobs(MediaVocals, CaptionsLine), GenerateSource(o));
      if !IsEnglish(lang) {
        AlignFetchedFirst(MediaVocals, lang, CaptionsWord, o.alignJobs(MediaVocals, CaptionsWord), GenerateSource(o));
      }
      assert VocalsAligns(o, lang) == line + word;
      FetchedBeforeSavedAppend(line, word, GenerateSource(o));
    }
  }

  /** The stages of generate that save nothing: the prologue, the original
      video with the metadata, and the two separated videos. */
  lemma UnsavedStagesFetchedFirst(o: GenerateOracle)
    ensures FetchedBeforeSaved(Prologue(o), GenerateSource(o))
    ensures FetchedBeforeSaved([GetVideo(MediaOriginal), GetInfo], GenerateSource(o))
    ensures FetchedBeforeSaved([GetVideo(MediaInstruments), GetVideo(MediaVocals)], GenerateSource(o))
  {
    PrologueQuiet(o, Saves);
    EffectsOf2(GetVideo(MediaOriginal), GetInfo);
    EffectsOf2(GetVideo(MediaInstruments), GetVideo(MediaVocals));
    UnsavedFetchedBeforeSaved(Prologue(o), GenerateSource(o));
    UnsavedFetchedBeforeSaved([GetVideo(MediaOriginal), GetInfo], GenerateSource(o));
    UnsavedFetchedBeforeSaved([GetVideo(MediaInstruments), GetVideo(MediaVocals)], GenerateSource(o));
  }

  /** The first join of generate, with the prologue before it. */
  lemma LaunchedFetchedFirst(o: GenerateOracle)
    ensures FetchedBeforeSaved(Prologue(o) + SplitRun(o.splitJob).trace + [GetVideo(MediaOriginal), GetInfo]
                               + FastPath(o, DetectedLang(o)), GenerateSource(o))
  {
    var source := GenerateSource(o);
    var split := SplitRun(o.splitJob).trace;
    var middle := [GetVideo(MediaOriginal), GetInfo];
    UnsavedStagesFetchedFirst(o);
    SplitFetchedFirst(o.splitJob, source);
    FastPathFetchedFirst(o);
    FetchedBeforeSavedAppend(Prologue(o), split, source);
    FetchedBeforeSavedAppend(Prologue(o) + split, middle, source);
    FetchedBeforeSavedAppend(Prologue(o) + split + middle, FastPath(o, DetectedLang(o)), source);
  }

  /** generate persists every file only after retrieving it: each track
      after the fetch of the URL split yielded for it, and each caption file
      after the fetch of the alignments of the job that produced it. */
  lemma GenerateFetchedFirst(o: GenerateOracle)
    ensures FetchedBeforeSaved(GenerateRun(o).trace, GenerateSource(o))
  {
    var lang := DetectedLang(o);
    var source := GenerateSource(o);
    var launched := Prologue(o) + SplitRun(o.splitJob).trace + [GetVideo(MediaOriginal), GetInfo] + FastPath(o, lang);
    var videos := [GetVideo(MediaInstruments), GetVideo(MediaVocals)];
    LaunchedFetchedFirst(o);
    if SeparationReady(o.splitJob) {
      UnsavedStagesFetchedFirst(o);
      VocalsFetchedFirst(o);
      FetchedBeforeSavedAppend(launched, VocalsAligns(o, lang), source);
      FetchedBeforeSavedAppend(launched + VocalsAligns(o, lang), videos, source);
    }
  }

  /** alignline saves word captions only after fetching them from the URL
      its job yielded. */
  lemma AlignLineFetchedFirst(o: AlignLineOracle)
    ensures FetchedBeforeSaved(AlignLineRun(o).trace, Only(CaptionsWord, AlignmentsUrl(o.job)))
  {
    var t := AlignLineRun(o).trace;
    var source := Only(CaptionsWord, AlignmentsUrl(o.job));
    AlignLineSaves(o);
    if AlignLineRun(o).Ok? {
      forall i | 0 <= i < |t| && t[i].SaveFile?
        ensures source(t[i].mode).Some? && exists j :: 0 <= j < i && t[j].Fetch? && t[j].url == source(t[i].mode).value
      {
        assert i == 9 && t[8].url == source(CaptionsWord).value;
      }
    } else {
      UnsavedFetchedBeforeSaved(t, source);
    }
  }

  /** realign saves captions under the requested mode only after fetching
      them from the URL its job yielded. */
  lemma RealignFetchedFirst(o: RealignOracle, mode: Mode)
    ensures FetchedBeforeSaved(RealignRun(o, mode).trace, Only(mode, AlignmentsUrl(o.job)))
  {
    var t := RealignRun(o, mode).trace;
    var source := Only(mode, AlignmentsUrl(o.job));
    RealignSaves(o, mode);
    if RealignRun(o, mode).Ok? {
      forall i | 0 <= i < |t| && t[i].SaveFile?
        ensures source(t[i].mode).Some? && exists j :: 0 <= j < i && t[j].Fetch? && t[j].url == source(t[i].mode).value
      {
        assert i == 8 && t[7].url == source(mode).value;
      }
    } else {
      UnsavedFetchedBeforeSaved(t, source);
    }
  }
}
