/** The observable effects of the karaoke orchestrator: every call it makes
    into the content library, the transfer client or the queue client is one
    event of a trace, and every workflow ends either normally or with the
    message of the error it throws. */
module Trace {

  datatype Option<+T> = None | Some(value: T)

  type Url = string
  type Lang = string

  /** The processing modes of the content library (library.MODE_*). */
  datatype Mode = MediaOriginal | MediaInstruments | MediaVocals | CaptionsWord | CaptionsLine

  /** The file formats the content library persists (library.FILE_*). */
  datatype FileFormat = Json | M4a

  /** The named queues of the job backend (client.QUEUE_*). */
  datatype Queue = QueueAlign | QueueAlignLine | QueueAlignEn | QueueSplit

  /** What an upload stages: audio of a media mode, the lyrics text, or the
      serialised line alignments of an item. */
  datatype Payload = AudioFile(mode: Mode) | LyricsText | LineAlignments

  /** The parameters of an enqueued job: the audio it is given (named by the
      media mode whose URL is passed), the text it is given, and its options. */
  datatype JobParams = JobParams(audio: Mode, text: Option<Payload>, mode: Option<Mode>, lang: Option<Lang>)

  /** The progress phases reported through `onStatus`. */
  datatype Phase = Initializing | SearchingLyrics | DownloadingAudio | UploadingFiles | DownloadingFiles

  function Label(p: Phase): string
  {
    match p
    case Initializing => "Initializing"
    case SearchingLyrics => "Searching lyrics"
    case DownloadingAudio => "Downloading audio"
    case UploadingFiles => "Uploading files"
    case DownloadingFiles => "Downloading files"
  }

  /** The errors the workflows throw. */
  datatype Failure = ProcessingFailed | LineSyncNotFound | LanguageNotDetected | VocalsNotFound | LyricsEmpty | SyncFailed

  /** The message each error is thrown with. */
  function Message(f: Failure): string
  {
    match f
    case ProcessingFailed => "Processing failed"
    case LineSyncNotFound => "Line level sync not found"
    case LanguageNotDetected => "Can't detect language"
    case VocalsNotFound => "Can't find vocals"
    case LyricsEmpty => "Lyrics is empty"
    case SyncFailed => "Sync failed"
  }

  datatype Event =
    | Status(phase: Phase)
    | Init
    | GetLyrics
    | GetLanguage(redetect: bool)
    | GetAudio(mode: Mode)
    | GetVideo(mode: Mode)
    | GetInfo
    | GetAlignments(mode: Mode)
    | Upload(payload: Payload)
    | Enqueue(queue: Queue, params: JobParams)
    | Wait(queue: Queue)
    | Fetch(url: Url, retried: bool)
    | SaveFile(mode: Mode, format: FileFormat)

  /** How a workflow ends, with the effects it performed up to that point. */
  datatype Run = Ok(trace: seq<Event>) | Err(failure: Failure, trace: seq<Event>)

  function ErrorOf(r: Run): Option<Failure>
  {
    if r.Err? then Some(r.failure) else None
  }

  /** `r`, preceded by the effects `t`. */
  function After(t: seq<Event>, r: Run): Run
  {
    match r
    case Ok(u) => Ok(t + u)
    case Err(m, u) => Err(m, t + u)
  }

  /** Sequential composition: `b` runs only when `a` did not throw. */
  function Then(a: Run, b: Run): Run
  {
    if a.Err? then a else After(a.trace, b)
  }

  /** Joint composition of two members of one `Promise.all`: both run, and the
      first failure in array order is the one surfaced. */
  function Join(a: Run, b: Run): Run
  {
    var t := a.trace + b.trace;
    if a.Err? then Err(a.failure, t)
    else if b.Err? then Err(b.failure, t)
    else Ok(t)
  }

  /** A method that started with trace `before` ended with trace `after` and
      error `err` exactly as the specification `r` says. */
  predicate Performed(before: seq<Event>, after: seq<Event>, err: Option<Failure>, r: Run)
  {
    after == before + r.trace && err == ErrorOf(r)
  }

  /** Effects performed after `done` extend the run so far. */
  lemma Extend(start: seq<Event>, done: seq<Event>, more: seq<Event>)
    ensures start + done + more == start + (done + more)
  {
  }

  /** Kinds of effect that the properties of the orchestrator speak about. */
  datatype Kind = Uploads | Enqueues | Fetches | Saves | Videos

  predicate Is(e: Event, k: Kind)
  {
    match k
    case Uploads => e.Upload?
    case Enqueues => e.Enqueue?
    case Fetches => e.Fetch?
    case Saves => e.SaveFile?
    case Videos => e.GetVideo?
  }

  /** `e` if it is of kind `k`. */
  function Keep(e: Event, k: Kind): seq<Event>
  {
    if Is(e, k) then [e] else []
  }

  /** The effects of kind `k` in `t`, in the order they were performed. */
  function Effects(t: seq<Event>, k: Kind): seq<Event>
    decreases |t|
  {
    if t == [] then [] else Effects(t[..|t| - 1], k) + Keep(t[|t| - 1], k)
  }

  /** The projection keeps exactly the effects of kind `k`, and no more of
      them than the trace holds. */
  lemma {:induction false} EffectsMembers(t: seq<Event>, k: Kind)
    ensures |Effects(t, k)| <= |t|
    ensures forall e :: e in Effects(t, k) <==> e in t && Is(e, k)
    decreases |t|
  {
    if t != [] {
      var init := t[..|t| - 1];
      EffectsMembers(init, k);
      assert t == init + [t[|t| - 1]];
    }
  }

  /** The projection distributes over concatenation. */
  lemma {:induction false} EffectsAppend(a: seq<Event>, b: seq<Event>)
    ensures forall k :: Effects(a + b, k) == Effects(a, k) + Effects(b, k)
    decreases |b|
  {
    if b == [] {
      assert a + b == a;
    } else {
      var init := b[..|b| - 1];
      assert (a + b)[..|a + b| - 1] == a + init;
      assert (a + b)[|a + b| - 1] == b[|b| - 1];
      EffectsAppend(a, init);
    }
  }

  /** A trace with no effect of kind `k` has an empty projection. */
  lemma EffectsNone(t: seq<Event>, k: Kind)
    requires forall e :: e in t ==> !Is(e, k)
    ensures Effects(t, k) == []
  {
    EffectsMembers(t, k);
  }

  /** The projections of short literal traces, effect by effect. */
  lemma EffectsOf1(a: Event)
    ensures forall k :: Effects([a], k) == Keep(a, k)
  {
    assert [a][..0] == [];
  }

  lemma EffectsOf2(a: Event, b: Event)
    ensures forall k :: Effects([a, b], k) == Keep(a, k) + Keep(b, k)
  {
    EffectsOf1(a);
    assert [a, b][..1] == [a];
  }

  lemma EffectsOf5(a: Event, b: Event, c: Event, d: Event, e: Event)
    ensures forall k :: Effects([a, b, c, d, e], k) == Keep(a, k) + Keep(b, k) + Keep(c, k) + Keep(d, k) + Keep(e, k)
  {
    EffectsOf2(a, b);
    assert [a, b, c][..2] == [a, b];
    assert [a, b, c, d][..3] == [a, b, c];
    assert [a, b, c, d, e][..4] == [a, b, c, d];
    forall k
      ensures Effects([a, b, c, d], k) == Keep(a, k) + Keep(b, k) + Keep(c, k) + Keep(d, k)
    {
      assert Effects([a, b, c], k) == Keep(a, k) + Keep(b, k) + Keep(c, k);
    }
  }

  lemma EffectsOf7(a: Event, b: Event, c: Event, d: Event, e: Event, f: Event, g: Event)
    ensures forall k :: Effects([a, b, c, d, e, f, g], k)
                        == Keep(a, k) + Keep(b, k) + Keep(c, k) + Keep(d, k) + Keep(e, k) + Keep(f, k) + Keep(g, k)
  {
    EffectsOf5(a, b, c, d, e);
    assert [a, b, c, d, e, f][..5] == [a, b, c, d, e];
    assert [a, b, c, d, e, f, g][..6] == [a, b, c, d, e, f];
  }

  lemma EffectsOf8(a: Event, b: Event, c: Event, d: Event, e: Event, f: Event, g: Event, h: Event)
    ensures forall k :: Effects([a, b, c, d, e, f, g, h], k)
                        == Keep(a, k) + Keep(b, k) + Keep(c, k) + Keep(d, k) + Keep(e, k) + Keep(f, k) + Keep(g, k) + Keep(h, k)
  {
    EffectsOf7(a, b, c, d, e, f, g);
    assert [a, b, c, d, e, f, g, h][..7] == [a, b, c, d, e, f, g];
  }

  /** Every file saved in `t` is saved after a fetch, earlier in `t`, of the
      URL `source` names for its mode: no artifact is persisted before the
      job result it comes from has been retrieved. */
  predicate FetchedBeforeSaved(t: seq<Event>, source: Mode -> Option<Url>)
  {
    forall i :: 0 <= i < |t| && t[i].SaveFile? ==>
      source(t[i].mode).Some? && exists j :: 0 <= j < i && t[j].Fetch? && t[j].url == source(t[i].mode).value
  }

  /** The source of the files of a workflow that saves under `mode` alone. */
  function Only(mode: Mode, url: Option<Url>): Mode -> Option<Url>
  {
    (m: Mode) => if m == mode then url else None
  }

  /** A trace that saves nothing saves nothing too early. */
  lemma UnsavedFetchedBeforeSaved(t: seq<Event>, source: Mode -> Option<Url>)
    requires Effects(t, Saves) == []
    ensures FetchedBeforeSaved(t, source)
  {
    EffectsMembers(t, Saves);
    forall i | 0 <= i < |t|
      ensures !t[i].SaveFile?
    {
      assert t[i] in t;
    }
  }

  /** Fetching before saving survives running one trace after another. */
  lemma FetchedBeforeSavedAppend(a: seq<Event>, b: seq<Event>, source: Mode -> Option<Url>)
    requires FetchedBeforeSaved(a, source) && FetchedBeforeSaved(b, source)
    ensures FetchedBeforeSaved(a + b, source)
  {
    var t := a + b;
    forall i | 0 <= i < |t| && t[i].SaveFile?
      ensures source(t[i].mode).Some? && exists j :: 0 <= j < i && t[j].Fetch? && t[j].url == source(t[i].mode).value
    {
      if i < |a| {
        assert t[i] == a[i];
        var j :| 0 <= j < i && a[j].Fetch? && a[j].url == source(a[i].mode).value;
        assert t[j] == a[j];
      } else {
        var k := i - |a|;
        assert t[i] == b[k];
        var j :| 0 <= j < k && b[j].Fetch? && b[j].url == source(b[k].mode).value;
        assert t[|a| + j] == b[j];
      }
    }
  }
}
