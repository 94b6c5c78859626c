/** The pure decisions of the orchestrator: which languages get alignment
    jobs, and which queue and audio each alignment job is sent to. */
module Routing {
  import opened Trace

  /** The languages for which line- and word-level alignment is attempted
      (SUPPORTED_LANGS), in the order of the table, written in four rows by
      initial letter. */
  const SupportedLangs: seq<Lang> := LangsAToD + LangsEToJ + LangsKToO + LangsPToZ

  const LangsAToD: seq<Lang> := [
    "af", "am", "an", "ar", "as", "az", "ba", "bg", "bn", "bpy", "bs", "ca", "cmn",
    "cs", "cy", "da", "de"]
  const LangsEToJ: seq<Lang> := [
    "el", "en", "eo", "es", "et", "eu", "fa", "fi", "fr", "ga", "gd", "gn", "grc",
    "gu", "hak", "hi", "hr", "ht", "hu", "hy", "hyw", "ia", "id", "is", "it", "ja", "jbo"]
  const LangsKToO: seq<Lang> := [
    "ka", "kk", "kl", "kn", "ko", "kok", "ku", "ky", "la", "lfn", "lt", "lv", "mi",
    "mk", "ml", "mr", "ms", "mt", "my", "nb", "nci", "ne", "nl", "om", "or"]
  const LangsPToZ: seq<Lang> := [
    "pa", "pap", "pl", "pt", "py", "quc", "ro", "ru", "sd", "shn", "si", "sk", "sl",
    "sq", "sr", "sv", "sw", "ta", "te", "tn", "tr", "tt", "ur", "uz", "vi", "yue", "zh"]

  /** JavaScript truthiness of an optional string: absent and "" are false. */
  predicate Truthy(s: Option<string>)
  {
    s.Some? && s.value != ""
  }

  predicate IsEnglish(lang: Option<Lang>)
  {
    lang == Some("en")
  }

  /** `table.includes(l)`: a scan of the table from its first entry. */
  predicate Includes(table: seq<Lang>, l: Lang)
    decreases |table|
  {
    table != [] && (table[0] == l || Includes(table[1..], l))
  }

  /** The scan finds exactly the entries of the table. */
  lemma {:induction false} IncludesMembers(table: seq<Lang>, l: Lang)
    ensures Includes(table, l) <==> l in table
    decreases |table|
  {
    if table != [] {
      IncludesMembers(table[1..], l);
      assert table == [table[0]] + table[1..];
    }
  }

  /** `lang && SUPPORTED_LANGS.includes(lang)` */
  predicate Supported(lang: Option<Lang>)
  {
    Truthy(lang) && Includes(SupportedLangs, lang.value)
  }

  /** The English fast path is never excluded by the language table. */
  lemma EnglishSupported()
    ensures Supported(Some("en"))
  {
    assert "en" in LangsEToJ;
    IncludesMembers(SupportedLangs, "en");
  }

  /** The queue of an alignment job launched by generate: the English queue
      serves exactly the English word-level jobs. */
  function AlignQueue(lang: Option<Lang>, mode: Mode): (q: Queue)
    ensures q == QueueAlignEn <==> IsEnglish(lang) && mode == CaptionsWord
    ensures q == QueueAlign <==> !(IsEnglish(lang) && mode == CaptionsWord)
  {
    if lang == Some("en") && mode == CaptionsWord then QueueAlignEn else QueueAlign
  }

  /** The audio (as the media mode it is downloaded in) and the queue of a
      realign job: both depend on the language alone. */
  function RealignRoute(lang: Lang): (r: (Mode, Queue))
    ensures r.0 == MediaOriginal <==> lang == "en"
    ensures r.0 == MediaVocals <==> lang != "en"
    ensures r.1 == QueueAlignEn <==> lang == "en"
    ensures r.1 == QueueAlign <==> lang != "en"
  {
    (if lang == "en" then MediaOriginal else MediaVocals,
     if lang == "en" then QueueAlignEn else QueueAlign)
  }
}
