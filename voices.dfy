/**
 The voice catalog: what a voice is, the order `populateVoices` sorts the
 catalog into, the visibility test `filterVoices` applies to each listed voice,
 and the display name `getLanguageLabel` gives a language code.
 */
module Voices {
  import opened Strings
  import opened Replies

  /** A voice record from `GET /v1/voices` or `GET /v1/voices/{id}`. Only the
      fields the session reads are kept; `labels` holds the string labels
      (`language`, `gender`, `age`, `description`, `use_case`, ...), and a
      voice registered by the user carries `isCustom`. */
  datatype Voice = Voice(voiceId: string, name: string, labels: map<string, string>, isCustom: bool)

  const UnknownLanguage := "unknown"
  const Vietnamese := "vi"
  const English := "en"

  /** `voice.labels?.language || 'unknown'`: an absent or empty language label
      (both falsy) reads as `unknown`. */
  function Language(v: Voice): (lang: string)
    ensures lang != ""
    ensures ("language" !in v.labels || v.labels["language"] == "") ==> lang == UnknownLanguage
    ensures "language" in v.labels && v.labels["language"] != "" ==> lang == v.labels["language"]
  {
    if "language" in v.labels && v.labels["language"] != "" then v.labels["language"] else UnknownLanguage
  }

  /** The priority group of a voice: Vietnamese, then English, then the rest. */
  function Tier(v: Voice): nat {
    if Language(v) == Vietnamese then 0 else if Language(v) == English then 1 else 2
  }

  // ---------------------------------------------------------------------------
  // Ordering (populateVoices)
  // ---------------------------------------------------------------------------

  /** The comparator `populateVoices` passes to `allVoices.sort`, branch by
      branch. Its contract states the order it implements: by tier, and by
      name within a tier. */
  function CompareVoices(a: Voice, b: Voice): (r: int)
    ensures r < 0 <==> Tier(a) < Tier(b) || (Tier(a) == Tier(b) && LocaleCompare(a.name, b.name) < 0)
    ensures r == 0 <==> Tier(a) == Tier(b) && a.name == b.name
  {
    var aLang := Language(a);
    var bLang := Language(b);
    if aLang == Vietnamese && bLang != Vietnamese then -1
    else if bLang == Vietnamese && aLang != Vietnamese then 1
    else if aLang == English && bLang != English && bLang != Vietnamese then -1
    else if bLang == English && aLang != English && aLang != Vietnamese then 1
    else LocaleCompare(a.name, b.name)
  }

  /** Swapping the arguments negates the comparator, as `Array.prototype.sort`
      requires of a consistent comparator. */
  lemma CompareVoicesAntisymmetric(a: Voice, b: Voice)
    ensures CompareVoices(b, a) == -CompareVoices(a, b)
  {
    LocaleCompareAntisymmetric(a.name, b.name);
  }

  lemma CompareVoicesTransitive(a: Voice, b: Voice, c: Voice)
    requires CompareVoices(a, b) <= 0 && CompareVoices(b, c) <= 0
    ensures CompareVoices(a, c) <= 0
  {
    if Tier(a) == Tier(b) == Tier(c) {
      LocaleCompareTransitive(a.name, b.name, c.name);
    }
  }

  /** No pair of entries is out of the comparator's order. */
  ghost predicate Sorted(s: seq<Voice>) {
    forall i, j {:trigger CompareVoices(s[i], s[j])} :: 0 <= i < j < |s| ==> CompareVoices(s[i], s[j]) <= 0
  }

  /** Insert `v` in front of the first entry it does not sort after. */
  function Insert(v: Voice, s: seq<Voice>): (r: seq<Voice>)
    ensures |r| == |s| + 1
    ensures multiset(r) == multiset(s) + multiset{v}
  {
    if s == [] then [v]
    else if CompareVoices(v, s[0]) <= 0 then [v] + s
    else
      var rest := Insert(v, s[1..]);
      assert s == [s[0]] + s[1..];
      [s[0]] + rest
  }

  lemma SortedCons(x: Voice, s: seq<Voice>)
    requires Sorted(s)
    requires forall k :: 0 <= k < |s| ==> CompareVoices(x, s[k]) <= 0
    ensures Sorted([x] + s)
  {
    var r := [x] + s;
    forall i, j | 0 <= i < j < |r|
      ensures CompareVoices(r[i], r[j]) <= 0
    {
      if i > 0 {
        assert r[i] == s[i - 1] && r[j] == s[j - 1];
      } else {
        assert r[j] == s[j - 1];
      }
    }
  }

  lemma {:induction false} InsertSorted(v: Voice, s: seq<Voice>)
    requires Sorted(s)
    ensures Sorted(Insert(v, s))
  {
    if s == [] {
    } else if CompareVoices(v, s[0]) <= 0 {
      forall k | 0 <= k < |s|
        ensures CompareVoices(v, s[k]) <= 0
      {
        if k > 0 {
          CompareVoicesTransitive(v, s[0], s[k]);
        }
      }
      SortedCons(v, s);
    } else {
      CompareVoicesAntisymmetric(v, s[0]);
      var tail := s[1..];
      assert Sorted(tail) by {
        forall i, j | 0 <= i < j < |tail|
          ensures CompareVoices(tail[i], tail[j]) <= 0
        {
          assert tail[i] == s[i + 1] && tail[j] == s[j + 1];
        }
      }
      InsertSorted(v, tail);
      var rest := Insert(v, tail);
      forall k | 0 <= k < |rest|
        ensures CompareVoices(s[0], rest[k]) <= 0
      {
        var w := rest[k];
        assert w in multiset(rest);
        if w != v {
          assert w in multiset(tail);
          var m :| 0 <= m < |tail| && tail[m] == w;
          assert s[m + 1] == w;
        }
      }
      SortedCons(s[0], rest);
    }
  }

  /** `allVoices.sort(CompareVoices)`: the result holds the same voices, in
      the comparator's order. (An insertion sort; like the engine's sort it is
      stable, but only the two properties below are relied on.) */
  function SortVoices(s: seq<Voice>): (r: seq<Voice>)
    ensures multiset(r) == multiset(s)
    ensures Sorted(r)
  {
    if s == [] then []
    else
      var rest := SortVoices(s[1..]);
      InsertSorted(s[0], rest);
      assert s == [s[0]] + s[1..];
      Insert(s[0], rest)
  }

  /** What the sorted catalog looks like in the language of the page: every
      Vietnamese voice comes before every other voice, every English voice
      before every voice that is neither English nor Vietnamese, and within one
      group the names ascend. */
  lemma SortedByLanguagePriority(s: seq<Voice>, i: int, j: int)
    requires Sorted(s) && 0 <= i < j < |s|
    ensures Language(s[j]) == Vietnamese ==> Language(s[i]) == Vietnamese
    ensures Language(s[j]) == English ==> Language(s[i]) == Vietnamese || Language(s[i]) == English
    ensures Tier(s[i]) == Tier(s[j]) ==> LocaleCompare(s[i].name, s[j].name) <= 0
  {
    assert CompareVoices(s[i], s[j]) <= 0;
  }

  // ---------------------------------------------------------------------------
  // Lookup by identifier (addCustomVoice's duplicate check)
  // ---------------------------------------------------------------------------

  /** Some voice of `vs` has the identifier `id`. */
  ghost predicate HasVoiceId(vs: seq<Voice>, id: string) {
    exists j :: 0 <= j < |vs| && vs[j].voiceId == id
  }

  /** `voices.find(v => v.voice_id === id)`, as the index of the first match. */
  function FindVoice(vs: seq<Voice>, id: string): (r: Option<nat>)
    ensures r.Some? ==> r.value < |vs| && vs[r.value].voiceId == id
    ensures r.Some? ==> forall j :: 0 <= j < r.value ==> vs[j].voiceId != id
    ensures r.None? <==> forall j :: 0 <= j < |vs| ==> vs[j].voiceId != id
    ensures r.Some? <==> HasVoiceId(vs, id)
  {
    if vs == [] then None
    else if vs[0].voiceId == id then Some(0)
    else
      match FindVoice(vs[1..], id)
      case None => None
      case Some(k) => Some(k + 1)
  }

  /** The record `addCustomVoice` stores for a voice the lookup returned: the
      same voice, tagged as custom, with its language label filled in. */
  function AsCustomVoice(fetched: Voice): (v: Voice)
    ensures v.isCustom && v.voiceId == fetched.voiceId && v.name == fetched.name
    ensures "language" in v.labels && v.labels["language"] == Language(fetched) == Language(v)
    ensures forall k :: k in fetched.labels ==> k in v.labels
    ensures forall k :: k in v.labels && k != "language" ==> k in fetched.labels && v.labels[k] == fetched.labels[k]
  {
    fetched.(isCustom := true, labels := fetched.labels["language" := Language(fetched)])
  }

  // ---------------------------------------------------------------------------
  // Visibility (filterVoices)
  // ---------------------------------------------------------------------------

  const AllLanguages := "all"
  const CustomOnly := "custom"

  /** The language/category half of the test. */
  function ShowByLanguage(v: Voice, filter: string): bool {
    if filter == CustomOnly then v.isCustom
    else if filter != AllLanguages then Language(v) == filter
    else true
  }

  /** The search half of the test; `term` is already lower-cased. */
  function ShowBySearch(v: Voice, term: string): bool {
    if term != "" then Includes(ToLower(v.name), term) else true
  }

  /** Whether `filterVoices` leaves the option of voice `v` displayed, given
      the language selector's value and the raw text of the search box. */
  function Visible(v: Voice, filter: string, search: string): bool {
    ShowByLanguage(v, filter) && ShowBySearch(v, ToLower(search))
  }

  /** An option is displayed exactly when both tests pass: the category test
      (`custom` shows only custom voices, `all` shows every voice, any other
      value shows the voices of that language) and the search test (an empty
      search, or the lower-cased name contains the lower-cased search text). */
  lemma VisibleMeans(v: Voice, filter: string, search: string)
    ensures Visible(v, filter, search) <==>
      && (filter == CustomOnly ==> v.isCustom)
      && (filter != CustomOnly && filter != AllLanguages ==> Language(v) == filter)
      && (search == "" || Includes(ToLower(v.name), ToLower(search)))
  {
    assert ToLower(search) == "" <==> search == "";
  }

  /** The search is case-insensitive: lower-casing the search text first
      changes nothing. */
  lemma VisibleIgnoresSearchCase(v: Voice, filter: string, search: string)
    ensures Visible(v, filter, ToLower(search)) == Visible(v, filter, search)
  {
    ToLowerIdempotent(search);
  }

  // ---------------------------------------------------------------------------
  // Language labels (getLanguageLabel)
  // ---------------------------------------------------------------------------

  const LanguageNames: map<string, string> := map[
    "en" := "English",
    "vi" := "Tiếng Việt",
    "es" := "Español",
    "fr" := "Français",
    "de" := "Deutsch",
    "it" := "Italiano",
    "pt" := "Português",
    "pl" := "Polski",
    "tr" := "Türkçe",
    "ru" := "Русский",
    "nl" := "Nederlands",
    "cs" := "Čeština",
    "ar" := "العربية",
    "zh" := "中文",
    "ja" := "日本語",
    "hi" := "हिन्दी",
    "ko" := "한국어",
    "unknown" := "Không xác định"
  ]

  const Undetermined := "Không xác định"

  /** `getLanguageLabel(lang)`, with an own-property lookup in the table (see
      LanguageLabelAsWritten for the prototype lookup the page performs). An
      absent code and the empty code are both passed as "". The result is
      never empty; it is the code itself exactly when the code is a non-empty
      code the table does not know. */
  function LanguageLabel(lang: string): (text: string)
    ensures text != ""
    ensures lang in LanguageNames ==> text == LanguageNames[lang]
    ensures text == lang <==> lang != "" && lang !in LanguageNames
    ensures text == Undetermined <==> lang == "" || lang == UnknownLanguage || lang == Undetermined
  {
    if lang in LanguageNames then LanguageNames[lang]
    else if lang != "" then lang
    else Undetermined
  }

  /** The names a plain JavaScript object inherits from `Object.prototype`. */
  const InheritedMembers: set<string> := {
    "constructor", "__proto__", "__defineGetter__", "__defineSetter__",
    "__lookupGetter__", "__lookupSetter__", "hasOwnProperty", "isPrototypeOf",
    "propertyIsEnumerable", "toLocaleString", "toString", "valueOf"
  }

  /** What `labels[lang]` yields for an object literal: an own entry, an
      inherited member (a function or the prototype object, both truthy), or
      `undefined`. */
  datatype LabelValue = Text(text: string) | InheritedMember(name: string)

  /** `getLanguageLabel` as written: `labels[lang] || lang || 'Không xác định'`,
      where `labels[lang]` also finds the inherited members. */
  function LanguageLabelAsWritten(lang: string): (value: LabelValue)
    ensures value.InheritedMember? <==> lang !in LanguageNames && lang in InheritedMembers
    ensures value.Text? ==> value.text == LanguageLabel(lang)
  {
    if lang in LanguageNames then Text(LanguageNames[lang])
    else if lang in InheritedMembers then InheritedMember(lang)
    else if lang != "" then Text(lang)
    else Text(Undetermined)
  }

  /** The code "constructor" is labelled with `Object` itself rather than with
      the code, while the corrected lookup returns the code. */
  lemma LanguageLabelInheritedMember()
    ensures LanguageLabelAsWritten("constructor") == InheritedMember("constructor")
    ensures LanguageLabel("constructor") == "constructor"
  {
  }

  // ---------------------------------------------------------------------------
  // Option text (populateVoices)
  // ---------------------------------------------------------------------------

  const CustomTag := " (Tùy chỉnh)"

  /** `${voice.name} (${getLanguageLabel(language)})${customLabel}` */
  function OptionText(v: Voice): string {
    v.name + " (" + LanguageLabel(Language(v)) + ")" + (if v.isCustom then CustomTag else "")
  }
}
