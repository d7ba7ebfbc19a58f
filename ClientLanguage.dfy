/** The browser-side language helpers of public/client.js: the script-based
    language guess for a transcript or a reply, the choice of a synthesis
    voice for a language tag, and the recognizer locale for a tag. */
module ClientLanguage {
  import opened Seqs

  /** The eight tags the client and the server both know. */
  const SupportedTags: set<string> := {"en", "es", "fr", "de", "hi", "zh", "ja", "ko"}

  // ---------------------------------------------------------------------------
  // detectLanguageFromText: one character class per test, tried in a fixed order

  predicate IsDevanagari(c: char) { '\U{0900}' <= c <= '\U{097F}' }
  predicate IsCjkIdeograph(c: char) { '\U{4E00}' <= c <= '\U{9FFF}' }
  predicate IsKana(c: char) { '\U{3040}' <= c <= '\U{309F}' || '\U{30A0}' <= c <= '\U{30FF}' }
  predicate IsHangul(c: char) { '\U{AC00}' <= c <= '\U{D7AF}' }

  /** The accented lower-case Latin letters of the French test (U+00E0..U+00FF without U+00F7). */
  const FrenchLetters: string := "àáâãäåæçèéêëìíîïðñòóôõöøùúûüýþÿ"
  const GermanLetters: string := "äöüß"
  const SpanishLetters: string := "ñáéíóúü"

  predicate IsFrenchLetter(c: char) { c in FrenchLetters }
  predicate IsGermanLetter(c: char) { c in GermanLetters }
  predicate IsSpanishLetter(c: char) { c in SpanishLetters }

  /** `regex.test(text)` for a one-character class. */
  predicate HasChar(text: string, p: char -> bool)
  {
    exists i :: 0 <= i < |text| && p(text[i])
  }

  /** The language guess: the first test that matches wins, English otherwise. */
  function DetectLanguageFromText(text: string): (tag: string)
    ensures tag in SupportedTags
  {
    if HasChar(text, IsDevanagari) then "hi"
    else if HasChar(text, IsCjkIdeograph) then "zh"
    else if HasChar(text, IsKana) then "ja"
    else if HasChar(text, IsHangul) then "ko"
    else if HasChar(text, IsFrenchLetter) then "fr"
    else if HasChar(text, IsGermanLetter) then "de"
    else if HasChar(text, IsSpanishLetter) then "es"
    else "en"
  }

  /** Every letter of the Spanish class is already in the French class. */
  lemma SpanishLettersAreFrench(c: char)
    ensures IsSpanishLetter(c) ==> IsFrenchLetter(c)
  {
    if IsSpanishLetter(c) {
      var k :| 0 <= k < |SpanishLetters| && SpanishLetters[k] == c;
      assert SpanishLetters[k] in FrenchLetters;
    }
  }

  /** Hence the Spanish branch can never be taken: no text is guessed as "es". */
  lemma SpanishTextIsFrench(text: string)
    ensures HasChar(text, IsSpanishLetter) ==> HasChar(text, IsFrenchLetter)
  {
    if HasChar(text, IsSpanishLetter) {
      var i :| 0 <= i < |text| && IsSpanishLetter(text[i]);
      SpanishLettersAreFrench(text[i]);
    }
  }

  lemma DetectNeverSpanish(text: string)
    ensures DetectLanguageFromText(text) != "es"
  {
    SpanishTextIsFrench(text);
  }

  /** "de" is guessed exactly when the text has a sharp s and nothing that
      an earlier test catches: the umlauts of the German class are French letters. */
  lemma DetectGermanOnlyBySharpS(text: string)
    ensures DetectLanguageFromText(text) == "de" <==>
      !HasChar(text, IsDevanagari) && !HasChar(text, IsCjkIdeograph) && !HasChar(text, IsKana)
      && !HasChar(text, IsHangul) && !HasChar(text, IsFrenchLetter) && 'ß' in text
  {
    if HasChar(text, IsGermanLetter) && !HasChar(text, IsFrenchLetter) {
      var i :| 0 <= i < |text| && IsGermanLetter(text[i]);
      assert IsFrenchLetter('ä') && IsFrenchLetter('ö') && IsFrenchLetter('ü');
      assert text[i] == 'ß';
    }
    if 'ß' in text {
      var i :| 0 <= i < |text| && text[i] == 'ß';
      assert IsGermanLetter(text[i]);
    }
  }

  /** No character class contains whitespace, so the guess on a transcript
      equals the guess on the trimmed transcript that is sent to the server. */
  lemma {:induction false} DetectIgnoresSurroundingWhitespace(text: string)
    ensures DetectLanguageFromText(Trim(text)) == DetectLanguageFromText(text)
  {
    var a := TrimIsSlice(text);
    ClassesHaveNoWhitespace();
    HasCharOfSlice(text, a, IsDevanagari);
    HasCharOfSlice(text, a, IsCjkIdeograph);
    HasCharOfSlice(text, a, IsKana);
    HasCharOfSlice(text, a, IsHangul);
    HasCharOfSlice(text, a, IsFrenchLetter);
    HasCharOfSlice(text, a, IsGermanLetter);
    HasCharOfSlice(text, a, IsSpanishLetter);
  }

  lemma ClassesHaveNoWhitespace()
    ensures forall c :: IsDevanagari(c) ==> !IsJsWhitespace(c)
    ensures forall c :: IsCjkIdeograph(c) ==> !IsJsWhitespace(c)
    ensures forall c :: IsKana(c) ==> !IsJsWhitespace(c)
    ensures forall c :: IsHangul(c) ==> !IsJsWhitespace(c)
    ensures forall c :: IsFrenchLetter(c) ==> !IsJsWhitespace(c)
    ensures forall c :: IsGermanLetter(c) ==> !IsJsWhitespace(c)
    ensures forall c :: IsSpanishLetter(c) ==> !IsJsWhitespace(c)
  {
    forall c | IsFrenchLetter(c) ensures '\U{DF}' <= c <= '\U{FF}' {
      FrenchLettersAreLatin1(c);
    }
    forall c | IsGermanLetter(c) ensures '\U{DF}' <= c <= '\U{FF}' {
      GermanLettersAreLatin1(c);
    }
    forall c | IsSpanishLetter(c) ensures IsFrenchLetter(c) {
      SpanishLettersAreFrench(c);
    }
  }

  lemma FrenchLettersAreLatin1(c: char)
    requires IsFrenchLetter(c)
    ensures '\U{DF}' <= c <= '\U{FF}'
  {
    var k :| 0 <= k < |FrenchLetters| && FrenchLetters[k] == c;
  }

  lemma GermanLettersAreLatin1(c: char)
    requires IsGermanLetter(c)
    ensures '\U{DF}' <= c <= '\U{FF}'
  {
    var k :| 0 <= k < |GermanLetters| && GermanLetters[k] == c;
  }

  /** A class without whitespace characters finds a match in `s` iff in `Trim(s)`. */
  lemma HasCharOfSlice(s: string, a: nat, p: char -> bool)
    requires forall c :: p(c) ==> !IsJsWhitespace(c)
    requires a + |Trim(s)| <= |s| && Trim(s) == s[a..a + |Trim(s)|]
    requires forall j :: 0 <= j < a ==> IsJsWhitespace(s[j])
    requires forall j :: a + |Trim(s)| <= j < |s| ==> IsJsWhitespace(s[j])
    ensures HasChar(Trim(s), p) <==> HasChar(s, p)
  {
    var t := Trim(s);
    if HasChar(s, p) {
      var i :| 0 <= i < |s| && p(s[i]);
      assert !IsJsWhitespace(s[i]);
      assert t[i - a] == s[i];
    }
    if HasChar(t, p) {
      var i :| 0 <= i < |t| && p(t[i]);
      assert s[a + i] == t[i];
    }
  }

  // ---------------------------------------------------------------------------
  // getVoiceForLanguage: a preference-ordered choice over the installed voices

  /** A synthesis voice as the browser lists it. */
  datatype Voice = Voice(name: string, lang: string, isDefault: bool)

  /** `voice.lang.startsWith(tag)` */
  predicate Speaks(v: Voice, tag: string) { tag <= v.lang }
  predicate IsEnglish(v: Voice) { Speaks(v, "en") }
  predicate IsDefaultEnglish(v: Voice) { v.isDefault && IsEnglish(v) }

  predicate Exists(voices: seq<Voice>, p: Voice -> bool)
  {
    exists j :: 0 <= j < |voices| && p(voices[j])
  }

  /** `i` is where `voices.find(p)` stops. */
  predicate IsFirst(voices: seq<Voice>, i: nat, p: Voice -> bool)
  {
    i < |voices| && p(voices[i]) && forall j :: 0 <= j < i ==> !p(voices[j])
  }

  /** Position of the chosen voice: for "en" a default English voice, then any
      English voice; for every tag then the first voice of that language, then
      the first English voice, then the first voice of all. */
  function VoiceIndexFor(voices: seq<Voice>, tag: string): (r: Option<nat>)
    ensures r.None? <==> voices == []
    ensures r.Some? ==> r.value < |voices|
    ensures tag == "en" && Exists(voices, IsDefaultEnglish) ==> IsFirst(voices, r.value, IsDefaultEnglish)
    ensures !(tag == "en" && Exists(voices, IsDefaultEnglish)) && Exists(voices, v => Speaks(v, tag))
      ==> IsFirst(voices, r.value, v => Speaks(v, tag))
    ensures !Exists(voices, v => Speaks(v, tag)) && Exists(voices, IsEnglish) ==> IsFirst(voices, r.value, IsEnglish)
    ensures !Exists(voices, v => Speaks(v, tag)) && !Exists(voices, IsEnglish) && voices != [] ==> r == Some(0)
  {
    var defaultEnglish := FirstIndex(voices, IsDefaultEnglish);
    var english := FirstIndex(voices, IsEnglish);
    var sameLanguage := FirstIndex(voices, v => Speaks(v, tag));
    if tag == "en" && defaultEnglish.Some? then defaultEnglish
    else if tag == "en" && english.Some? then english
    else if sameLanguage.Some? then sameLanguage
    else if english.Some? then english
    else if |voices| > 0 then Some(0)
    else None
  }

  /** `getVoiceForLanguage(tag)` over the given voice list; `None` is `undefined`. */
  function VoiceFor(voices: seq<Voice>, tag: string): (r: Option<Voice>)
    ensures r.Some? <==> voices != []
    ensures r.Some? ==> r.value in voices
    ensures r.Some? && Exists(voices, v => Speaks(v, tag)) ==> Speaks(r.value, tag)
  {
    match VoiceIndexFor(voices, tag)
    case None => None
    case Some(i) => Some(voices[i])
  }

  // ---------------------------------------------------------------------------
  // The locale table of updateRecognitionLanguage

  const Locales: map<string, string> := map[
    "en" := "en-US", "es" := "es-ES", "fr" := "fr-FR", "de" := "de-DE",
    "hi" := "hi-IN", "zh" := "zh-CN", "ja" := "ja-JP", "ko" := "ko-KR"]

  /** `languageMap[tag] || 'en-US'`: a supported tag gets its own locale
      (the tag, a dash, a region), anything else American English. */
  function LocaleFor(tag: string): (locale: string)
    ensures tag in SupportedTags ==> |locale| == 5 && locale[..2] == tag && locale[2] == '-'
    ensures tag !in SupportedTags ==> locale == "en-US"
  {
    if tag in Locales then Locales[tag] else "en-US"
  }

  /** The language part of a locale. */
  function LocaleLanguage(locale: string): string
  {
    if |locale| >= 2 then locale[..2] else locale
  }

  /** The locale table loses no information: the tag is recovered from its
      locale, so two supported tags never share a recognizer locale. */
  lemma LocaleRoundTrip(tag: string)
    requires tag in SupportedTags
    ensures LocaleLanguage(LocaleFor(tag)) == tag
    ensures LocaleFor(tag) in Locales.Values
  {
    assert tag in Locales;
  }

  /** Every recognizer locale the client can set is one of the eight. */
  lemma LocaleIsKnown(tag: string)
    ensures LocaleFor(tag) in Locales.Values
  {
    if tag !in Locales {
      assert Locales["en"] == "en-US";
    }
  }
}
