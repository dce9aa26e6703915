/**
 * The CV analyser's heuristics: the language vote on stop-words, the section check against
 * fixed keyword lists, the five text signals, the suggestion list and the 0..100 score with
 * its label. The regular expressions (the word tokeniser and the e-mail, phone, link, metric
 * and date patterns) and the accent-stripping normalisation are inputs: the tokens, the
 * normalised text and the five signal booleans.
 */
module CvAnalyzer {
  import opened Wrappers
  import opened Seqs
  import opened Text

  datatype Language = Es | En

  const EsStop: seq<string> := ["el", "la", "los", "las", "de", "y", "en", "para", "con", "como", "por", "sobre"]
  const EnStop: seq<string> := ["the", "and", "with", "for", "in", "to", "from", "about", "on", "as"]

  /** The characters whose presence in the lower-cased text decides Spanish at once. */
  predicate IsSpanishLetter(c: char) {
    c == 'ñ' || c == 'á' || c == 'é' || c == 'í' || c == 'ó' || c == 'ú' || c == 'ü'
  }

  predicate HasSpanishLetter(lower: string) {
    exists i :: 0 <= i < |lower| && IsSpanishLetter(lower[i])
  }

  /** How many of `words` are in `stop`. */
  function StopCount(words: seq<string>, stop: seq<string>): (n: nat)
    ensures n <= |words|
    ensures n == 0 <==> forall i :: 0 <= i < |words| ==> words[i] !in stop
  {
    var hits := Filter(words, (w: string) => w in stop);
    assert hits != [] ==> hits[0] in words && hits[0] in stop;
    |hits|
  }

  /**
   * `detectLanguage`: `lower` is the lower-cased text and `words` the tokens of its normalised
   * form. A Spanish letter decides Spanish; otherwise Spanish wins only on strictly more
   * Spanish stop-words, so a tie gives English.
   */
  function DetectLanguage(lower: string, words: seq<string>): (lang: Language)
    ensures HasSpanishLetter(lower) ==> lang == Es
    ensures !HasSpanishLetter(lower) ==> (lang == Es <==> StopCount(words, EsStop) > StopCount(words, EnStop))
  {
    if HasSpanishLetter(lower) then Es
    else
      var esScore := StopCount(words, EsStop);
      var enScore := StopCount(words, EnStop);
      if esScore == enScore then En
      else if esScore > enScore then Es else En
  }

  /** Text without Spanish letters and without any stop-word is taken as English. */
  lemma NoEvidenceIsEnglish(lower: string, words: seq<string>)
    requires !HasSpanishLetter(lower)
    requires forall i :: 0 <= i < |words| ==> words[i] !in EsStop
    ensures DetectLanguage(lower, words) == En
  {
  }

  // ---------------------------------------------------------------------------------------------
  // Sections
  // ---------------------------------------------------------------------------------------------

  datatype SectionKey = Summary | Experience | Education | Skills | Projects | Contact

  datatype SectionConfig = SectionConfig(key: SectionKey, labelText: string, matchers: seq<string>)

  datatype Section = Section(key: SectionKey, labelText: string, found: bool)

  /** The Spanish section table. Its matchers are already lower-case ASCII, so normalising them changes nothing. */
  const EsSections: seq<SectionConfig> := [
    SectionConfig(Summary, "Resumen", ["resumen", "perfil", "sobre mi", "perfil profesional"]),
    SectionConfig(Experience, "Experiencia", ["experiencia", "experiencia laboral", "trabajo"]),
    SectionConfig(Education, "Educacion", ["educacion", "formacion", "estudios"]),
    SectionConfig(Skills, "Habilidades", ["habilidades", "competencias", "skills", "tecnologias"]),
    SectionConfig(Projects, "Proyectos", ["proyectos", "proyecto"]),
    SectionConfig(Contact, "Contacto", ["contacto", "email", "correo", "telefono", "celular"])
  ]

  /** The English section table. */
  const EnSections: seq<SectionConfig> := [
    SectionConfig(Summary, "Summary", ["summary", "profile", "about me"]),
    SectionConfig(Experience, "Experience", ["experience", "work experience", "employment"]),
    SectionConfig(Education, "Education", ["education", "academic", "studies"]),
    SectionConfig(Skills, "Skills", ["skills", "technologies", "stack"]),
    SectionConfig(Projects, "Projects", ["projects", "project"]),
    SectionConfig(Contact, "Contact", ["contact", "email", "phone", "mobile"])
  ]

  function SectionsConfig(lang: Language): seq<SectionConfig> {
    if lang == Es then EsSections else EnSections
  }

  /** `hasAnyMatcher`: some matcher occurs in the normalised text. */
  predicate HasAnyMatcher(normalized: string, matchers: seq<string>) {
    exists i :: 0 <= i < |matchers| && Includes(normalized, matchers[i])
  }

  /** The five regular-expression signals of the raw text. */
  datatype Signals = Signals(hasEmail: bool, hasPhone: bool, hasLinks: bool, hasMetrics: bool, hasDates: bool)

  /** `sectionsConfig.map(...)`: contact also counts as found through an e-mail, phone or link signal. */
  function CheckSections(config: seq<SectionConfig>, normalized: string, signals: Signals): (sections: seq<Section>)
    ensures |sections| == |config|
    ensures forall i :: 0 <= i < |config| ==>
      sections[i].key == config[i].key && sections[i].labelText == config[i].labelText
    ensures forall i :: 0 <= i < |config| && config[i].key != Contact ==>
      (sections[i].found <==> HasAnyMatcher(normalized, config[i].matchers))
    ensures forall i :: 0 <= i < |config| && config[i].key == Contact ==>
      (sections[i].found <==>
        HasAnyMatcher(normalized, config[i].matchers) || signals.hasEmail || signals.hasPhone || signals.hasLinks)
  {
    seq(|config|, i requires 0 <= i < |config| =>
      var matched := HasAnyMatcher(normalized, config[i].matchers);
      Section(config[i].key, config[i].labelText,
        if config[i].key == Contact then matched || signals.hasEmail || signals.hasPhone || signals.hasLinks
        else matched))
  }

  /** `sections.filter(s => !s.found).map(s => s.key)`. */
  function MissingSections(sections: seq<Section>): (keys: seq<SectionKey>)
    ensures |keys| <= |sections|
    ensures forall k :: k in keys <==> exists i :: 0 <= i < |sections| && sections[i].key == k && !sections[i].found
    decreases |sections|
  {
    if sections == [] then []
    else
      var rest := MissingSections(sections[1..]);
      assert forall i :: 1 <= i < |sections| ==> sections[i] == sections[1..][i - 1];
      (if sections[0].found then [] else [sections[0].key]) + rest
  }

  // ---------------------------------------------------------------------------------------------
  // Length
  // ---------------------------------------------------------------------------------------------

  predicate IsShort(wordCount: nat) {
    wordCount > 0 && wordCount < 200
  }

  predicate IsLong(wordCount: nat) {
    wordCount > 900
  }

  /** A CV is never both short and long, and an empty one is neither. */
  lemma LengthBands(wordCount: nat)
    ensures !(IsShort(wordCount) && IsLong(wordCount))
    ensures wordCount == 0 ==> !IsShort(wordCount) && !IsLong(wordCount)
    ensures 200 <= wordCount <= 900 ==> !IsShort(wordCount) && !IsLong(wordCount)
  {
  }

  // ---------------------------------------------------------------------------------------------
  // Suggestions
  // ---------------------------------------------------------------------------------------------

  /** What a suggestion asks for; its text depends on the language. */
  datatype Suggestion = AddSection(key: SectionKey) | ShowContact | AddLinks | AddMetrics | AddDates | AddDetail | Shorten

  /** The text the source pushes for each suggestion, in Spanish or in English; every pushed suggestion has one. */
  function Message(lang: Language, s: Suggestion): (text: string)
    ensures text == [] <==> s == AddSection(Contact)
  {
    if lang == Es then SpanishMessage(s) else EnglishMessage(s)
  }

  function SpanishMessage(s: Suggestion): (text: string)
    ensures |text| == 0 <==> s == AddSection(Contact)
  {
    match s
    case AddSection(Summary) => "Agrega un resumen profesional de 2 a 3 lineas."
    case AddSection(Experience) => "Incluye experiencia laboral con logros concretos."
    case AddSection(Education) => "Agrega tu educacion o formacion relevante."
    case AddSection(Skills) => "Destaca habilidades tecnicas clave para el rol."
    case AddSection(Projects) => "Suma proyectos para mostrar impacto real."
    case ShowContact => "Asegurate de mostrar email y telefono visibles."
    case AddLinks => "Agrega links a LinkedIn o portafolio."
    case AddMetrics => "Incluye resultados medibles (numeros, %, tiempos)."
    case AddDates => "Agrega fechas para cada experiencia o estudio."
    case AddDetail => "El CV se ve corto. Agrega mas detalle y logros."
    case Shorten => "El CV es largo. Resume a 1-2 paginas si es posible."
    case AddSection(Contact) => ""
  }

  function EnglishMessage(s: Suggestion): (text: string)
    ensures |text| == 0 <==> s == AddSection(Contact)
  {
    match s
    case AddSection(Summary) => "Add a concise professional summary (2-3 lines)."
    case AddSection(Experience) => "Include work experience with clear outcomes."
    case AddSection(Education) => "Add your education or relevant training."
    case AddSection(Skills) => "Highlight key technical skills for the role."
    case AddSection(Projects) => "Add projects to show real impact."
    case ShowContact => "Make sure email and phone are visible."
    case AddLinks => "Add links to LinkedIn or portfolio."
    case AddMetrics => "Include measurable results (numbers, %, time)."
    case AddDates => "Add dates for each role or education item."
    case AddDetail => "The CV looks short. Add more details and outcomes."
    case Shorten => "The CV is long. Try to keep it to 1-2 pages."
    case AddSection(Contact) => ""
  }

  /** The number of the test that pushes each suggestion (a missing contact section has no test of its own). */
  function Rank(s: Suggestion): nat {
    match s
    case AddSection(Summary) => 0
    case AddSection(Experience) => 1
    case AddSection(Education) => 2
    case AddSection(Skills) => 3
    case AddSection(Projects) => 4
    case ShowContact => 5
    case AddLinks => 6
    case AddMetrics => 7
    case AddDates => 8
    case AddDetail => 9
    case Shorten => 10
    case AddSection(Contact) => 11
  }

  /** The number of tests the source makes. */
  const TestCount: nat := 11

  /** What the `i`-th test pushes, if its condition holds. */
  function Step(i: nat, missing: seq<SectionKey>, signals: Signals, wordCount: nat): (pushed: seq<Suggestion>)
    ensures |pushed| <= 1
    ensures forall x :: x in pushed ==> Rank(x) == i
  {
    var (c, s) :=
      if i == 0 then (Summary in missing, AddSection(Summary))
      else if i == 1 then (Experience in missing, AddSection(Experience))
      else if i == 2 then (Education in missing, AddSection(Education))
      else if i == 3 then (Skills in missing, AddSection(Skills))
      else if i == 4 then (Projects in missing, AddSection(Projects))
      else if i == 5 then (!signals.hasEmail || !signals.hasPhone, ShowContact)
      else if i == 6 then (!signals.hasLinks, AddLinks)
      else if i == 7 then (!signals.hasMetrics, AddMetrics)
      else if i == 8 then (!signals.hasDates, AddDates)
      else if i == 9 then (IsShort(wordCount), AddDetail)
      else (i == 10 && IsLong(wordCount), Shorten);
    if c then [s] else []
  }

  /** The suggestions pushed by the first `n` tests. */
  function Pushed(n: nat, missing: seq<SectionKey>, signals: Signals, wordCount: nat): seq<Suggestion> {
    if n == 0 then [] else Pushed(n - 1, missing, signals, wordCount) + Step(n - 1, missing, signals, wordCount)
  }

  /** All suggestions, in the order of the tests. */
  function SuggestionsOf(missing: seq<SectionKey>, signals: Signals, wordCount: nat): seq<Suggestion> {
    Pushed(TestCount, missing, signals, wordCount)
  }

  /** The first `n` tests push suggestions of strictly growing rank below `n`, each one exactly when its test holds. */
  lemma {:induction false} PushedRanked(n: nat, missing: seq<SectionKey>, signals: Signals, wordCount: nat)
    ensures forall i, j :: 0 <= i < j < |Pushed(n, missing, signals, wordCount)| ==>
      Rank(Pushed(n, missing, signals, wordCount)[i]) < Rank(Pushed(n, missing, signals, wordCount)[j])
    ensures forall x :: x in Pushed(n, missing, signals, wordCount) <==>
      Rank(x) < n && x in Step(Rank(x), missing, signals, wordCount)
  {
    if n > 0 {
      PushedRanked(n - 1, missing, signals, wordCount);
      var init := Pushed(n - 1, missing, signals, wordCount);
      var last := Step(n - 1, missing, signals, wordCount);
      var p := init + last;
      assert p == Pushed(n, missing, signals, wordCount);
      forall i | 0 <= i < |init| ensures Rank(init[i]) < n - 1 {
        assert init[i] in init;
      }
      forall j | |init| <= j < |p| ensures Rank(p[j]) == n - 1 {
        assert p[j] == last[j - |init|];
        assert p[j] in last;
      }
      forall i, j | 0 <= i < j < |p| ensures Rank(p[i]) < Rank(p[j]) {
        if j < |init| {
          assert p[i] == init[i] && p[j] == init[j];
        } else {
          assert p[i] == init[i];
        }
      }
      forall x ensures x in p <==> Rank(x) < n && x in Step(Rank(x), missing, signals, wordCount) {
        if x in last {
          assert Rank(x) == n - 1;
        }
      }
    }
  }

  /**
   * The suggestions come in the fixed order of the tests without repeats; a missing contact
   * section has no suggestion of its own (the shared e-mail/phone one stands for it), and each
   * suggestion is present exactly when its condition holds.
   */
  lemma SuggestionsSpec(missing: seq<SectionKey>, signals: Signals, wordCount: nat)
    ensures forall i, j :: 0 <= i < j < |SuggestionsOf(missing, signals, wordCount)| ==>
      Rank(SuggestionsOf(missing, signals, wordCount)[i]) < Rank(SuggestionsOf(missing, signals, wordCount)[j])
    ensures AddSection(Contact) !in SuggestionsOf(missing, signals, wordCount)
    ensures forall k :: k != Contact ==> (AddSection(k) in SuggestionsOf(missing, signals, wordCount) <==> k in missing)
    ensures ShowContact in SuggestionsOf(missing, signals, wordCount) <==> !signals.hasEmail || !signals.hasPhone
    ensures AddLinks in SuggestionsOf(missing, signals, wordCount) <==> !signals.hasLinks
    ensures AddMetrics in SuggestionsOf(missing, signals, wordCount) <==> !signals.hasMetrics
    ensures AddDates in SuggestionsOf(missing, signals, wordCount) <==> !signals.hasDates
    ensures AddDetail in SuggestionsOf(missing, signals, wordCount) <==> IsShort(wordCount)
    ensures Shorten in SuggestionsOf(missing, signals, wordCount) <==> IsLong(wordCount)
  {
    PushedRanked(TestCount, missing, signals, wordCount);
  }

  // ---------------------------------------------------------------------------------------------
  // Score
  // ---------------------------------------------------------------------------------------------

  /** What the CV loses: 8 per missing section and a fixed amount per absent signal or length problem. */
  function Penalty(missingCount: nat, signals: Signals, wordCount: nat): nat {
    8 * missingCount +
    (if signals.hasEmail then 0 else 10) +
    (if signals.hasPhone then 0 else 8) +
    (if signals.hasLinks then 0 else 6) +
    (if signals.hasMetrics then 0 else 10) +
    (if signals.hasDates then 0 else 6) +
    (if IsShort(wordCount) then 12 else 0) +
    (if IsLong(wordCount) then 8 else 0)
  }

  /** `Math.max(0, Math.min(100, x))`. */
  function Clamp(x: int): (r: int)
    ensures 0 <= r <= 100
    ensures 0 <= x <= 100 ==> r == x
  {
    if x > 100 then 100 else if x < 0 then 0 else x
  }

  /** The score for a given penalty. */
  function ScoreOf(missingCount: nat, signals: Signals, wordCount: nat): int {
    Clamp(100 - Penalty(missingCount, signals, wordCount))
  }

  /** A CV that misses more sections never scores higher. */
  lemma ScoreMonotone(m1: nat, m2: nat, signals: Signals, wordCount: nat)
    requires m1 <= m2
    ensures ScoreOf(m2, signals, wordCount) <= ScoreOf(m1, signals, wordCount)
  {
  }

  /** Losing a signal never raises the score. */
  lemma ScoreSignalMonotone(missingCount: nat, s1: Signals, s2: Signals, wordCount: nat)
    requires s2.hasEmail ==> s1.hasEmail
    requires s2.hasPhone ==> s1.hasPhone
    requires s2.hasLinks ==> s1.hasLinks
    requires s2.hasMetrics ==> s1.hasMetrics
    requires s2.hasDates ==> s1.hasDates
    ensures ScoreOf(missingCount, s2, wordCount) <= ScoreOf(missingCount, s1, wordCount)
  {
  }

  // ---------------------------------------------------------------------------------------------
  // analyzeText
  // ---------------------------------------------------------------------------------------------

  datatype Analysis = Analysis(
    language: Language,
    wordCount: nat,
    score: int,
    sections: seq<Section>,
    signals: Signals,
    suggestions: seq<Suggestion>)

  /** The suggestion pushes of `analyzeText`: one test after the other, in source order. */
  method PushSuggestions(missing: seq<SectionKey>, signals: Signals, wordCount: nat) returns (suggestions: seq<Suggestion>)
    ensures suggestions == SuggestionsOf(missing, signals, wordCount)
  {
    suggestions := PushSectionSuggestions(missing, signals, wordCount);
    suggestions := PushSignalSuggestions(suggestions, missing, signals, wordCount);
  }

  /** The first five tests: one suggestion per missing section other than contact. */
  method PushSectionSuggestions(missing: seq<SectionKey>, signals: Signals, wordCount: nat) returns (suggestions: seq<Suggestion>)
    ensures suggestions == Pushed(5, missing, signals, wordCount)
  {
    suggestions := [];
    if Summary in missing {
      suggestions := suggestions + [AddSection(Summary)];
    }
    assert suggestions == Pushed(1, missing, signals, wordCount);
    if Experience in missing {
      suggestions := suggestions + [AddSection(Experience)];
    }
    assert suggestions == Pushed(2, missing, signals, wordCount);
    if Education in missing {
      suggestions := suggestions + [AddSection(Education)];
    }
    assert suggestions == Pushed(3, missing, signals, wordCount);
    if Skills in missing {
      suggestions := suggestions + [AddSection(Skills)];
    }
    assert suggestions == Pushed(4, missing, signals, wordCount);
    if Projects in missing {
      suggestions := suggestions + [AddSection(Projects)];
    }
    assert suggestions == Pushed(5, missing, signals, wordCount);
  }

  /** The last six tests: contact, links, metrics and dates signals, then the length bands. */
  method PushSignalSuggestions(pushed: seq<Suggestion>, missing: seq<SectionKey>, signals: Signals, wordCount: nat)
    returns (suggestions: seq<Suggestion>)
    requires pushed == Pushed(5, missing, signals, wordCount)
    ensures suggestions == Pushed(TestCount, missing, signals, wordCount)
  {
    var isShort := wordCount > 0 && wordCount < 200;
    var isLong := wordCount > 900;
    suggestions := pushed;
    if !signals.hasEmail || !signals.hasPhone {
      suggestions := suggestions + [ShowContact];
    }
    assert suggestions == Pushed(6, missing, signals, wordCount);
    if !signals.hasLinks {
      suggestions := suggestions + [AddLinks];
    }
    assert suggestions == Pushed(7, missing, signals, wordCount);
    if !signals.hasMetrics {
      suggestions := suggestions + [AddMetrics];
    }
    assert suggestions == Pushed(8, missing, signals, wordCount);
    if !signals.hasDates {
      suggestions := suggestions + [AddDates];
    }
    assert suggestions == Pushed(9, missing, signals, wordCount);
    if isShort {
      suggestions := suggestions + [AddDetail];
    }
    assert suggestions == Pushed(10, missing, signals, wordCount);
    if isLong {
      suggestions := suggestions + [Shorten];
    }
    assert suggestions == Pushed(11, missing, signals, wordCount);
  }

  /** The score deductions of `analyzeText`, then the clamp to 0..100. */
  method DeductScore(missingCount: nat, signals: Signals, wordCount: nat) returns (score: int)
    ensures score == ScoreOf(missingCount, signals, wordCount)
  {
    var isShort := wordCount > 0 && wordCount < 200;
    var isLong := wordCount > 900;
    score := 100;
    score := score - missingCount * 8;
    if !signals.hasEmail { score := score - 10; }
    if !signals.hasPhone { score := score - 8; }
    if !signals.hasLinks { score := score - 6; }
    if !signals.hasMetrics { score := score - 10; }
    if !signals.hasDates { score := score - 6; }
    if isShort { score := score - 12; }
    if isLong { score := score - 8; }
    score := if score > 100 then 100 else if score < 0 then 0 else score;
  }

  /**
   * `analyzeText`: `lower` is the lower-cased text, `normalized` its normalised form, `words`
   * the tokens of the normalised text and `signals` the five pattern tests on the raw text.
   * The suggestions are pushed and the score decremented one condition at a time.
   */
  method AnalyzeText(lower: string, normalized: string, words: seq<string>, signals: Signals) returns (result: Analysis)
    ensures result.language == DetectLanguage(lower, words)
    ensures result.wordCount == |words| && result.signals == signals
    ensures result.sections == CheckSections(SectionsConfig(result.language), normalized, signals)
    ensures var missing := MissingSections(result.sections);
      result.score == ScoreOf(|missing|, signals, |words|) &&
      result.suggestions == SuggestionsOf(missing, signals, |words|)
  {
    var language := DetectLanguage(lower, words);
    var wordCount := |words|;
    var sections := CheckSections(SectionsConfig(language), normalized, signals);
    var missing := MissingSections(sections);
    var suggestions := PushSuggestions(missing, signals, wordCount);
    var score := DeductScore(|missing|, signals, wordCount);
    result := Analysis(language, wordCount, score, sections, signals, suggestions);
  }

  /**
   * A CV with every section found, all five signals and 200 to 900 words scores 100 and gets
   * no suggestion; any CV scores between 0 and 100.
   */
  lemma AnalysisSpec(lang: Language, normalized: string, signals: Signals, wordCount: nat)
    ensures var missing := MissingSections(CheckSections(SectionsConfig(lang), normalized, signals));
      0 <= ScoreOf(|missing|, signals, wordCount) <= 100
    ensures var missing := MissingSections(CheckSections(SectionsConfig(lang), normalized, signals));
      missing == [] && signals == Signals(true, true, true, true, true) && 200 <= wordCount <= 900 ==>
      ScoreOf(|missing|, signals, wordCount) == 100 && SuggestionsOf(missing, signals, wordCount) == []
  {
    var missing := MissingSections(CheckSections(SectionsConfig(lang), normalized, signals));
    if missing == [] && signals == Signals(true, true, true, true, true) && 200 <= wordCount <= 900 {
      PushedRanked(TestCount, missing, signals, wordCount);
      forall x ensures x !in SuggestionsOf(missing, signals, wordCount) {
        assert Step(Rank(x), missing, signals, wordCount) == [];
      }
      var s := SuggestionsOf(missing, signals, wordCount);
      assert |s| > 0 ==> s[0] in s;
    }
  }

  /** With every section matched by its keywords, none is missing. */
  lemma AllMatchedNoneMissing(lang: Language, normalized: string, signals: Signals)
    requires forall i :: 0 <= i < |SectionsConfig(lang)| ==> HasAnyMatcher(normalized, SectionsConfig(lang)[i].matchers)
    ensures MissingSections(CheckSections(SectionsConfig(lang), normalized, signals)) == []
  {
    var sections := CheckSections(SectionsConfig(lang), normalized, signals);
    forall i | 0 <= i < |sections| ensures sections[i].found {
    }
    if MissingSections(sections) != [] {
      var k := MissingSections(sections)[0];
      assert k in MissingSections(sections);
    }
  }

  // ---------------------------------------------------------------------------------------------
  // Score label
  // ---------------------------------------------------------------------------------------------

  datatype Band = Strong | Good | NeedsWork

  /** The band of a score: 80 and above, 60 to 79, below 60. */
  function BandOf(score: int): Band {
    if score >= 80 then Strong else if score >= 60 then Good else NeedsWork
  }

  function BandRank(b: Band): nat {
    match b
    case NeedsWork => 0
    case Good => 1
    case Strong => 2
  }

  /** `scoreLabel`: empty without a result, else the band's name in the result's language. */
  function ScoreLabel(result: Option<Analysis>): (caption: string)
    ensures result.None? <==> caption == []
  {
    match result
    case None => ""
    case Some(r) =>
      match BandOf(r.score)
      case Strong => if r.language == Es then "Muy bien" else "Strong"
      case Good => if r.language == Es then "Bien" else "Good"
      case NeedsWork => if r.language == Es then "Mejorable" else "Needs work"
  }

  /** A higher score never gets a lower band, and the top score is Strong. */
  lemma BandMonotone(s1: int, s2: int)
    requires s1 <= s2
    ensures BandRank(BandOf(s1)) <= BandRank(BandOf(s2))
    ensures BandOf(100) == Strong
  {
  }
}
