/** The bulk segment enumeration: every sub-phase of the cycle, crossed with
    every age group and five fixed emotional variants, becomes one segment
    record carrying its identifier, display name, emotional profile,
    presentation style and the metadata that steers content generation.

    Priorities are in hundredths and emotion scores in tenths.  The display
    names and the per-content tones are long text tables; they form the
    `Vocabulary` parameter, whose source values `SourceVocabulary` holds. */
module SegmentEnumeration {
  import opened Common
  import opened Text
  import ContentGeneration

  // ------------------------------------------------------------------
  // Fixed tables
  // ------------------------------------------------------------------

  /** The cycle phases, each with its sub-phases and their days, in table order. */
  const Phases: seq<(string, seq<(string, seq<int>)>)> := [
    ("folicular", [("early", [6, 7, 8, 9]), ("middle", [10, 11, 12, 13]), ("late", [14, 15, 16, 17])]),
    ("ovulatory", [("peak", [18, 19, 20, 21])]),
    ("luteal", [("early", [22, 23, 24, 25]), ("middle", [26, 27, 28, 29]), ("late", [30, 31, 32, 33])]),
    ("menstrual", [("flow", [1, 2, 3, 4]), ("recovery", [5, 6])])
  ]

  /** The age ranges with their life stage, in table order. */
  const AgeGroups: seq<(string, string)> := [
    ("8-12", "pre_menarca"), ("13-19", "adolescente"), ("20-29", "reproductiva_temprana"),
    ("30-39", "reproductiva_media"), ("40-49", "perimenopausia"), ("50+", "post_menopausia")
  ]

  const AgeRanges: seq<string> := ["8-12", "13-19", "20-29", "30-39", "40-49", "50+"]

  const Positive: seq<string> := ["energética", "confiada", "poderosa", "activa",
    "orgullosa_de_mí", "en_paz_conmigo", "conectada", "valorada"]
  const Negative: seq<string> := ["ansiosa", "estresada", "triste", "frustrada",
    "insegura", "abrumada", "cansada_físicamente", "desesperanzada"]
  const Neutral: seq<string> := ["sensible", "nerviosa", "melancólica", "nostálgica",
    "frágil", "desconectada", "impaciente", "tensa"]

  /** Every emotion label a generated segment can carry. */
  const Emotions: seq<string> := Positive + Negative + Neutral

  lemma AgeRangesDistinct(i: nat, j: nat)
    requires i < |AgeRanges| && j < |AgeRanges|
    ensures AgeRanges[i] == AgeRanges[j] <==> i == j
  {
    AgeTablesAgree();
  }

  lemma AgeTablesAgree()
    ensures KeysOf(AgeGroups) == AgeRanges
    ensures NoDuplicates(AgeRanges)
  {
  }

  // ------------------------------------------------------------------
  // Iteration order
  // ------------------------------------------------------------------

  /** One (phase, sub-phase) combination with its days. */
  datatype Slot = Slot(phase: string, subphase: string, days: seq<int>)

  /** The sub-phases of phase `p`, in table order. */
  function Row(p: nat): (r: seq<Slot>)
    requires p < |Phases|
    ensures |r| == |Phases[p].1|
  {
    seq(|Phases[p].1|, s requires 0 <= s < |Phases[p].1| => Slot(Phases[p].0, Phases[p].1[s].0, Phases[p].1[s].1))
  }

  function Rows(): (r: seq<seq<Slot>>)
    ensures |r| == |Phases|
    ensures forall p :: 0 <= p < |Phases| ==> r[p] == Row(p)
  {
    seq(|Phases|, p requires 0 <= p < |Phases| => Row(p))
  }

  /** The number of sub-phases in the phases before `p`. */
  function Offset(p: nat): nat
    requires p <= |Phases|
  {
    |Flatten(Rows()[..p])|
  }

  lemma OffsetStep(p: nat)
    requires p < |Phases|
    ensures Offset(p + 1) == Offset(p) + |Phases[p].1|
  {
    FlattenPrefixStep(Rows(), p);
  }

  /** There are nine sub-phases in all. */
  lemma OffsetTotal()
    ensures Offset(|Phases|) == 9
    ensures Flatten(Rows()) == Flatten(Rows()[..|Phases|])
  {
    assert Offset(0) == 0;
    OffsetStep(0);
    OffsetStep(1);
    OffsetStep(2);
    OffsetStep(3);
    assert Rows()[..|Phases|] == Rows();
  }

  /** Every (phase, sub-phase) combination in iteration order. */
  function Slots(): (r: seq<Slot>)
    ensures |r| == 9
  {
    OffsetTotal();
    Flatten(Rows())
  }

  lemma SlotAt(p: nat, s: nat)
    requires p < |Phases| && s < |Phases[p].1|
    ensures Offset(p) + s < 9
    ensures Slots()[Offset(p) + s] == Slot(Phases[p].0, Phases[p].1[s].0, Phases[p].1[s].1)
  {
    FlattenIndex(Rows(), p, s);
    assert |Slots()| == 9;
  }

  // ------------------------------------------------------------------
  // The five emotional variants
  // ------------------------------------------------------------------

  predicate IsHigh(intensity: string)
  {
    intensity == "very_high" || intensity == "high"
  }

  predicate IsLow(intensity: string)
  {
    intensity == "very_low" || intensity == "low"
  }

  /** A variant's emotions, intensity, scores (tenths) and conflict. */
  datatype Variant = Variant(primary: string, secondary: string, intensity: string,
    primaryScore: int, secondaryScore: int, conflict: Option<string>, resolutionNeeded: bool)

  /** Variant `i` of a combination; every emotion index is reduced modulo the
      length of the list it indexes. */
  function VariantFor(i: nat): (x: Variant)
    ensures x.primary in Emotions && x.secondary in Emotions
    ensures x.resolutionNeeded <==> i == 1 || i == 3
    ensures x.conflict.Some? <==> x.resolutionNeeded
    ensures IsHigh(x.intensity) <==> i <= 1
    ensures IsLow(x.intensity) <==> i >= 4
  {
    if i == 0 then
      Variant(Positive[i % |Positive|], Positive[(i + 1) % |Positive|], "very_high", 20, 20, None, false)
    else if i == 1 then
      var p := Negative[i % |Negative|];
      var s := Positive[i % |Positive|];
      Variant(p, s, "high", -15, 10, Some(p + "_" + s + "_conflict"), true)
    else if i == 2 then
      Variant(Neutral[i % |Neutral|], Neutral[(i + 1) % |Neutral|], "moderate", 5, 10, None, false)
    else if i == 3 then
      var p := Negative[(i + 1) % |Negative|];
      var s := Positive[(i + 1) % |Positive|];
      Variant(p, s, "moderate", -10, 10, Some(p + "_" + s + "_conflict"), true)
    else
      Variant(Positive[(i + 2) % |Positive|], Positive[(i + 3) % |Positive|], "low", 10, 10, None, false)
  }

  /** The emotional intensity recorded for both emotions of a variant. */
  function EmotionIntensity(intensity: string): nat
  {
    if IsHigh(intensity) then 2 else 1
  }

  // ------------------------------------------------------------------
  // Identifiers
  // ------------------------------------------------------------------

  /** `SEG_` + the phase's first three letters upper-cased + `_` + the age range
      with `-` turned into `_`. */
  function IdStem(phase: string, ageRange: string): string
  {
    "SEG_" + Upper(Take(phase, 3)) + "_" + Replace(ageRange, "-", "_")
  }

  /** The identifier of the segment generated with running counter `counter`. */
  function SegmentId(phase: string, ageRange: string, counter: nat): string
  {
    IdStem(phase, ageRange) + "_" + Pad3(counter)
  }

  /** Below 1000 an identifier ends with the three digits of its counter. */
  lemma SegmentIdEndsWithCounter(phase: string, ageRange: string, counter: nat)
    requires counter < 1000
    ensures |SegmentId(phase, ageRange, counter)| >= 3
    ensures SegmentId(phase, ageRange, counter)[|SegmentId(phase, ageRange, counter)| - 3..] == Pad3(counter)
  {
    Pad3Value(counter);
  }

  /** Segments generated with different counters below 1000 have different
      identifiers, whatever their phase and age range. */
  lemma SegmentIdsDistinct(phase1: string, age1: string, c1: nat, phase2: string, age2: string, c2: nat)
    requires c1 < 1000 && c2 < 1000 && c1 != c2
    ensures SegmentId(phase1, age1, c1) != SegmentId(phase2, age2, c2)
  {
    SegmentIdEndsWithCounter(phase1, age1, c1);
    SegmentIdEndsWithCounter(phase2, age2, c2);
    Pad3Injective(c1, c2);
  }

  // ------------------------------------------------------------------
  // Display names
  // ------------------------------------------------------------------

  /** The text tables: Spanish names of sub-phases (per phase), display names
      of emotions, names of intensities, the tone per content type and primary
      emotion, the presentation tone and structure per emotion, the symptom
      words per emotion, the keywords per phase and per age range, and the
      similar emotions per emotion. */
  datatype Vocabulary = Vocabulary(
    phaseNames: seq<(string, seq<(string, string)>)>,
    emotionNames: seq<(string, string)>,
    intensityNames: seq<(string, string)>,
    contentTones: seq<(string, seq<(string, string)>)>,
    toneMap: seq<(string, string)>,
    structureMap: seq<((string, string), string)>,
    symptoms: seq<(string, seq<string>)>,
    phaseKeywords: seq<(string, seq<string>)>,
    ageKeywords: seq<(string, seq<string>)>,
    emotionGroups: seq<(string, seq<string>)>)

  /** The display name of a sub-phase; an unknown one is the title-cased phase
      and sub-phase. */
  function PhaseSpanish(v: Vocabulary, phase: string, subphase: string): string
  {
    var fallback := Title(phase) + " " + Title(subphase);
    match Lookup(v.phaseNames, phase)
    case Some(names) => (match Lookup(names, subphase) case Some(n) => n case None => fallback)
    case None => fallback
  }

  /** The display name of an emotion; an unknown one is title-cased with `_`
      turned into spaces. */
  function EmotionSpanish(v: Vocabulary, emotion: string): string
  {
    match Lookup(v.emotionNames, emotion)
    case Some(n) => n
    case None => Title(Replace(emotion, "_", " "))
  }

  function IntensitySpanish(v: Vocabulary, intensity: string): string
  {
    match Lookup(v.intensityNames, intensity)
    case Some(n) => n
    case None => Title(intensity)
  }

  /** "<sub-phase> - <primary> y <secondary> - <intensity>". */
  function SegmentName(v: Vocabulary, slot: Slot, x: Variant): string
  {
    PhaseSpanish(v, slot.phase, slot.subphase) + " - " + EmotionSpanish(v, x.primary) + " y "
      + EmotionSpanish(v, x.secondary) + " - " + IntensitySpanish(v, x.intensity)
  }

  // ------------------------------------------------------------------
  // Presentation style
  // ------------------------------------------------------------------

  const LengthMap: seq<(string, string)> := [
    ("8-12", "corta"), ("13-19", "media"), ("20-29", "media"), ("30-39", "media"), ("40-49", "media"), ("50+", "media")]

  const UrgencyMap: seq<(string, string)> := [
    ("very_low", "baja"), ("low", "baja"), ("moderate", "moderada"), ("high", "moderada"), ("very_high", "alta")]

  datatype Style = Style(tone: string, structure: string, length: string, urgency: string, language: string)

  function GetOr<K(==)>(entries: seq<(K, string)>, k: K, default: string): string
  {
    match Lookup(entries, k) case Some(x) => x case None => default
  }

  /** A list-valued table entry, or nothing. */
  function GetList(entries: seq<(string, seq<string>)>, k: string): seq<string>
  {
    match Lookup(entries, k) case Some(x) => x case None => []
  }

  /** The text length of an age range: short only for the youngest. */
  function LengthFor(ageRange: string): (r: string)
    ensures r == "corta" <==> ageRange == "8-12"
  {
    GetOr(LengthMap, ageRange, "media")
  }

  /** The urgency of an intensity: high only at the top, low at the bottom two. */
  function UrgencyFor(intensity: string): (r: string)
    ensures r == "alta" <==> intensity == "very_high"
    ensures r == "baja" <==> IsLow(intensity)
  {
    GetOr(UrgencyMap, intensity, "moderada")
  }

  /** The presentation style of a segment. */
  function PresentationStyle(v: Vocabulary, primary: string, secondary: string, intensity: string, ageRange: string): (st: Style)
    ensures st.length == "corta" <==> ageRange == "8-12"
    ensures st.language == "simple_español" <==> ageRange == "8-12"
    ensures st.urgency == "alta" <==> intensity == "very_high"
    ensures st.urgency == "baja" <==> IsLow(intensity)
  {
    Style(GetOr(v.toneMap, primary, "empatico_educativo"),
      GetOr(v.structureMap, (primary, secondary), "validacion_aprendizaje"),
      LengthFor(ageRange), UrgencyFor(intensity),
      if ageRange == "8-12" then "simple_español" else "español_adaptado")
  }

  /** As written, the presentation tone and structure tables are keyed by
      English emotion names, so no generated (Spanish) emotion finds an entry:
      every generated segment gets the default tone and structure. */
  lemma PresentationIgnoresEmotions(v: Vocabulary, primary: string, secondary: string, intensity: string, ageRange: string)
    requires v.toneMap == SourceToneMap() && v.structureMap == SourceStructureMap()
    requires primary in Emotions
    ensures PresentationStyle(v, primary, secondary, intensity, ageRange).tone == "empatico_educativo"
    ensures PresentationStyle(v, primary, secondary, intensity, ageRange).structure == "validacion_aprendizaje"
  {
    EnglishKeysMissEmotions(primary);
  }

  /** No generated emotion is one of the English names the presentation tables use. */
  lemma EnglishKeysMissEmotions(e: string)
    requires e in Emotions
    ensures forall i :: 0 <= i < |SourceToneMap()| ==> SourceToneMap()[i].0 != e
    ensures forall i :: 0 <= i < |SourceStructureMap()| ==> SourceStructureMap()[i].0.0 != e
  {
    SpanishNotEnglish(e);
    var tones := SourceToneMap();
    assert KeysOf(tones) == ["energy", "confidence", "anxiety", "stress", "sadness", "melancholy",
      "insecurity", "sensitivity", "curiosity"];
    var structures := SourceStructureMap();
    assert KeysOf(KeysOf(structures)) == ["anxiety", "stress", "sadness", "melancholy", "insecurity", "sensitivity"];
  }

  /** The English emotion names keying the source's tables. */
  const EnglishKeys: seq<string> := ["energy", "confidence", "anxiety", "stress", "sadness",
    "melancholy", "insecurity", "sensitivity", "curiosity"]

  lemma SpanishNotEnglish(e: string)
    requires e in Emotions
    ensures e !in EnglishKeys
  {
  }

  // ------------------------------------------------------------------
  // Maximum length
  // ------------------------------------------------------------------

  const BaseLengths: seq<(string, int)> := [
    ("8-12", 400), ("13-19", 500), ("20-29", 600), ("30-39", 600), ("40-49", 600), ("50+", 500)]

  /** The base length of an age range; an unknown range has 600. */
  function BaseLength(ageRange: string): (r: int)
    ensures 400 <= r <= 600
    ensures (forall i :: 0 <= i < |BaseLengths| ==> BaseLengths[i].0 != ageRange) ==> r == 600
  {
    match Lookup(BaseLengths, ageRange) case Some(n) => n case None => 600
  }

  /** The maximum content length: high intensities lengthen by 200 and low ones
      shorten by 100 under caps at 800 and 300, which never bind. */
  function MaxLength(ageRange: string, intensity: string): (r: int)
    ensures 300 <= r <= 800
    ensures IsHigh(intensity) ==> r == BaseLength(ageRange) + 200
    ensures IsLow(intensity) ==> r == BaseLength(ageRange) - 100
    ensures !IsHigh(intensity) && !IsLow(intensity) ==> r == BaseLength(ageRange)
  {
    var length := BaseLength(ageRange);
    if IsHigh(intensity) then Min(800, length + 200)
    else if IsLow(intensity) then (if 300 < length - 100 then length - 100 else 300)
    else length
  }

  // ------------------------------------------------------------------
  // Tone per content type
  // ------------------------------------------------------------------

  const DefaultTone: string := "empático_educativo"

  /** The tabled tone of a content type and primary emotion; an unknown
      content type or emotion has the default tone. */
  function BaseTone(v: Vocabulary, contentType: string, primary: string): (r: string)
    ensures (forall k :: 0 <= k < |v.contentTones| ==> v.contentTones[k].0 != contentType) ==> r == DefaultTone
    ensures Lookup(v.contentTones, contentType).None? ==> r == DefaultTone
    ensures Lookup(v.contentTones, contentType).Some? ==>
      var row := Lookup(v.contentTones, contentType).value;
      && (Lookup(row, primary).None? ==> r == DefaultTone)
      && (Lookup(row, primary).Some? ==> r == Lookup(row, primary).value)
  {
    match Lookup(v.contentTones, contentType)
    case Some(row) => GetOr(row, primary, DefaultTone)
    case None => DefaultTone
  }

  /** The tone of one content type: at high intensity a soothing tone becomes
      "muy_tranquilizador", failing that an empowering one "muy_empoderador";
      any other tone, and every tone below high intensity, is kept. */
  function ToneForContent(v: Vocabulary, contentType: string, primary: string, intensity: string): (r: string)
    ensures !IsHigh(intensity) ==> r == BaseTone(v, contentType, primary)
    ensures IsHigh(intensity) && Contains(BaseTone(v, contentType, primary), "tranquilizador") ==>
      r == Replace(BaseTone(v, contentType, primary), "tranquilizador", "muy_tranquilizador")
      && Contains(r, "muy_tranquilizador")
    ensures (IsHigh(intensity) && !Contains(BaseTone(v, contentType, primary), "tranquilizador")
      && Contains(BaseTone(v, contentType, primary), "empoderador")) ==>
      r == Replace(BaseTone(v, contentType, primary), "empoderador", "muy_empoderador")
      && Contains(r, "muy_empoderador")
    ensures (!Contains(BaseTone(v, contentType, primary), "tranquilizador")
      && !Contains(BaseTone(v, contentType, primary), "empoderador")) ==> r == BaseTone(v, contentType, primary)
  {
    var base := BaseTone(v, contentType, primary);
    if IsHigh(intensity) then
      if Contains(base, "tranquilizador") then
        ReplaceIntroduces(base, "tranquilizador", "muy_tranquilizador");
        Replace(base, "tranquilizador", "muy_tranquilizador")
      else if Contains(base, "empoderador") then
        ReplaceIntroduces(base, "empoderador", "muy_empoderador");
        Replace(base, "empoderador", "muy_empoderador")
      else base
    else base
  }

  /** The default tone survives high intensity unchanged. */
  lemma DefaultToneKept(v: Vocabulary, contentType: string, primary: string, intensity: string)
    requires BaseTone(v, contentType, primary) == DefaultTone
    ensures ToneForContent(v, contentType, primary, intensity) == DefaultTone
  {
    DefaultToneNotSoothing();
    DefaultToneNotEmpowering();
  }

  lemma DefaultToneNotSoothing()
    ensures !Contains(DefaultTone, "tranquilizador")
  {
    MissingChar(DefaultTone, "tranquilizador", 4);
  }

  lemma DefaultToneNotEmpowering()
    ensures !Contains(DefaultTone, "empoderador")
  {
    MissingChar(DefaultTone, "empoderador", 6);
  }

  // ------------------------------------------------------------------
  // Applicable content
  // ------------------------------------------------------------------

  /** The priority (hundredths) of content type `k` of `ContentTypes`, stated
      type by type: its base value, the emotion group's value, then the
      intensity and age raises under the 95 cap. */
  function Priority(k: nat, primary: string, intensity: string, ageRange: string): (r: int)
    requires k < 6
    ensures 60 <= r <= 95
    ensures IsHigh(intensity) && k == 1 ==> r == 95
    ensures IsHigh(intensity) && k == 5 ==> r >= 90
    ensures ageRange == "8-12" && (k == 0 || k == 1) ==> r == 95
    ensures ageRange == "8-12" && k == 3 ==> r >= 80
  {
    var calm := primary == "ansiosa" || primary == "estresada";
    var bright := primary == "energética" || primary == "confiada";
    var sad := primary == "triste" || primary == "melancólica";
    var young := ageRange == "8-12";
    if k == 0 then
      var b := if bright then 90 else 80;
      if young then Min(95, b + 30) else b
    else if k == 1 then
      var b := if calm || sad then 95 else 90;
      var h := if IsHigh(intensity) then Min(95, b + 20) else b;
      if young then Min(95, h + 20) else h
    else if k == 2 then
      if sad then 80 else 70
    else if k == 3 then
      var b := if bright then 80 else 60;
      if young then Min(95, b + 20) else b
    else if k == 4 then
      if calm then 80 else if bright then 85 else 70
    else
      var b := if calm then 95 else if sad then 80 else 60;
      if IsHigh(intensity) then Min(95, b + 30) else b
  }

  datatype ApplicableEntry = ApplicableEntry(priority: int, tone: string)

  /** The entries for the first `n` content types whose priority exceeds 30. */
  function ApplicableUpTo(v: Vocabulary, primary: string, intensity: string, ageRange: string, n: nat): seq<(string, ApplicableEntry)>
    requires n <= 6
  {
    if n == 0 then []
    else
      var p := Priority(n - 1, primary, intensity, ageRange);
      ApplicableUpTo(v, primary, intensity, ageRange, n - 1)
        + (if p > 30 then [(ContentGeneration.ContentTypes[n - 1],
              ApplicableEntry(p, ToneForContent(v, ContentGeneration.ContentTypes[n - 1], primary, intensity)))]
           else [])
  }

  /** Every content type is applicable, in order, with its priority and tone. */
  lemma {:induction false} ApplicableContentComplete(v: Vocabulary, primary: string, intensity: string, ageRange: string, n: nat)
    requires n <= 6
    ensures var a := ApplicableUpTo(v, primary, intensity, ageRange, n);
      |a| == n && KeysOf(a) == ContentGeneration.ContentTypes[..n]
      && forall k :: 0 <= k < n ==> a[k].1 == ApplicableEntry(Priority(k, primary, intensity, ageRange),
        ToneForContent(v, ContentGeneration.ContentTypes[k], primary, intensity))
  {
    if n > 0 {
      ApplicableContentComplete(v, primary, intensity, ageRange, n - 1);
      var a := ApplicableUpTo(v, primary, intensity, ageRange, n);
      assert KeysOf(a) == KeysOf(ApplicableUpTo(v, primary, intensity, ageRange, n - 1)) + [ContentGeneration.ContentTypes[n - 1]];
      assert ContentGeneration.ContentTypes[..n] == ContentGeneration.ContentTypes[..n - 1] + [ContentGeneration.ContentTypes[n - 1]];
    }
  }

  /** The priority map: base priorities, overwritten for the primary
      emotion's group, then raised for high intensity and for the youngest
      ages, each raise capped at 95. */
  method Priorities(primary: string, intensity: string, ageRange: string) returns (priorities: seq<int>)
    ensures |priorities| == 6
    ensures forall k :: 0 <= k < 6 ==> priorities[k] == Priority(k, primary, intensity, ageRange)
  {
    priorities := [80, 90, 70, 60, 70, 60];
    if primary == "ansiosa" || primary == "estresada" {
      priorities := priorities[5 := 95][1 := 95][4 := 80];
    } else if primary == "energética" || primary == "confiada" {
      priorities := priorities[0 := 90][3 := 80][4 := 85];
    } else if primary == "triste" || primary == "melancólica" {
      priorities := priorities[1 := 95][5 := 80][2 := 80];
    } else if primary == "nerviosa" || primary == "sensible" {
      priorities := priorities[1 := 90][0 := 80];
    }
    if IsHigh(intensity) {
      priorities := priorities[5 := Min(95, priorities[5] + 30)];
      priorities := priorities[1 := Min(95, priorities[1] + 20)];
    }
    if ageRange == "8-12" {
      priorities := priorities[0 := Min(95, priorities[0] + 30)];
      priorities := priorities[1 := Min(95, priorities[1] + 20)];
      priorities := priorities[3 := Min(95, priorities[3] + 20)];
    }
  }

  /** The applicable-content map: one entry per content type whose priority
      exceeds 30, with that priority and the content type's tone. */
  method ApplicableContent(v: Vocabulary, primary: string, secondary: string, intensity: string, ageRange: string)
    returns (applicable: seq<(string, ApplicableEntry)>)
    ensures applicable == ApplicableUpTo(v, primary, intensity, ageRange, 6)
  {
    var priorities := Priorities(primary, intensity, ageRange);
    applicable := [];
    for k := 0 to 6
      invariant applicable == ApplicableUpTo(v, primary, intensity, ageRange, k)
    {
      if priorities[k] > 30 {
        var tone := ToneForContent(v, ContentGeneration.ContentTypes[k], primary, intensity);
        applicable := applicable + [(ContentGeneration.ContentTypes[k], ApplicableEntry(priorities[k], tone))];
      }
    }
  }

  // ------------------------------------------------------------------
  // Search keywords
  // ------------------------------------------------------------------

  /** The first two symptom words of the primary emotion, if it has any. */
  function Symptoms(v: Vocabulary, primary: string): seq<string>
  {
    Take(GetList(v.symptoms, primary), 2)
  }

  predicate PairWanted(primary: string, secondary: string)
  {
    secondary != "" && secondary != primary
  }

  /** The phase-and-emotion item, followed by the emotion pair when wanted. */
  function Leading(v: Vocabulary, phase: string, subphase: string, primary: string, secondary: string): seq<string>
  {
    var first := Lower(PhaseSpanish(v, phase, subphase)) + " " + primary;
    if PairWanted(primary, secondary) then [first] + [primary + " " + secondary] else [first]
  }

  /** The whole keyword list before the cut to eight. */
  function KeywordList(v: Vocabulary, phase: string, subphase: string, primary: string, secondary: string, ageRange: string): seq<string>
  {
    Leading(v, phase, subphase, primary, secondary)
      + Symptoms(v, primary) + GetList(v.phaseKeywords, phase) + GetList(v.ageKeywords, ageRange)
  }

  /** The search keywords: the phase-and-emotion item, the emotion pair, symptom,
      phase and age words, cut to eight. */
  method SearchKeywords(v: Vocabulary, phase: string, subphase: string, primary: string, secondary: string, ageRange: string)
    returns (keywords: seq<string>)
    ensures keywords == Take(KeywordList(v, phase, subphase, primary, secondary, ageRange), 8)
  {
    var list := [Lower(PhaseSpanish(v, phase, subphase)) + " " + primary];
    if secondary != "" && secondary != primary {
      list := list + [primary + " " + secondary];
    }
    assert list == Leading(v, phase, subphase, primary, secondary);
    list := list + Symptoms(v, primary);
    list := list + GetList(v.phaseKeywords, phase);
    list := list + GetList(v.ageKeywords, ageRange);
    keywords := Take(list, 8);
  }

  /** At most eight keywords; the first pairs the lower-cased sub-phase name with
      the primary emotion; the emotion-pair item comes second exactly when the
      secondary emotion is present and differs; the symptom, phase and age
      words follow in that order. */
  lemma KeywordsShape(v: Vocabulary, phase: string, subphase: string, primary: string, secondary: string, ageRange: string)
    ensures var r := Take(KeywordList(v, phase, subphase, primary, secondary, ageRange), 8);
      1 <= |r| <= 8 && r[0] == Lower(PhaseSpanish(v, phase, subphase)) + " " + primary
      && (PairWanted(primary, secondary) ==> |r| >= 2 && r[1] == primary + " " + secondary)
    ensures var r := Take(KeywordList(v, phase, subphase, primary, secondary, ageRange), 8);
      var lead := |Leading(v, phase, subphase, primary, secondary)|;
      var words := Symptoms(v, primary) + GetList(v.phaseKeywords, phase) + GetList(v.ageKeywords, ageRange);
      forall j :: lead <= j < |r| ==> r[j] == words[j - lead]
  {
    var leading := Leading(v, phase, subphase, primary, secondary);
    var words := Symptoms(v, primary) + GetList(v.phaseKeywords, phase) + GetList(v.ageKeywords, ageRange);
    var list := KeywordList(v, phase, subphase, primary, secondary, ageRange);
    assert list == leading + words;
  }

  /** As written, the symptom table is keyed by English emotion names: a
      generated segment gets no symptom words, so with three phase words and
      three age words its list never exceeds eight items and nothing is cut. */
  lemma GeneratedKeywordsUncut(v: Vocabulary, phase: string, subphase: string, primary: string, secondary: string, ageRange: string)
    requires v.symptoms == SourceSymptoms() && v.phaseKeywords == SourcePhaseKeywords() && v.ageKeywords == SourceAgeKeywords()
    requires primary in Emotions
    ensures Symptoms(v, primary) == []
    ensures |KeywordList(v, phase, subphase, primary, secondary, ageRange)| <= 8
  {
    SymptomKeysMissEmotions(primary);
    KeywordTablesShort(phase, ageRange);
  }

  lemma SymptomKeysMissEmotions(e: string)
    requires e in Emotions
    ensures Lookup(SourceSymptoms(), e).None?
  {
    SpanishNotEnglish(e);
    var symptoms := SourceSymptoms();
    assert KeysOf(symptoms) == ["anxiety", "stress", "energy", "confidence", "sadness", "curiosity"];
  }

  lemma KeywordTablesShort(phase: string, ageRange: string)
    ensures |GetList(SourcePhaseKeywords(), phase)| <= 3 && |GetList(SourceAgeKeywords(), ageRange)| <= 3
  {
    var phases := SourcePhaseKeywords();
    assert forall i :: 0 <= i < |phases| ==> |phases[i].1| == 3;
    GetListBound(phases, phase, 3);
    var ages := SourceAgeKeywords();
    assert forall i :: 0 <= i < |ages| ==> |ages[i].1| == 3;
    GetListBound(ages, ageRange, 3);
  }

  /** A lookup returns one of the table's lists, or the empty list. */
  lemma GetListBound(entries: seq<(string, seq<string>)>, k: string, n: nat)
    requires forall i :: 0 <= i < |entries| ==> |entries[i].1| <= n
    ensures |GetList(entries, k)| <= n
  {
  }

  // ------------------------------------------------------------------
  // Related segments
  // ------------------------------------------------------------------

  /** The placeholder id of a phase and age range. */
  function Placeholder(phase: string, ageRange: string): string
  {
    IdStem(phase, ageRange) + "_XXX"
  }

  const PhaseAbbreviations: seq<(string, string)> := [
    ("folicular", "FOL"), ("ovulatory", "OVU"), ("luteal", "LUT"), ("menstrual", "MEN")]

  /** Same phase, the other age ranges among the first `n`. */
  function SameAgeUpTo(phase: string, ageRange: string, n: nat): seq<string>
    requires n <= |AgeRanges|
  {
    if n == 0 then []
    else
      SameAgeUpTo(phase, ageRange, n - 1)
      + (if AgeRanges[n - 1] != ageRange then [Placeholder(phase, AgeRanges[n - 1])] else [])
  }

  /** Same age range, the other phases among the first `n`; `agePart` is the
      age range with `-` turned into `_`. */
  function OtherPhasesUpTo(phase: string, agePart: string, n: nat): seq<string>
    requires n <= |PhaseAbbreviations|
  {
    if n == 0 then []
    else
      OtherPhasesUpTo(phase, agePart, n - 1)
      + (if PhaseAbbreviations[n - 1].0 != phase then ["SEG_" + PhaseAbbreviations[n - 1].1 + "_" + agePart + "_XXX"] else [])
  }

  /** The first `n` similar emotions, each appended to `stem`. */
  function SimilarUpTo(stem: string, similar: seq<string>, n: nat): seq<string>
    requires n <= |similar|
  {
    if n == 0 then []
    else SimilarUpTo(stem, similar, n - 1) + [stem + Upper(similar[n - 1]) + "_XXX"]
  }

  /** The stem of a similar-emotion placeholder: unknown phases abbreviate to XXX. */
  function SimilarStem(phase: string, ageRange: string): string
  {
    "SEG_" + GetOr(PhaseAbbreviations, phase, "XXX") + "_" + Replace(ageRange, "-", "_") + "_"
  }

  function Similar(v: Vocabulary, phase: string, primary: string, ageRange: string): seq<string>
  {
    var similar := GetList(v.emotionGroups, primary);
    SimilarUpTo(SimilarStem(phase, ageRange), similar, |similar|)
  }

  /** The whole related list before the cut to five. */
  function RelatedList(v: Vocabulary, phase: string, primary: string, ageRange: string): seq<string>
  {
    SameAgeUpTo(phase, ageRange, |AgeRanges|) + OtherPhasesUpTo(phase, Replace(ageRange, "-", "_"), |PhaseAbbreviations|)
      + Similar(v, phase, primary, ageRange)
  }

  /** The related segments: placeholders for the same phase at the other ages,
      the same age in the other phases and similar emotions, cut to five. */
  method RelatedSegments(v: Vocabulary, phase: string, primary: string, secondary: string, ageRange: string)
    returns (related: seq<string>)
    ensures related == Take(RelatedList(v, phase, primary, ageRange), 5)
  {
    var sameAge := SameAgePlaceholders(phase, ageRange);
    var otherPhases := OtherPhasePlaceholders(phase, Replace(ageRange, "-", "_"));
    var similar := SimilarPlaceholders(SimilarStem(phase, ageRange), GetList(v.emotionGroups, primary));
    related := Take(sameAge + otherPhases + similar, 5);
  }

  /** The first loop of the related segments: the same phase at every other age. */
  method SameAgePlaceholders(phase: string, ageRange: string) returns (list: seq<string>)
    ensures list == SameAgeUpTo(phase, ageRange, |AgeRanges|)
  {
    list := [];
    for j := 0 to |AgeRanges|
      invariant list == SameAgeUpTo(phase, ageRange, j)
    {
      if AgeRanges[j] != ageRange {
        list := list + [Placeholder(phase, AgeRanges[j])];
      }
    }
  }

  /** The second loop: the same age in every other phase. */
  method OtherPhasePlaceholders(phase: string, agePart: string) returns (list: seq<string>)
    ensures list == OtherPhasesUpTo(phase, agePart, |PhaseAbbreviations|)
  {
    list := [];
    for j := 0 to |PhaseAbbreviations|
      invariant list == OtherPhasesUpTo(phase, agePart, j)
    {
      var (other, abbr) := PhaseAbbreviations[j];
      if other != phase {
        list := list + ["SEG_" + abbr + "_" + agePart + "_XXX"];
      }
    }
  }

  /** The third loop: one placeholder per similar emotion. */
  method SimilarPlaceholders(stem: string, similar: seq<string>) returns (list: seq<string>)
    ensures list == SimilarUpTo(stem, similar, |similar|)
  {
    list := [];
    for j := 0 to |similar|
      invariant list == SimilarUpTo(stem, similar, j)
    {
      list := list + [stem + Upper(similar[j]) + "_XXX"];
    }
  }

  /** With the age range at position `a`, the same-phase list skips exactly it. */
  lemma {:induction false} SameAgeSkips(phase: string, ageRange: string, a: nat, n: nat)
    requires a < |AgeRanges| && AgeRanges[a] == ageRange && n <= |AgeRanges|
    ensures |SameAgeUpTo(phase, ageRange, n)| == if n <= a then n else n - 1
    ensures forall j :: 0 <= j < |SameAgeUpTo(phase, ageRange, n)| ==>
      SameAgeUpTo(phase, ageRange, n)[j] == Placeholder(phase, AgeRanges[if j < a then j else j + 1])
  {
    if n > 0 {
      SameAgeSkips(phase, ageRange, a, n - 1);
      AgeRangesDistinct(n - 1, a);
    }
  }

  /** With an age range outside the table, no age is skipped. */
  lemma {:induction false} SameAgeKeepsAll(phase: string, ageRange: string, n: nat)
    requires ageRange !in AgeRanges && n <= |AgeRanges|
    ensures |SameAgeUpTo(phase, ageRange, n)| == n
  {
    if n > 0 {
      SameAgeKeepsAll(phase, ageRange, n - 1);
    }
  }

  /** There are always exactly five related segments: the same-phase list
      alone has five (a tabled age range) or six entries. */
  lemma RelatedExactlyFive(v: Vocabulary, phase: string, primary: string, ageRange: string)
    ensures |Take(RelatedList(v, phase, primary, ageRange), 5)| == 5
  {
    if ageRange in AgeRanges {
      var a :| 0 <= a < |AgeRanges| && AgeRanges[a] == ageRange;
      SameAgeSkips(phase, ageRange, a, |AgeRanges|);
    } else {
      SameAgeKeepsAll(phase, ageRange, |AgeRanges|);
    }
  }

  /** For the age range at position `a`, the five related segments are the
      same-phase placeholders of the other five ages, in table order. */
  lemma RelatedOtherAges(v: Vocabulary, phase: string, primary: string, ageRange: string, a: nat)
    requires a < |AgeRanges| && AgeRanges[a] == ageRange
    ensures |Take(RelatedList(v, phase, primary, ageRange), 5)| == 5
    ensures forall j :: 0 <= j < 5 ==>
      Take(RelatedList(v, phase, primary, ageRange), 5)[j] == Placeholder(phase, AgeRanges[if j < a then j else j + 1])
  {
    var same := SameAgeUpTo(phase, ageRange, |AgeRanges|);
    var r := Take(RelatedList(v, phase, primary, ageRange), 5);
    SameAgeSkips(phase, ageRange, a, |AgeRanges|);
    forall j | 0 <= j < 5 ensures r[j] == Placeholder(phase, AgeRanges[if j < a then j else j + 1]) {
      assert r[j] == same[j];
    }
  }

  // ------------------------------------------------------------------
  // Segment records
  // ------------------------------------------------------------------

  /** One primary or secondary emotion of a record; the score is in tenths. */
  datatype EmotionEntry = EmotionEntry(emotion: string, intensity: nat, score: int)

  datatype GenerationRules = GenerationRules(maxLength: int, tone: string, urgency: string, language: string, structure: string)

  /** A generated segment.  Its metadata repeats id, name, phase, sub-phase,
      emotions, age range and life stage; those copies are not stored twice. */
  datatype GeneratedSegment = GeneratedSegment(
    id: string, name: string,
    phase: string, subphase: string, days: seq<int>,
    ageRange: string, lifeStage: string,
    primary: EmotionEntry, secondary: EmotionEntry,
    conflict: Option<string>, resolutionNeeded: bool,
    presentation: Style,
    category: string, intensityLevel: string,
    applicableContent: seq<(string, ApplicableEntry)>,
    searchKeywords: seq<string>,
    relatedSegments: seq<string>,
    rules: GenerationRules)

  /** The record of one combination and variant, with running counter `counter`. */
  function SegmentFor(v: Vocabulary, slot: Slot, age: (string, string), i: nat, counter: nat): GeneratedSegment
  {
    var x := VariantFor(i);
    var style := PresentationStyle(v, x.primary, x.secondary, x.intensity, age.0);
    var level := EmotionIntensity(x.intensity);
    GeneratedSegment(
      SegmentId(slot.phase, age.0, counter), SegmentName(v, slot, x),
      slot.phase, slot.subphase, slot.days, age.0, age.1,
      EmotionEntry(x.primary, level, x.primaryScore), EmotionEntry(x.secondary, level, x.secondaryScore),
      x.conflict, x.resolutionNeeded, style,
      slot.phase + "_" + age.0, x.intensity,
      ApplicableUpTo(v, x.primary, x.intensity, age.0, 6),
      Take(KeywordList(v, slot.phase, slot.subphase, x.primary, x.secondary, age.0), 8),
      Take(RelatedList(v, slot.phase, x.primary, age.0), 5),
      GenerationRules(MaxLength(age.0, x.intensity), style.tone, style.urgency, style.language, style.structure))
  }

  /** The whole enumeration: record `k` is variant `k % 5` of age group
      `(k / 5) % 6` in sub-phase `k / 30`, with counter `k + 1`. */
  function Enumeration(v: Vocabulary): (r: seq<GeneratedSegment>)
    ensures |r| == 270
  {
    EnumerationUpTo(v, 270)
  }

  /** The first `n` records of the enumeration. */
  function EnumerationUpTo(v: Vocabulary, n: nat): (r: seq<GeneratedSegment>)
    requires n <= 270
    ensures |r| == n
  {
    if n == 0 then [] else EnumerationUpTo(v, n - 1) + [Entry(v, n - 1)]
  }

  lemma EnumerationUpToStep(v: Vocabulary, n: nat)
    requires n < 270
    ensures EnumerationUpTo(v, n + 1) == EnumerationUpTo(v, n) + [Entry(v, n)]
  {
  }

  lemma {:induction false} EnumerationUpToAt(v: Vocabulary, n: nat, k: nat)
    requires k < n <= 270
    ensures EnumerationUpTo(v, n)[k] == Entry(v, k)
  {
    EnumerationUpToStep(v, n - 1);
    if k < n - 1 {
      EnumerationUpToAt(v, n - 1, k);
    }
  }

  lemma EnumerationAt(v: Vocabulary, k: nat)
    requires k < 270
    ensures Enumeration(v)[k] == Entry(v, k)
  {
    EnumerationUpToAt(v, 270, k);
  }

  /** Record `k` of the enumeration. */
  function Entry(v: Vocabulary, k: nat): GeneratedSegment
    requires k < 270
  {
    SegmentFor(v, Slots()[k / 30], AgeGroups[k / 5 % 6], k % 5, k + 1)
  }

  /** One record, built the way the generator's innermost loop builds it. */
  method BuildSegment(v: Vocabulary, slot: Slot, age: (string, string), i: nat, counter: nat)
    returns (segment: GeneratedSegment)
    ensures segment == SegmentFor(v, slot, age, i, counter)
  {
    var x := VariantFor(i);
    var id := SegmentId(slot.phase, age.0, counter);
    var name := SegmentName(v, slot, x);
    var style := PresentationStyle(v, x.primary, x.secondary, x.intensity, age.0);
    var level := EmotionIntensity(x.intensity);
    var applicable := ApplicableContent(v, x.primary, x.secondary, x.intensity, age.0);
    var keywords := SearchKeywords(v, slot.phase, slot.subphase, x.primary, x.secondary, age.0);
    var related := RelatedSegments(v, slot.phase, x.primary, x.secondary, age.0);
    var rules := GenerationRules(MaxLength(age.0, x.intensity), style.tone, style.urgency, style.language, style.structure);
    segment := GeneratedSegment(id, name, slot.phase, slot.subphase, slot.days, age.0, age.1,
      EmotionEntry(x.primary, level, x.primaryScore), EmotionEntry(x.secondary, level, x.secondaryScore),
      x.conflict, x.resolutionNeeded, style, slot.phase + "_" + age.0, x.intensity,
      applicable, keywords, related, rules);
  }

  lemma DivideCounter(q: nat, a: nat, i: nat)
    requires a < 6 && i < 5
    ensures (30 * q + 5 * a + i) / 30 == q
    ensures (30 * q + 5 * a + i) / 5 % 6 == a
    ensures (30 * q + 5 * a + i) % 5 == i
  {
    var k := 30 * q + 5 * a + i;
    assert k == 5 * (6 * q + a) + i;
    assert k / 5 == 6 * q + a;
    assert k == 30 * q + (5 * a + i) && 5 * a + i < 30;
  }

  /** The generator: four nested loops over phases, sub-phases, age groups and
      the five variants, appending one record per step and advancing the
      running counter; the result is the whole enumeration, in that order. */
  method GenerateSegments(v: Vocabulary) returns (segments: seq<GeneratedSegment>)
    ensures segments == Enumeration(v)
  {
    segments := [];
    var counter := 1;
    assert Rows()[..0] == [];
    for p := 0 to |Phases|
      invariant Offset(p) <= 9
      invariant |segments| == 30 * Offset(p) && counter == |segments| + 1
      invariant segments == EnumerationUpTo(v, |segments|)
    {
      var (phaseName, subphases) := Phases[p];
      for s := 0 to |subphases|
        invariant Offset(p) + s <= 9
        invariant |segments| == 30 * (Offset(p) + s) && counter == |segments| + 1
        invariant segments == EnumerationUpTo(v, |segments|)
      {
        SlotAt(p, s);
        var slot := Slot(phaseName, subphases[s].0, subphases[s].1);
        segments, counter := AppendSlot(v, Offset(p) + s, slot, segments, counter);
      }
      OffsetStep(p);
    }
    OffsetTotal();
  }

  /** The age-group loop of the generator, for the `q`-th sub-phase in
      iteration order. */
  method AppendSlot(v: Vocabulary, q: nat, slot: Slot, segments: seq<GeneratedSegment>, counter: nat)
    returns (segments': seq<GeneratedSegment>, counter': nat)
    requires q < 9 && slot == Slots()[q]
    requires |segments| == 30 * q && counter == |segments| + 1
    requires segments == EnumerationUpTo(v, |segments|)
    ensures |segments'| == 30 * (q + 1) && counter' == |segments'| + 1
    ensures segments' == EnumerationUpTo(v, |segments'|)
  {
    segments', counter' := segments, counter;
    for a := 0 to |AgeGroups|
      invariant |segments'| == 30 * q + 5 * a && counter' == |segments'| + 1
      invariant segments' == EnumerationUpTo(v, |segments'|)
    {
      segments', counter' := AppendVariants(v, q, slot, a, segments', counter');
    }
  }

  /** The variant loop of the generator: the five records of age group `a`
      in the `q`-th sub-phase. */
  method AppendVariants(v: Vocabulary, q: nat, slot: Slot, a: nat, segments: seq<GeneratedSegment>, counter: nat)
    returns (segments': seq<GeneratedSegment>, counter': nat)
    requires q < 9 && slot == Slots()[q] && a < 6
    requires |segments| == 30 * q + 5 * a && counter == |segments| + 1
    requires segments == EnumerationUpTo(v, |segments|)
    ensures |segments'| == 30 * q + 5 * (a + 1) && counter' == |segments'| + 1
    ensures segments' == EnumerationUpTo(v, |segments'|)
  {
    segments', counter' := segments, counter;
    for i := 0 to 5
      invariant |segments'| == 30 * q + 5 * a + i && counter' == |segments'| + 1
      invariant segments' == EnumerationUpTo(v, |segments'|)
    {
      var segment := NextSegment(v, q, slot, a, i, counter');
      EnumerationUpToStep(v, |segments'|);
      segments' := segments' + [segment];
      counter' := counter' + 1;
    }
  }

  /** One step of the variant loop: the record for counter `30 q + 5 a + i + 1`. */
  method NextSegment(v: Vocabulary, q: nat, slot: Slot, a: nat, i: nat, counter: nat) returns (segment: GeneratedSegment)
    requires q < 9 && slot == Slots()[q] && a < 6 && i < 5
    requires counter == 30 * q + 5 * a + i + 1
    ensures segment == Entry(v, counter - 1)
  {
    segment := BuildSegment(v, slot, AgeGroups[a], i, counter);
    EntryAt(v, q, a, i);
  }

  /** Record `30 q + 5 a + i` is variant `i` of age group `a` in sub-phase `q`. */
  lemma EntryAt(v: Vocabulary, q: nat, a: nat, i: nat)
    requires q < 9 && a < 6 && i < 5
    ensures 30 * q + 5 * a + i < 270
    ensures Entry(v, 30 * q + 5 * a + i) == SegmentFor(v, Slots()[q], AgeGroups[a], i, 30 * q + 5 * a + i + 1)
  {
    DivideCounter(q, a, i);
  }

  // ------------------------------------------------------------------
  // Properties of the enumeration
  // ------------------------------------------------------------------

  /** The 270 identifiers are pairwise distinct. */
  lemma EnumerationIdsDistinct(v: Vocabulary, j: nat, k: nat)
    requires j < k < 270
    ensures Enumeration(v)[j].id != Enumeration(v)[k].id
  {
    EnumerationAt(v, j);
    EnumerationAt(v, k);
    SegmentIdsDistinct(Slots()[j / 30].phase, AgeGroups[j / 5 % 6].0, j + 1,
      Slots()[k / 30].phase, AgeGroups[k / 5 % 6].0, k + 1);
  }

  /** A record carries a conflict exactly when it needs resolution, exactly
      for variants 1 and 3; both emotions have intensity 2 exactly for
      variants 0 and 1, the high and very high ones. */
  lemma EnumerationVariants(v: Vocabulary, k: nat)
    requires k < 270
    ensures Enumeration(v)[k].conflict.Some? <==> Enumeration(v)[k].resolutionNeeded
    ensures Enumeration(v)[k].resolutionNeeded <==> k % 5 == 1 || k % 5 == 3
    ensures Enumeration(v)[k].primary.intensity == 2 <==> IsHigh(Enumeration(v)[k].intensityLevel)
    ensures Enumeration(v)[k].secondary.intensity == Enumeration(v)[k].primary.intensity
    ensures IsHigh(Enumeration(v)[k].intensityLevel) <==> k % 5 <= 1
  {
    EnumerationAt(v, k);
  }

  /** Every record's metadata: a length in [300, 800], all six content types
      with priorities in [60, 95], at most eight keywords and exactly five
      related segments, each the same-phase placeholder of another age. */
  lemma EnumerationMetadata(v: Vocabulary, k: nat)
    requires k < 270
    ensures var r := Enumeration(v)[k];
      300 <= r.rules.maxLength <= 800
      && KeysOf(r.applicableContent) == ContentGeneration.ContentTypes
      && (forall j :: 0 <= j < 6 ==> 60 <= r.applicableContent[j].1.priority <= 95)
      && |r.searchKeywords| <= 8
      && |r.relatedSegments| == 5
      && forall j :: 0 <= j < 5 ==> r.relatedSegments[j] == Placeholder(r.phase, AgeRanges[if j < k / 5 % 6 then j else j + 1])
  {
    EnumerationAt(v, k);
    RecordMetadata(v, Slots()[k / 30], k / 5 % 6, k % 5, k + 1);
  }

  /** The metadata of one record, for the age group at position `a`. */
  lemma RecordMetadata(v: Vocabulary, slot: Slot, a: nat, i: nat, counter: nat)
    requires a < 6
    ensures var r := SegmentFor(v, slot, AgeGroups[a], i, counter);
      300 <= r.rules.maxLength <= 800
      && KeysOf(r.applicableContent) == ContentGeneration.ContentTypes
      && (forall j :: 0 <= j < 6 ==> 60 <= r.applicableContent[j].1.priority <= 95)
      && |r.searchKeywords| <= 8
      && |r.relatedSegments| == 5
      && forall j :: 0 <= j < 5 ==> r.relatedSegments[j] == Placeholder(r.phase, AgeRanges[if j < a then j else j + 1])
  {
    RecordApplicable(v, slot, AgeGroups[a], i, counter);
    RecordRelated(v, slot, a, i, counter);
  }

  lemma RecordApplicable(v: Vocabulary, slot: Slot, age: (string, string), i: nat, counter: nat)
    ensures var r := SegmentFor(v, slot, age, i, counter);
      KeysOf(r.applicableContent) == ContentGeneration.ContentTypes
      && forall j :: 0 <= j < 6 ==> 60 <= r.applicableContent[j].1.priority <= 95
  {
    var x := VariantFor(i);
    ApplicableContentComplete(v, x.primary, x.intensity, age.0, 6);
  }

  lemma RecordRelated(v: Vocabulary, slot: Slot, a: nat, i: nat, counter: nat)
    requires a < 6
    ensures var r := SegmentFor(v, slot, AgeGroups[a], i, counter);
      |r.relatedSegments| == 5
      && forall j :: 0 <= j < 5 ==> r.relatedSegments[j] == Placeholder(r.phase, AgeRanges[if j < a then j else j + 1])
  {
    var x := VariantFor(i);
    var ageRange := AgeGroups[a].0;
    AgeTablesAgree();
    assert ageRange == AgeRanges[a];
    RelatedOtherAges(v, slot.phase, x.primary, ageRange, a);
  }

  // ------------------------------------------------------------------
  // The source's text tables
  // ------------------------------------------------------------------

  function SourcePhaseNames(): seq<(string, seq<(string, string)>)>
  {
    [("folicular", [("early", "Folicular Temprana"), ("middle", "Folicular Media"), ("late", "Folicular Tardía")]),
     ("ovulatory", [("peak", "Ovulatoria")]),
     ("luteal", [("early", "Lútea Temprana"), ("middle", "Lútea Media"), ("late", "Lútea Tardía")]),
     ("menstrual", [("flow", "Menstrual"), ("recovery", "Recuperación")])]
  }

  function SourceEmotionNames(): seq<(string, string)>
  {
    [("energética", "Energética"), ("confiada", "Confiada"), ("poderosa", "Poderosa"),
     ("activa", "Activa"), ("orgullosa_de_mí", "Orgullosa de mí"), ("en_paz_conmigo", "En paz conmigo"),
     ("conectada", "Conectada"), ("valorada", "Valorada"), ("ansiosa", "Ansiosa"),
     ("estresada", "Estresada"), ("triste", "Triste"), ("frustrada", "Frustrada"),
     ("insegura", "Insegura"), ("abrumada", "Abrumada"), ("cansada_físicamente", "Cansada físicamente"),
     ("desesperanzada", "Desesperanzada"), ("sensible", "Sensible"), ("nerviosa", "Nerviosa"),
     ("melancólica", "Melancólica"), ("nostálgica", "Nostálgica"), ("frágil", "Frágil"),
     ("desconectada", "Desconectada"), ("impaciente", "Impaciente"), ("tensa", "Tensa")]
  }

  function SourceIntensityNames(): seq<(string, string)>
  {
    [("very_low", "Muy Baja Intensidad"), ("low", "Baja Intensidad"), ("moderate", "Moderada Intensidad"),
     ("high", "Alta Intensidad"), ("very_high", "Muy Alta Intensidad")]
  }

  function SourceContentTones(): seq<(string, seq<(string, string)>)>
  {
    [("lesson_3min", [("ansiosa", "empático_tranquilizador"), ("estresada", "validador_empoderador"),
        ("energética", "motivacional_energético"), ("confiada", "empoderador_optimista"),
        ("triste", "empático_animador"), ("nerviosa", "educativo_empático"), ("sensible", "delicado_empático")]),
     ("whats_happening", [("ansiosa", "empático_tranquilizador"), ("estresada", "validador_empoderador"),
        ("energética", "motivacional_energético"), ("confiada", "empoderador_optimista"),
        ("triste", "empático_animador"), ("nerviosa", "educativo_empático"), ("sensible", "delicado_empático")]),
     ("nutrition_guide", [("ansiosa", "práctico_tranquilizador"), ("estresada", "práctico_empoderador"),
        ("energética", "práctico_motivador"), ("confiada", "práctico_optimista"),
        ("triste", "práctico_animador"), ("nerviosa", "práctico_educativo"), ("sensible", "práctico_delicado")]),
     ("cycle_day_info", [("ansiosa", "claro_tranquilizador"), ("estresada", "claro_empoderador"),
        ("energética", "claro_motivador"), ("confiada", "claro_optimista"),
        ("triste", "claro_animador"), ("nerviosa", "claro_educativo"), ("sensible", "claro_delicado")]),
     ("hormone_levels", [("ansiosa", "educativo_tranquilizador"), ("estresada", "educativo_empoderador"),
        ("energética", "educativo_motivador"), ("confiada", "educativo_optimista"),
        ("triste", "educativo_animador"), ("nerviosa", "educativo_empático"), ("sensible", "educativo_delicado")]),
     ("stress_levels", [("ansiosa", "urgente_tranquilizador"), ("estresada", "urgente_empoderador"),
        ("energética", "urgente_equilibrador"), ("confiada", "urgente_preventivo"),
        ("triste", "urgente_consolador"), ("nerviosa", "urgente_educativo"), ("sensible", "urgente_delicado")])]
  }

  function SourceToneMap(): seq<(string, string)>
  {
    [("energy", "motivacional_energico"), ("confidence", "empoderador_optimista"),
     ("anxiety", "calmante_empatico"), ("stress", "validador_empoderador"),
     ("sadness", "empatico_animador"), ("melancholy", "validador_reflexivo"),
     ("insecurity", "empoderador_empatico"), ("sensitivity", "validador_suave"),
     ("curiosity", "educativo_empatico")]
  }

  function SourceStructureMap(): seq<((string, string), string)>
  {
    [(("anxiety", "energy"), "balance_emocional"), (("stress", "resilience"), "reconocimiento_estrategia"),
     (("sadness", "curiosity"), "validacion_esperanza"), (("melancholy", "energy"), "validacion_oportunidad"),
     (("insecurity", "confidence"), "validacion_crecimiento"), (("sensitivity", "reflection"), "sensibilidad_reflexion")]
  }

  function SourceSymptoms(): seq<(string, seq<string>)>
  {
    [("anxiety", ["ansiedad", "preocupación", "nerviosismo", "tensión"]),
     ("stress", ["estrés", "sobrecarga", "presión", "agotamiento"]),
     ("energy", ["energía", "vitalidad", "motivación", "actividad"]),
     ("confidence", ["confianza", "seguridad", "autoestima", "liderazgo"]),
     ("sadness", ["tristeza", "melancolía", "desánimo", "apoyo"]),
     ("curiosity", ["curiosidad", "aprendizaje", "educación", "comprensión"])]
  }

  function SourcePhaseKeywords(): seq<(string, seq<string>)>
  {
    [("folicular", ["estrógeno", "energía", "crecimiento"]),
     ("ovulatory", ["ovulación", "fertilidad", "pico_hormonal"]),
     ("luteal", ["progesterona", "síntomas", "cambios"]),
     ("menstrual", ["menstruación", "renovación", "recuperación"])]
  }

  function SourceAgeKeywords(): seq<(string, seq<string>)>
  {
    [("8-12", ["pubertad", "desarrollo", "educación"]),
     ("13-19", ["adolescencia", "cambio", "identidad"]),
     ("20-29", ["adulto_joven", "responsabilidades", "equilibrio"]),
     ("30-39", ["adulto", "familia", "carrera"]),
     ("40-49", ["perimenopausia", "transición", "cambios"]),
     ("50+", ["post_menopausia", "estabilidad", "salud"])]
  }

  function SourceEmotionGroups(): seq<(string, seq<string>)>
  {
    [("anxiety", ["stress", "insecurity"]), ("stress", ["anxiety", "overwhelm"]),
     ("energy", ["confidence", "motivation"]), ("confidence", ["energy", "optimism"]),
     ("sadness", ["melancholy", "fatigue"]), ("curiosity", ["creativity", "motivation"])]
  }

  /** The vocabulary the generator uses. */
  function SourceVocabulary(): Vocabulary
  {
    Vocabulary(SourcePhaseNames(), SourceEmotionNames(), SourceIntensityNames(), SourceContentTones(),
      SourceToneMap(), SourceStructureMap(), SourceSymptoms(), SourcePhaseKeywords(), SourceAgeKeywords(),
      SourceEmotionGroups())
  }

  /** Every generated emotion has a stored display name, so names never fall
      back to title-casing. */
  lemma EmotionNamesCover(e: string)
    requires e in Emotions
    ensures Lookup(SourceEmotionNames(), e).Some?
  {
    EmotionNameKeys();
    var i :| 0 <= i < |Emotions| && Emotions[i] == e;
    assert KeysOf(SourceEmotionNames())[i] == e;
  }

  lemma EmotionNameKeys()
    ensures KeysOf(SourceEmotionNames()) == Emotions
  {
  }

  /** Every generated sub-phase has a stored Spanish name. */
  lemma PhaseNamesCover(p: nat, s: nat)
    requires p < |Phases| && s < |Phases[p].1|
    ensures Lookup(SourcePhaseNames(), Phases[p].0).Some?
    ensures Lookup(Lookup(SourcePhaseNames(), Phases[p].0).value, Phases[p].1[s].0).Some?
  {
    assert KeysOf(SourcePhaseNames()) == KeysOf(Phases);
    AgeTablesAgree();
    assert NoDuplicates(KeysOf(SourcePhaseNames()));
    LookupAt(SourcePhaseNames(), p);
    assert SourcePhaseNames()[p].1[s].0 == Phases[p].1[s].0;
  }
}
