/** The deterministic part of `ExpandedContentGenerator`: content priorities,
    the retrieval query, the generation prompt, the per-segment and batch
    generation control flow, and the statistics over what was generated. The
    language model and the vector store are parameters. */
module ContentGeneration {
  import opened Common
  import opened Text
  import opened SegmentRecords
  import opened SegmentCatalog

  /** The six content types, in the order the batch visits them. */
  const ContentTypes: seq<string> := ["lesson_3min", "whats_happening", "nutrition_guide",
    "cycle_day_info", "hormone_levels", "stress_levels"]

  lemma ContentTypesDistinct()
    ensures NoDuplicates(ContentTypes)
  {
  }

  // ------------------------------------------------------------------
  // Priorities (_get_content_priority)
  // ------------------------------------------------------------------

  /** The stored priorities in `ContentTypes` order, in hundredths. */
  function StoredPriorities(rc: RecommendedContentTypes): seq<int>
  {
    [rc.lesson3min, rc.whatsHappening, rc.nutritionGuide, rc.cycleDayInfo, rc.hormoneLevels, rc.stressLevels]
  }

  /** `priority_map`: each content type with the segment's priority for it. */
  function PriorityMap(rc: RecommendedContentTypes): (m: seq<(string, int)>)
    ensures KeysOf(m) == ContentTypes
  {
    var ps := StoredPriorities(rc);
    seq(6, k requires 0 <= k < 6 => (ContentTypes[k], ps[k]))
  }

  /** `_get_content_priority`: `priority_map.get(content_type, 0.0)`, in hundredths. */
  function ContentPriority(seg: Segment, contentType: string): (p: int)
    ensures contentType !in ContentTypes ==> p == 0
    ensures forall k :: 0 <= k < 6 && ContentTypes[k] == contentType ==> p == StoredPriorities(seg.recommendedContentTypes)[k]
  {
    var m := PriorityMap(seg.recommendedContentTypes);
    ContentTypesDistinct();
    forall k | 0 <= k < 6 && ContentTypes[k] == contentType
      ensures Lookup(m, contentType) == Some(StoredPriorities(seg.recommendedContentTypes)[k])
    {
      LookupAt(m, k);
    }
    match Lookup(m, contentType)
    case Some(p) => p
    case None => 0
  }

  /** The priorities the catalog metadata lists under `applicable_content` are
      the ones the generator reads for the same content types. */
  lemma PriorityAgreesWithMetadata(seg: Segment, i: nat)
    requires i < 3
    ensures MetadataOf(seg).applicableContent[i].1.priority
      == ContentPriority(seg, MetadataOf(seg).applicableContent[i].0)
  {
    var md := MetadataOf(seg);
    assert md.applicableContent[i].0 == KeysOf(md.applicableContent)[i] == ContentTypes[i];
  }

  // ------------------------------------------------------------------
  // Retrieval query (_build_query_terms)
  // ------------------------------------------------------------------

  /** `content_type_queries`. */
  const TypeQueries: seq<(string, seq<string>)> := [
    ("lesson_3min", ["lección", "educación", "aprendizaje", "consejos"]),
    ("whats_happening", ["qué está pasando", "explicación", "cambios", "cuerpo", "mente"]),
    ("nutrition_guide", ["nutrición", "alimentación", "dieta", "vitaminas", "minerales"]),
    ("cycle_day_info", ["ciclo menstrual", "fase", "día", "duración", "timing"]),
    ("hormone_levels", ["hormonas", "estrógeno", "progesterona", "FSH", "hormonal"]),
    ("stress_levels", ["estrés", "cortisol", "ansiedad", "tensión", "calma"])
  ]

  /** The terms `content_type_queries` adds for a content type; none for a type
      outside the table. */
  function TypeTerms(contentType: string): seq<string>
  {
    match Lookup(TypeQueries, contentType)
    case Some(terms) => terms
    case None => []
  }

  /** The query terms in the order `_build_query_terms` appends them. */
  function QueryTerms(seg: Segment, contentType: string): seq<string>
  {
    (if Truthy(seg.emotionalPrimary) then [seg.phase + " " + seg.emotionalPrimary.value] else [])
    + (if seg.physicalSymptoms.Some? && seg.physicalSymptoms.value.common != []
       then [Join(" ", Take(seg.physicalSymptoms.value.common, 3))] else [])
    + (if seg.contentPreferences.focusAreas != []
       then [Join(" ", Take(seg.contentPreferences.focusAreas, 2))] else [])
    + TypeTerms(contentType)
  }

  lemma TypeQueriesKeys()
    ensures KeysOf(TypeQueries) == ContentTypes
    ensures forall k :: 0 <= k < 6 ==> 4 <= |TypeQueries[k].1| <= 5
  {
  }

  /** One term for each segment source that is present (so at most three)
      precedes the content type's own terms; the first is "phase emotion" when
      the primary emotion is truthy; a type outside the table adds nothing, a
      known one adds its four or five terms. */
  lemma QueryTermsShape(seg: Segment, contentType: string)
    ensures var q := QueryTerms(seg, contentType);
      && |q| - |TypeTerms(contentType)|
         == (if Truthy(seg.emotionalPrimary) then 1 else 0)
          + (if seg.physicalSymptoms.Some? && seg.physicalSymptoms.value.common != [] then 1 else 0)
          + (if seg.contentPreferences.focusAreas != [] then 1 else 0)
      && q[|q| - |TypeTerms(contentType)|..] == TypeTerms(contentType)
      && (Truthy(seg.emotionalPrimary) ==> q[0] == seg.phase + " " + seg.emotionalPrimary.value)
      && (contentType !in ContentTypes ==> TypeTerms(contentType) == [])
      && (contentType in ContentTypes ==> 4 <= |TypeTerms(contentType)| <= 5)
  {
    TypeQueriesKeys();
    ContentTypesDistinct();
    if contentType in ContentTypes {
      var k :| 0 <= k < 6 && ContentTypes[k] == contentType;
      LookupAt(TypeQueries, k);
    }
  }

  /** `_build_query_terms`: appends the terms one step at a time. */
  method BuildQueryTerms(seg: Segment, contentType: string) returns (terms: seq<string>)
    ensures terms == QueryTerms(seg, contentType)
  {
    ghost var q := QueryTerms(seg, contentType);
    ghost var n := |q| - |TypeTerms(contentType)|;
    terms := [];
    if Truthy(seg.emotionalPrimary) {
      terms := terms + [seg.phase + " " + seg.emotionalPrimary.value];
    }
    assert terms == (if Truthy(seg.emotionalPrimary) then [seg.phase + " " + seg.emotionalPrimary.value] else []);
    if seg.physicalSymptoms.Some? && seg.physicalSymptoms.value.common != [] {
      terms := terms + [Join(" ", Take(seg.physicalSymptoms.value.common, 3))];
    }
    if seg.contentPreferences.focusAreas != [] {
      terms := terms + [Join(" ", Take(seg.contentPreferences.focusAreas, 2))];
    }
    assert terms == q[..n];
    var typeTerms := Lookup(TypeQueries, contentType);
    if typeTerms.Some? {
      terms := terms + typeTerms.value;
    }
    assert q == q[..n] + TypeTerms(contentType);
  }

  // ------------------------------------------------------------------
  // Prompt text (_build_content_prompt, _get_content_type_instructions)
  //
  // Every text block is an f-string: fixed pieces with the interpolated
  // values between them. The fixed pieces are gathered in a `Wording`; the
  // source's own wording is `SourceWording()`. The text functions take the
  // wording as a parameter, so what is proved about them holds for any
  // wording, the source's included.
  // ------------------------------------------------------------------

  /** f-string rendering of an optional string: `None` prints as "None". */
  function PyStr(o: Option<string>): string
  {
    if o.Some? then o.value else "None"
  }

  /** `value or default` for an optional string. */
  function OrElse(o: Option<string>, default: string): string
  {
    if Truthy(o) then o.value else default
  }

  /** `repr` of a float with one decimal, given in tenths (-2.0 is -20). */
  function TenthsRepr(t: int): string
  {
    var a := if t < 0 then -t else t;
    (if t < 0 then "-" else "") + NatToString(a / 10) + "." + NatToString(a % 10)
  }

  /** `str` of a list of such floats: "[-2.0, 1.5]". */
  function TenthsListRepr(xs: seq<int>): string
  {
    "[" + Join(", ", seq(|xs|, i requires 0 <= i < |xs| => TenthsRepr(xs[i]))) + "]"
  }

  /** The pieces of an f-string in order: fixed, value, fixed, ..., fixed
      (any pieces left over on either side follow at the end). */
  function Interleave(fixed: seq<string>, values: seq<string>): seq<string>
  {
    if fixed == [] then values
    else if values == [] then fixed
    else [fixed[0], values[0]] + Interleave(fixed[1..], values[1..])
  }

  /** The text of an f-string. */
  function Fill(fixed: seq<string>, values: seq<string>): string
  {
    Flatten(Interleave(fixed, values))
  }

  /** An f-string that starts with fixed text starts with that text. */
  lemma FillStartsWithFixed(fixed: seq<string>, values: seq<string>)
    ensures fixed != [] ==> fixed[0] <= Fill(fixed, values)
  {
    if fixed == [] { return; }
    var pieces := Interleave(fixed, values);
    assert pieces[0] == fixed[0];
    FlattenAppend([pieces[0]], pieces[1..]);
    assert [pieces[0]] + pieces[1..] == pieces;
    assert Flatten([pieces[0]]) == Flatten<char>([]) + pieces[0];
  }

  /** The prompt's physical-symptoms block is empty exactly when the segment
      has no symptom record, given a block whose leading text is not empty. */
  lemma PhysicalInfoEmptyIff(w: Wording, seg: Segment)
    requires w.physicalBlock != [] && w.physicalBlock[0] != ""
    ensures PhysicalInfo(w, seg) == "" <==> seg.physicalSymptoms.None?
  {
  }

  /** Every interpolated value is one of the pieces. */
  lemma {:induction false} InterleaveHasValues(fixed: seq<string>, values: seq<string>, k: nat)
    requires k < |values|
    ensures values[k] in Interleave(fixed, values)
    decreases |values|
  {
    if fixed != [] && k > 0 {
      InterleaveHasValues(fixed[1..], values[1..], k - 1);
      assert values[1..][k - 1] == values[k];
    }
  }

  /** A concatenation contains each of its pieces. */
  lemma FlattenContains(parts: seq<string>, k: nat)
    requires k < |parts|
    ensures Contains(Flatten(parts), parts[k])
  {
    var front := parts[..k + 1];
    var back := parts[k + 1..];
    assert parts == front + back;
    FlattenAppend(front, back);
    assert front[..k] == parts[..k];
    var pre := Flatten(parts[..k]);
    assert Flatten(front) == pre + parts[k];
    var s := Flatten(parts);
    assert s == pre + parts[k] + Flatten(back);
    assert s[|pre|..|pre| + |parts[k]|] == parts[k];
    ContainsSlice(s, |pre|, |pre| + |parts[k]|);
  }

  /** An f-string's text contains every value interpolated into it. */
  lemma FillContains(fixed: seq<string>, values: seq<string>, k: nat)
    requires k < |values|
    ensures Contains(Fill(fixed, values), values[k])
  {
    InterleaveHasValues(fixed, values, k);
    var parts := Interleave(fixed, values);
    var i :| 0 <= i < |parts| && parts[i] == values[k];
    FlattenContains(parts, i);
  }

  /** The fixed pieces of every text block of the prompt. */
  datatype Wording = Wording(
    segmentBlock: seq<string>,
    emotionalBlock: seq<string>,
    hormonalBlock: seq<string>,
    physicalBlock: seq<string>,
    demographicsBlock: seq<string>,
    interventionBlock: seq<string>,
    contextBlock: seq<string>,
    prompt: seq<string>,
    lessonTemplate: seq<string>,
    happeningTemplate: seq<string>,
    nutritionTemplate: seq<string>,
    cycleDayTemplate: seq<string>,
    hormonesTemplate: seq<string>,
    stressTemplate: seq<string>,
    fallback: string)

  /** The wording of `_build_content_prompt` and `_get_content_type_instructions`. */
  function SourceWording(): Wording
  {
    Wording(
      [
        "\nSEGMENTO: ",
        " (",
        ")\nFASE: ",
        "\nCATEGORÍA: ",
        "\nESTADO EMOCIONAL: ",
        "\nINTENSIDAD: ",
        "\nTONO RECOMENDADO: ",
        "\nURGENCIA: ",
        "\nÁREAS DE ENFOQUE: ",
        "\nTEMAS A EVITAR: ",
        "\n"],
      [
        "\nCARACTERÍSTICAS EMOCIONALES:\n- Emociones principales: ",
        "\n- Emociones secundarias: ",
        "\n- Rango emocional: ",
        "\n- Volatilidad: ",
        "\n- Tiempo de recuperación: ",
        "\n"],
      [
        "\nPERFIL HORMONAL:\n- Estradiol: ",
        "\n- Progesterona: ",
        "\n- Cortisol: ",
        "\n- Factores de sensibilidad: ",
        "\n"],
      [
        "\nSÍNTOMAS FÍSICOS:\n- Comunes: ",
        "\n- Moderados: ",
        "\n- Severos: ",
        "\n"],
      [
        "\nDEMOGRAFÍA:\n- Grupos de edad: ",
        "\n- Etapas de vida: ",
        "\n- Desencadenantes comunes: ",
        "\n"],
      [
        "\nPRIORIDADES DE INTERVENCIÓN:\n",
        "\n"],
      [
        "\nCONTEXTO MÉDICO RELEVANTE:\n",
        "\n"],
      [
        "\n"
          + "Eres una experta en salud femenina y bienestar menstrual. Tu tarea es "
          + "generar contenido personalizado y empático para mujeres en diferentes "
          + "fases de su ciclo menstrual.\n"
          + "\n",
        "\n",
        "\n",
        "\n",
        "\n",
        "\n",
        "\n",
        "\n\nINSTRUCCIONES ESPECÍFICAS PARA ",
        ":\n",
        "\n\nREQUISITOS OBLIGATORIOS:\n1. Usa un tono ",
        "\n2. Mantén un nivel de profundidad ",
        "\n3. Enfócate en: ",
        "\n4. EVITA: ",
        "\n"
          + "5. RESPETA ESTRICTAMENTE los límites de longitud especificados para "
          + "cada tipo de contenido\n"
          + "6. Incluye consejos prácticos y validación emocional\n"
          + "7. NO hagas diagnósticos médicos\n"
          + "8. Usa lenguaje empático y comprensivo\n"
          + "9. Basa el contenido en la información médica proporcionada\n"
          + "10. Dirige el contenido directamente a la usuaria usando \"tú\" y \"tu\"\n"
          + "\n"
          + "Genera el contenido ahora:\n"],
      [
        "\n"
          + "Crea una lección educativa de MÁXIMO 3 MINUTOS DE LECTURA "
          + "(aproximadamente 400-500 palabras) que explique:\n"
          + "- Qué está pasando hormonalmente en la fase ",
        "\n- Cómo se relaciona con sentirse ",
        "\n"
          + "- Estrategias prácticas para manejar los síntomas\n"
          + "- Validación de las emociones y experiencias\n"
          + "- Consejos específicos para ",
        "\n"
          + "- Incluye ejemplos prácticos y accionables\n"
          + "\n"
          + "FORMATO: Texto corrido, divídelo en párrafos cortos para facilitar la "
          + "lectura.\n"],
      [
        "\n"
          + "Crea un texto de MÁXIMO 4 RENGLONES que explique brevemente:\n"
          + "- Qué está pasando en tu cuerpo durante la fase ",
        "\n- Por qué te sientes ",
        "\n"
          + "- Cómo los cambios hormonales afectan tu mente y cuerpo\n"
          + "- Que es completamente normal sentirse así\n"
          + "\n"
          + "FORMATO: Máximo 4 líneas de texto, directo y empático. Usa \"tú\" para "
          + "dirigirte directamente a la usuaria.\n"
          + "EJEMPLO DE FORMATO:\n"
          + "\"Durante la fase folicular, tus niveles de estrógeno están aumentando...\n"
          + "Esto hace que te sientas más enérgica pero también puede generar "
          + "ansiedad...\n"
          + "Tu cuerpo se está preparando para la ovulación y es normal que "
          + "experimentes...\n"
          + "Estos cambios son parte natural de tu ciclo y pasarán en unos días.\"\n"],
      [
        "\nProporciona información nutricional específica para la fase ",
        " y para manejar sentirse ",
        ":\n"
          + "\n"
          + "Incluye:\n"
          + "- 5-7 alimentos específicos recomendados para esta fase y estado emocional\n"
          + "- Nutrientes clave que tu cuerpo necesita ahora (vitaminas, minerales)\n"
          + "- 3-4 alimentos que debes evitar o limitar\n"
          + "- Horarios de comida recomendados para esta fase\n"
          + "- Consejos de hidratación específicos\n"
          + "- 1-2 suplementos que podrían ayudar (si aplica)\n"
          + "\n"
          + "FORMATO: Lista organizada con explicaciones breves de por qué cada "
          + "recomendación es importante para tu fase actual.\n"],
      [
        "\n"
          + "Proporciona información específica sobre la fase del ciclo y el día:\n"
          + "\n"
          + "Incluye:\n"
          + "- En qué día del ciclo típicamente ocurre la fase ",
        "\n"
          + "- Duración normal de esta fase (rango de días)\n"
          + "- Qué esperar en los próximos días\n"
          + "- Cómo puede variar entre mujeres (rangos normales)\n"
          + "- Señales físicas y emocionales típicas de esta fase\n"
          + "- Cuándo esta fase debería terminar y qué sigue\n"
          + "\n"
          + "FORMATO: Información clara y estructurada sobre el timing y progresión "
          + "de la fase actual.\n"],
      [
        "\n"
          + "Proporciona información detallada sobre los niveles hormonales durante "
          + "la fase ",
        ":\n\nIncluye información sobre:\n- Niveles de ESTRÓGENO: ",
        " - qué significa y cómo afecta tu cuerpo y emociones\n"
          + "- Niveles de PROGESTERONA: ",
        " - su función y efectos actuales\n"
          + "- Niveles de FSH (Hormona Folículo Estimulante) - qué está haciendo "
          + "ahora y por qué\n"
          + "- Cómo estos niveles se relacionan con sentirse ",
        "\n"
          + "- Qué cambios hormonales esperar en los próximos días\n"
          + "- Cómo estas hormonas afectan tu energía, estado de ánimo y síntomas "
          + "físicos\n"
          + "\n"
          + "FORMATO: Explicación educativa pero accesible de la actividad hormonal "
          + "actual.\n"],
      [
        "\n"
          + "Proporciona información sobre los niveles de estrés basados en el "
          + "cortisol durante la fase ",
        ":\n\nIncluye:\n- Niveles actuales de CORTISOL: ",
        " - qué significa esto\n"
          + "- Cómo el cortisol interactúa con tus hormonas sexuales en esta fase\n"
          + "- Por qué te sientes ",
        " en relación al estrés\n"
          + "- Señales físicas de estrés que puedes estar experimentando\n"
          + "- Estrategias específicas para reducir el cortisol en esta fase\n"
          + "- Cómo el estrés puede afectar tu ciclo menstrual\n"
          + "- Técnicas de manejo del estrés más efectivas para ti ahora\n"
          + "\n"
          + "FORMATO: Información práctica sobre la relación entre estrés, cortisol "
          + "y tu fase menstrual actual.\n"],
      "Genera contenido relevante y útil para este segmento.")
  }

  /** The values the instruction template of content type number `k`
      interpolates; the phase comes first in every one of them. */
  function TemplateValues(k: nat, seg: Segment): (r: seq<string>)
    requires k < 6
    ensures |r| > 0 && r[0] == seg.phase
  {
    match k
    case 0 => [
      seg.phase,
      PyStr(seg.emotionalPrimary),
      Join(", ", seg.demographics.ageGroups)]
    case 1 => [
      seg.phase,
      PyStr(seg.emotionalPrimary)]
    case 2 => [
      seg.phase,
      PyStr(seg.emotionalPrimary)]
    case 3 => [
      seg.phase]
    case 4 => [
      seg.phase,
      seg.hormonalProfile.estrogenLevel,
      seg.hormonalProfile.progesteroneLevel,
      PyStr(seg.emotionalPrimary)]
    case 5 => [
      seg.phase,
      OrElse(seg.hormonalProfile.cortisolLevel, "variable"),
      PyStr(seg.emotionalPrimary)]
  }

  /** The position of a content type in `ContentTypes`, if it is one. */
  function TypeIndex(contentType: string): (r: Option<nat>)
    ensures r.None? <==> contentType !in ContentTypes
    ensures r.Some? ==> r.value < 6 && ContentTypes[r.value] == contentType
  {
    if contentType == ContentTypes[0] then Some(0)
    else if contentType == ContentTypes[1] then Some(1)
    else if contentType == ContentTypes[2] then Some(2)
    else if contentType == ContentTypes[3] then Some(3)
    else if contentType == ContentTypes[4] then Some(4)
    else if contentType == ContentTypes[5] then Some(5)
    else None
  }

  /** The fixed pieces of instruction template number `k`. */
  function Template(w: Wording, k: nat): seq<string>
  {
    match k
    case 0 => w.lessonTemplate
    case 1 => w.happeningTemplate
    case 2 => w.nutritionTemplate
    case 3 => w.cycleDayTemplate
    case 4 => w.hormonesTemplate
    case _ => w.stressTemplate
  }

  /** `_get_content_type_instructions`: the type's template filled from the
      segment, or the fallback sentence. */
  function ContentTypeInstructions(w: Wording, contentType: string, seg: Segment): string
  {
    match TypeIndex(contentType)
    case Some(k) => Fill(Template(w, k), TemplateValues(k, seg))
    case None => w.fallback
  }

  /** Every template names the segment's phase; a type outside the six gets
      the fallback sentence. */
  lemma InstructionsShape(w: Wording, contentType: string, seg: Segment)
    ensures contentType !in ContentTypes ==> ContentTypeInstructions(w, contentType, seg) == w.fallback
    ensures contentType in ContentTypes ==> Contains(ContentTypeInstructions(w, contentType, seg), seg.phase)
  {
    var r := TypeIndex(contentType);
    if r.Some? {
      FillContains(Template(w, r.value), TemplateValues(r.value, seg), 0);
    }
  }

  /** The segment block of the prompt. */
  function SegmentInfo(w: Wording, seg: Segment): string
  {
    Fill(w.segmentBlock, [
      seg.name,
      seg.id,
      seg.phase,
      seg.category,
      OrElse(seg.emotionalPrimary, "N/A"),
      OrElse(seg.intensityLevel, "N/A"),
      seg.contentPreferences.tone,
      seg.contentPreferences.urgency,
      Join(", ", seg.contentPreferences.focusAreas),
      Join(", ", seg.contentPreferences.avoidTopics)])
  }

  /** The emotional-characteristics block. */
  function EmotionalInfo(w: Wording, seg: Segment): string
  {
    Fill(w.emotionalBlock, [
      Join(", ", seg.emotionalCharacteristics.primaryEmotions),
      Join(", ", seg.emotionalCharacteristics.secondaryEmotions),
      TenthsListRepr(seg.emotionalCharacteristics.emotionalRange),
      seg.emotionalCharacteristics.volatility,
      seg.emotionalCharacteristics.recoveryTime])
  }

  /** The hormonal block; `None` where joining a missing list of sensitivity
      factors raises. */
  function HormonalInfo(w: Wording, seg: Segment): (r: Option<string>)
    ensures r.None? <==> seg.hormonalProfile.sensitivityFactors.None?
  {
    match seg.hormonalProfile.sensitivityFactors
    case None => None
    case Some(factors) => Some(Fill(w.hormonalBlock, [
        seg.hormonalProfile.estrogenLevel,
        seg.hormonalProfile.progesteroneLevel,
        OrElse(seg.hormonalProfile.cortisolLevel, "N/A"),
        Join(", ", factors)]))
  }

  /** The physical-symptoms block, empty when the segment has no symptom record. */
  function PhysicalInfo(w: Wording, seg: Segment): (r: string)
    ensures seg.physicalSymptoms.None? ==> r == ""
    ensures seg.physicalSymptoms.Some? && w.physicalBlock != [] ==> w.physicalBlock[0] <= r
  {
    match seg.physicalSymptoms
    case None => ""
    case Some(symptoms) =>
      var values := [Join(", ", symptoms.common), Join(", ", symptoms.moderate), Join(", ", symptoms.severe)];
      FillStartsWithFixed(w.physicalBlock, values);
      Fill(w.physicalBlock, values)
  }

  /** The demographics block. */
  function DemographicsInfo(w: Wording, seg: Segment): string
  {
    Fill(w.demographicsBlock, [
      Join(", ", seg.demographics.ageGroups),
      Join(", ", seg.demographics.lifeStages),
      Join(", ", seg.demographics.commonTriggers)])
  }

  /** The intervention-priorities block; `None` where joining a missing list
      of priorities raises. */
  function InterventionInfo(w: Wording, seg: Segment): (r: Option<string>)
    ensures r.None? <==> seg.interventionPriorities.None?
  {
    match seg.interventionPriorities
    case None => None
    case Some(priorities) => Some(Fill(w.interventionBlock, [
        Join(", ", priorities)]))
  }

  /** Every list `_build_content_prompt` joins is present, so building the
      prompt does not raise. */
  predicate Joinable(seg: Segment)
  {
    seg.hormonalProfile.sensitivityFactors.Some? && seg.interventionPriorities.Some?
  }

  /** The retrieved-context block. */
  function ContextInfo(w: Wording, context: string): string
  {
    Fill(w.contextBlock, [
      context])
  }

  /** The values `_build_content_prompt` interpolates; `hormonal` and
      `intervention` are the hormonal and intervention blocks. */
  function PromptValues(w: Wording, seg: Segment, contentType: string, context: string, hormonal: string, intervention: string): (r: seq<string>)
    ensures |r| == 13
  {
    [
      SegmentInfo(w, seg),
      EmotionalInfo(w, seg),
      hormonal,
      PhysicalInfo(w, seg),
      DemographicsInfo(w, seg),
      intervention,
      ContextInfo(w, context),
      Upper(contentType),
      ContentTypeInstructions(w, contentType, seg),
      seg.contentPreferences.tone,
      seg.contentPreferences.depth,
      Join(", ", seg.contentPreferences.focusAreas),
      Join(", ", seg.contentPreferences.avoidTopics)]
  }

  /** `_build_content_prompt`: `None` where it raises. */
  function BuildContentPrompt(w: Wording, seg: Segment, contentType: string, context: string): Option<string>
  {
    match (HormonalInfo(w, seg), InterventionInfo(w, seg))
    case (Some(hormonal), Some(intervention)) =>
      Some(Fill(w.prompt, PromptValues(w, seg, contentType, context, hormonal, intervention)))
    case _ => None
  }

  /** The prompt exists exactly when the segment lists its sensitivity factors
      and its intervention priorities; when it does, it carries the segment block, the retrieved context and the
      content type's instructions. */
  lemma PromptShape(w: Wording, seg: Segment, contentType: string, context: string)
    ensures BuildContentPrompt(w, seg, contentType, context).None? <==> !Joinable(seg)
    ensures BuildContentPrompt(w, seg, contentType, context).Some? ==>
      var p := BuildContentPrompt(w, seg, contentType, context).value;
      Contains(p, SegmentInfo(w, seg)) && Contains(p, context) && Contains(p, ContentTypeInstructions(w, contentType, seg))
  {
    match (HormonalInfo(w, seg), InterventionInfo(w, seg))
    case (Some(hormonal), Some(intervention)) =>
      var values := PromptValues(w, seg, contentType, context, hormonal, intervention);
      var p := Fill(w.prompt, values);
      assert values[0] == SegmentInfo(w, seg) && values[6] == ContextInfo(w, context)
        && values[8] == ContentTypeInstructions(w, contentType, seg);
      FillContains(w.prompt, values, 0);
      FillContains(w.prompt, values, 8);
      FillContains(w.prompt, values, 6);
      FillContains(w.contextBlock, [context], 0);
      ContainsTransitive(p, ContextInfo(w, context), context);
    case _ =>
  }

  /** A segment block names the segment, its id and its phase. */
  lemma SegmentInfoNames(w: Wording, seg: Segment)
    ensures Contains(SegmentInfo(w, seg), seg.name) && Contains(SegmentInfo(w, seg), seg.id)
      && Contains(SegmentInfo(w, seg), seg.phase)
  {
    var values := [seg.name, seg.id, seg.phase, seg.category, OrElse(seg.emotionalPrimary, "N/A"),
      OrElse(seg.intensityLevel, "N/A"), seg.contentPreferences.tone, seg.contentPreferences.urgency,
      Join(", ", seg.contentPreferences.focusAreas), Join(", ", seg.contentPreferences.avoidTopics)];
    FillContains(w.segmentBlock, values, 0);
    FillContains(w.segmentBlock, values, 1);
    FillContains(w.segmentBlock, values, 2);
  }

  // ------------------------------------------------------------------
  // One piece of content (_get_relevant_context,
  // generate_content_for_expanded_segment)
  // ------------------------------------------------------------------

  /** The vector-store query: for each query text, the documents it matched;
      `None` when there is no collection or the query fails. */
  type Retriever = seq<string> -> Option<seq<seq<string>>>

  /** The language model: the generated text for a prompt, `None` on failure. */
  type Generator = string -> Option<string>

  /** `_get_relevant_context`: the documents matched by the first query text,
      separated by blank lines; empty without a collection, on failure or
      when nothing matched. */
  function RelevantContext(seg: Segment, contentType: string, retrieve: Retriever): string
  {
    match retrieve(QueryTerms(seg, contentType))
    case Some(results) => if results != [] && results[0] != [] then Join("\n\n", results[0]) else ""
    case None => ""
  }

  /** The prompt sent to the model: a non-empty custom prompt as given,
      otherwise the built one (`None` where building it raises). */
  function PromptFor(w: Wording, seg: Segment, contentType: string, customPrompt: Option<string>, retrieve: Retriever): Option<string>
  {
    if Truthy(customPrompt) then customPrompt
    else BuildContentPrompt(w, seg, contentType, RelevantContext(seg, contentType, retrieve))
  }

  /** `generate_content_for_expanded_segment` once the segment is found: the
      model's reply when it is a non-empty text. */
  function GenerateFor(w: Wording, seg: Segment, contentType: string, customPrompt: Option<string>,
                       retrieve: Retriever, generate: Generator): Option<string>
  {
    match PromptFor(w, seg, contentType, customPrompt, retrieve)
    case None => None
    case Some(prompt) => if Truthy(generate(prompt)) then generate(prompt) else None
  }

  /** Content is returned exactly when there is a prompt and the model answers
      it with a non-empty text, which is then returned unchanged; a non-empty
      custom prompt replaces the built one, and without one a segment with no
      sensitivity factors or intervention priorities gets nothing. */
  lemma GenerateForSpec(w: Wording, seg: Segment, contentType: string, customPrompt: Option<string>,
                        retrieve: Retriever, generate: Generator)
    ensures var r := GenerateFor(w, seg, contentType, customPrompt, retrieve, generate);
      var prompt := PromptFor(w, seg, contentType, customPrompt, retrieve);
      (r.Some? <==> prompt.Some? && Truthy(generate(prompt.value)))
      && (r.Some? ==> r == generate(prompt.value) && r.value != "")
    ensures Truthy(customPrompt) ==> PromptFor(w, seg, contentType, customPrompt, retrieve) == customPrompt
    ensures !Truthy(customPrompt) && !Joinable(seg) ==>
      GenerateFor(w, seg, contentType, customPrompt, retrieve, generate).None?
  {
    PromptShape(w, seg, contentType, RelevantContext(seg, contentType, retrieve));
  }

  /** The prompt does not depend on the recommended content types. */
  lemma PromptIgnoresPriorities(w: Wording, seg: Segment, rc: RecommendedContentTypes, contentType: string, context: string)
    ensures BuildContentPrompt(w, seg.(recommendedContentTypes := rc), contentType, context)
      == BuildContentPrompt(w, seg, contentType, context)
  {
    var seg' := seg.(recommendedContentTypes := rc);
    assert TemplateValues(0, seg') == TemplateValues(0, seg);
    assert TemplateValues(4, seg') == TemplateValues(4, seg);
    assert TemplateValues(5, seg') == TemplateValues(5, seg);
    assert ContentTypeInstructions(w, contentType, seg') == ContentTypeInstructions(w, contentType, seg);
    assert HormonalInfo(w, seg') == HormonalInfo(w, seg);
    assert InterventionInfo(w, seg') == InterventionInfo(w, seg);
    if HormonalInfo(w, seg).Some? && InterventionInfo(w, seg).Some? {
      var h := HormonalInfo(w, seg).value;
      var i := InterventionInfo(w, seg).value;
      assert PromptValues(w, seg', contentType, context, h, i) == PromptValues(w, seg, contentType, context, h, i);
    }
  }

  /** A content type the segment rates low is generated all the same: the
      priority is only reported, never consulted. */
  lemma PriorityNotConsulted(w: Wording, seg: Segment, rc: RecommendedContentTypes, contentType: string,
                             customPrompt: Option<string>, retrieve: Retriever, generate: Generator)
    ensures GenerateFor(w, seg.(recommendedContentTypes := rc), contentType, customPrompt, retrieve, generate)
      == GenerateFor(w, seg, contentType, customPrompt, retrieve, generate)
  {
    var seg' := seg.(recommendedContentTypes := rc);
    assert QueryTerms(seg', contentType) == QueryTerms(seg, contentType);
    var context := RelevantContext(seg, contentType, retrieve);
    assert RelevantContext(seg', contentType, retrieve) == context;
    PromptIgnoresPriorities(w, seg, rc, contentType, context);
    assert PromptFor(w, seg', contentType, customPrompt, retrieve) == PromptFor(w, seg, contentType, customPrompt, retrieve);
  }

  /** `generate_content_for_expanded_segment`: nothing for an unknown segment. */
  function GenerateContentForSegment(db: SegmentDatabase, w: Wording, segmentId: string, contentType: string,
                                     customPrompt: Option<string>, retrieve: Retriever, generate: Generator): (r: Option<string>)
    reads db
    requires db.Valid()
    ensures segmentId !in KeysOf(db.segments) ==> r.None?
    ensures forall i :: 0 <= i < |db.segments| && db.segments[i].0 == segmentId ==>
      r == GenerateFor(w, db.segments[i].1, contentType, customPrompt, retrieve, generate)
  {
    match db.GetSegment(segmentId)
    case None => None
    case Some(seg) => GenerateFor(w, seg, contentType, customPrompt, retrieve, generate)
  }

  // ------------------------------------------------------------------
  // Statistics (_generate_statistics)
  // ------------------------------------------------------------------

  /** One exported piece of content; its `generated_at` timestamp is left out. */
  datatype ContentRecord = ContentRecord(
    segmentId: string,
    segmentName: string,
    segmentCategory: string,
    segmentPhase: string,
    contentType: string,
    contentPriority: int,
    content: string,
    segmentMetadata: SegmentMetadata)

  /** A counting dictionary: keys in order of first occurrence. */
  type Counter = seq<(string, nat)>

  /** `counter.get(key, 0)`. */
  function CountFor(c: Counter, key: string): nat
  {
    match Lookup(c, key)
    case Some(n) => n
    case None => 0
  }

  /** The sum of a counter's values. */
  function Total(c: Counter): nat
  {
    if c == [] then 0 else c[0].1 + Total(c[1..])
  }

  /** `counter[key] = counter.get(key, 0) + 1`: a new key goes last. */
  function Bump(c: Counter, key: string): (r: Counter)
    ensures KeysOf(r) == if key in KeysOf(c) then KeysOf(c) else KeysOf(c) + [key]
  {
    if c == [] then [(key, 1)]
    else if c[0].0 == key then [(key, c[0].1 + 1)] + c[1..]
    else
      var r := [c[0]] + Bump(c[1..], key);
      assert KeysOf(c) == [c[0].0] + KeysOf(c[1..]);
      r
  }

  /** Bumping adds one to the total. */
  lemma {:induction false} BumpTotal(c: Counter, key: string)
    ensures Total(Bump(c, key)) == Total(c) + 1
  {
    if c != [] && c[0].0 != key {
      BumpTotal(c[1..], key);
      assert Bump(c, key)[1..] == Bump(c[1..], key);
    }
  }

  /** Bumping adds one to the key's count and leaves every other count alone. */
  lemma {:induction false} BumpCount(c: Counter, key: string, x: string)
    ensures CountFor(Bump(c, key), x) == CountFor(c, x) + (if x == key then 1 else 0)
  {
    if c != [] && c[0].0 != key {
      var r := Bump(c, key);
      BumpCount(c[1..], key, x);
      assert r[1..] == Bump(c[1..], key);
      if c[0].0 != x {
        assert Lookup(r, x) == Lookup(r[1..], x);
        assert Lookup(c, x) == Lookup(c[1..], x);
      }
    }
  }

  /** Bumping adds one to the key's count and to the total, and nothing else. */
  lemma BumpCounts(c: Counter, key: string)
    ensures Total(Bump(c, key)) == Total(c) + 1
    ensures forall x :: CountFor(Bump(c, key), x) == CountFor(c, x) + (if x == key then 1 else 0)
  {
    BumpTotal(c, key);
    forall x ensures CountFor(Bump(c, key), x) == CountFor(c, x) + (if x == key then 1 else 0) {
      BumpCount(c, key, x);
    }
  }

  /** The counter the statistics loop builds for a sequence of keys. */
  function Tally(keys: seq<string>): Counter
  {
    if keys == [] then [] else Bump(Tally(keys[..|keys| - 1]), keys[|keys| - 1])
  }

  /** A tally has each key once, in order of first occurrence, counts every
      key's occurrences and adds up to the number of keys. */
  lemma {:induction false} TallySpec(keys: seq<string>)
    ensures KeysOf(Tally(keys)) == Dedup(keys)
    ensures IsDict(Tally(keys))
    ensures Total(Tally(keys)) == |keys|
    ensures forall x :: CountFor(Tally(keys), x) == Count(keys, x)
    decreases |keys|
  {
    if keys != [] {
      var init := keys[..|keys| - 1];
      TallySpec(init);
      BumpCounts(Tally(init), keys[|keys| - 1]);
    }
  }

  /** `priority_distribution`. */
  datatype Distribution = Distribution(high: nat, medium: nat, low: nat)

  /** The bucket a priority (in hundredths) is counted in. */
  function Bucket(d: Distribution, priority: int): Distribution
  {
    if priority >= 80 then d.(high := d.high + 1)
    else if priority >= 50 then d.(medium := d.medium + 1)
    else d.(low := d.low + 1)
  }

  function DistributionOf(priorities: seq<int>): Distribution
  {
    if priorities == [] then Distribution(0, 0, 0)
    else Bucket(DistributionOf(priorities[..|priorities| - 1]), priorities[|priorities| - 1])
  }

  /** How many of the priorities satisfy `keep`. */
  function CountWhere(priorities: seq<int>, keep: int -> bool): nat
  {
    if priorities == [] then 0
    else CountWhere(priorities[..|priorities| - 1], keep) + (if keep(priorities[|priorities| - 1]) then 1 else 0)
  }

  /** Every priority is counted in exactly one bucket, `high` from 0.80 and
      `medium` from 0.50. */
  lemma {:induction false} DistributionSpec(priorities: seq<int>)
    ensures var d := DistributionOf(priorities);
      d.high + d.medium + d.low == |priorities|
      && d.high == CountWhere(priorities, p => p >= 80)
      && d.medium == CountWhere(priorities, p => 50 <= p < 80)
    decreases |priorities|
  {
    if priorities != [] {
      DistributionSpec(priorities[..|priorities| - 1]);
    }
  }

  /** The statistics dictionary. */
  datatype Statistics = Statistics(
    totalPieces: nat,
    bySegment: Counter,
    byContentType: Counter,
    byCategory: Counter,
    byPhase: Counter,
    priorityDistribution: Distribution)

  function Ids(records: seq<ContentRecord>): seq<string>
  {
    seq(|records|, i requires 0 <= i < |records| => records[i].segmentId)
  }

  function Types(records: seq<ContentRecord>): seq<string>
  {
    seq(|records|, i requires 0 <= i < |records| => records[i].contentType)
  }

  function Categories(records: seq<ContentRecord>): seq<string>
  {
    seq(|records|, i requires 0 <= i < |records| => records[i].segmentCategory)
  }

  function Phases(records: seq<ContentRecord>): seq<string>
  {
    seq(|records|, i requires 0 <= i < |records| => records[i].segmentPhase)
  }

  function Priorities(records: seq<ContentRecord>): seq<int>
  {
    seq(|records|, i requires 0 <= i < |records| => records[i].contentPriority)
  }

  /** What `_generate_statistics` computes for a list of records. */
  function StatisticsOf(records: seq<ContentRecord>): Statistics
  {
    Statistics(|records|, Tally(Ids(records)), Tally(Types(records)), Tally(Categories(records)),
      Tally(Phases(records)), DistributionOf(Priorities(records)))
  }

  /** Every counter of the statistics adds up to the number of pieces, and so
      does the priority distribution. */
  lemma StatisticsConsistent(records: seq<ContentRecord>)
    ensures var st := StatisticsOf(records);
      Total(st.bySegment) == st.totalPieces && Total(st.byContentType) == st.totalPieces
      && Total(st.byCategory) == st.totalPieces && Total(st.byPhase) == st.totalPieces
      && st.priorityDistribution.high + st.priorityDistribution.medium + st.priorityDistribution.low == st.totalPieces
  {
    TallySpec(Ids(records));
    TallySpec(Types(records));
    TallySpec(Categories(records));
    TallySpec(Phases(records));
    DistributionSpec(Priorities(records));
  }

  /** The statistics of one more record. */
  lemma StatisticsStep(records: seq<ContentRecord>, i: nat)
    requires i < |records|
    ensures var pre := records[..i];
      var r := records[i];
      var st := StatisticsOf(records[..i + 1]);
      st.bySegment == Bump(Tally(Ids(pre)), r.segmentId)
      && st.byContentType == Bump(Tally(Types(pre)), r.contentType)
      && st.byCategory == Bump(Tally(Categories(pre)), r.segmentCategory)
      && st.byPhase == Bump(Tally(Phases(pre)), r.segmentPhase)
      && st.priorityDistribution == Bucket(DistributionOf(Priorities(pre)), r.contentPriority)
  {
    var pre, next := records[..i], records[..i + 1];
    assert Ids(next)[..i] == Ids(pre);
    assert Types(next)[..i] == Types(pre);
    assert Categories(next)[..i] == Categories(pre);
    assert Phases(next)[..i] == Phases(pre);
    assert Priorities(next)[..i] == Priorities(pre);
  }

  /** `_generate_statistics`. */
  method GenerateStatistics(records: seq<ContentRecord>) returns (stats: Statistics)
    ensures stats == StatisticsOf(records)
  {
    var bySegment: Counter := [];
    var byContentType: Counter := [];
    var byCategory: Counter := [];
    var byPhase: Counter := [];
    var distribution := Distribution(0, 0, 0);
    for i := 0 to |records|
      invariant StatisticsOf(records[..i])
        == Statistics(i, bySegment, byContentType, byCategory, byPhase, distribution)
    {
      var r := records[i];
      StatisticsStep(records, i);
      bySegment := Bump(bySegment, r.segmentId);
      byContentType := Bump(byContentType, r.contentType);
      byCategory := Bump(byCategory, r.segmentCategory);
      byPhase := Bump(byPhase, r.segmentPhase);
      distribution := Bucket(distribution, r.contentPriority);
    }
    assert records[..|records|] == records;
    stats := Statistics(|records|, bySegment, byContentType, byCategory, byPhase, distribution);
  }

  // ------------------------------------------------------------------
  // Batch (generate_content_for_all_expanded_segments)
  // ------------------------------------------------------------------

  /** What the batch asks for one segment and content type: the content
      generated, if any. */
  type Producer = (Segment, string) -> Option<string>

  /** The batch's producer: `generate_content_for_expanded_segment` with no
      custom prompt. */
  function SourceProducer(w: Wording, retrieve: Retriever, generate: Generator): Producer
  {
    (seg: Segment, contentType: string) => GenerateFor(w, seg, contentType, None, retrieve, generate)
  }

  /** The batch's producer never yields empty content. */
  lemma SourceProducerNonEmpty(w: Wording, retrieve: Retriever, generate: Generator, seg: Segment, contentType: string)
    ensures var c := SourceProducer(w, retrieve, generate)(seg, contentType);
      c.Some? ==> c.value != ""
  {
    GenerateForSpec(w, seg, contentType, None, retrieve, generate);
  }

  /** The record kept for one segment and content type, when content came back. */
  function RecordFor(produce: Producer, id: string, seg: Segment, contentType: string): seq<ContentRecord>
  {
    match produce(seg, contentType)
    case None => []
    case Some(content) =>
      [ContentRecord(id, seg.name, seg.category, seg.phase, contentType, ContentPriority(seg, contentType),
        content, MetadataOf(seg))]
  }

  /** The records for one segment over the content types `cts`, in order. */
  function RecordsForSegment(produce: Producer, id: string, seg: Segment, cts: seq<string>): seq<ContentRecord>
  {
    if cts == [] then []
    else
      RecordsForSegment(produce, id, seg, cts[..|cts| - 1]) + RecordFor(produce, id, seg, cts[|cts| - 1])
  }

  /** The records for all segments in dictionary order, each over the six
      content types. */
  function BatchRecords(produce: Producer, es: Entries): seq<ContentRecord>
  {
    if es == [] then []
    else
      BatchRecords(produce, es[..|es| - 1]) + RecordsForSegment(produce, es[|es| - 1].0, es[|es| - 1].1, ContentTypes)
  }

  /** A record describes the segment it was generated for, and holds the
      content produced for it and its type. */
  predicate Describes(produce: Producer, r: ContentRecord, id: string, seg: Segment)
  {
    r.segmentId == id && r.segmentName == seg.name && r.segmentCategory == seg.category
    && r.segmentPhase == seg.phase && r.contentPriority == ContentPriority(seg, r.contentType)
    && r.segmentMetadata == MetadataOf(seg)
    && produce(seg, r.contentType) == Some(r.content)
  }

  /** Every record of a segment describes it, for one of the content types
      visited. */
  lemma {:induction false} SegmentRecordsDescribe(produce: Producer, id: string, seg: Segment, cts: seq<string>)
    ensures var rs := RecordsForSegment(produce, id, seg, cts);
      |rs| <= |cts|
      && forall j :: 0 <= j < |rs| ==> Describes(produce, rs[j], id, seg) && rs[j].contentType in cts
    decreases |cts|
  {
    if cts != [] {
      SegmentRecordsDescribe(produce, id, seg, cts[..|cts| - 1]);
    }
  }

  /** A segment has no records exactly when no content type produced content. */
  lemma {:induction false} SegmentRecordsEmpty(produce: Producer, id: string, seg: Segment, cts: seq<string>)
    ensures RecordsForSegment(produce, id, seg, cts) == [] <==> forall k :: 0 <= k < |cts| ==> produce(seg, cts[k]).None?
    decreases |cts|
  {
    if cts != [] {
      var init := cts[..|cts| - 1];
      SegmentRecordsEmpty(produce, id, seg, init);
      assert forall k :: 0 <= k < |init| ==> init[k] == cts[k];
    }
  }

  lemma TypesAppend(a: seq<ContentRecord>, b: seq<ContentRecord>)
    ensures Types(a + b) == Types(a) + Types(b)
  {
  }

  /** Content that came back yields one record of that content type. */
  lemma RecordForType(produce: Producer, id: string, seg: Segment, contentType: string)
    requires produce(seg, contentType).Some?
    ensures Types(RecordFor(produce, id, seg, contentType)) == [contentType]
  {
  }

  /** A segment has one record per content type, in order, when every content
      type produced content. */
  lemma {:induction false} SegmentRecordsComplete(produce: Producer, id: string, seg: Segment, cts: seq<string>)
    requires forall k :: 0 <= k < |cts| ==> produce(seg, cts[k]).Some?
    ensures Types(RecordsForSegment(produce, id, seg, cts)) == cts
    decreases |cts|
  {
    if cts != [] {
      var init := cts[..|cts| - 1];
      assert forall k :: 0 <= k < |init| ==> init[k] == cts[k];
      SegmentRecordsComplete(produce, id, seg, init);
      var last := cts[|cts| - 1];
      SplitLast(cts);
      var pre := RecordsForSegment(produce, id, seg, init);
      RecordForType(produce, id, seg, last);
      TypesAppend(pre, RecordFor(produce, id, seg, last));
    }
  }

  /** Every record of the batch describes a segment of the dictionary and one
      of the six content types; there are at most six records per segment. */
  lemma {:induction false} BatchRecordsDescribe(produce: Producer, es: Entries)
    ensures var rs := BatchRecords(produce, es);
      |rs| <= 6 * |es|
      && forall j :: 0 <= j < |rs| ==>
        (rs[j].contentType in ContentTypes
        && exists i :: 0 <= i < |es| && Describes(produce, rs[j], es[i].0, es[i].1))
    decreases |es|
  {
    if es != [] {
      var init := es[..|es| - 1];
      var (id, seg) := es[|es| - 1];
      BatchRecordsDescribe(produce, init);
      SegmentRecordsDescribe(produce, id, seg, ContentTypes);
      var pre := BatchRecords(produce, init);
      var rs := BatchRecords(produce, es);
      forall j | 0 <= j < |rs|
        ensures exists i :: 0 <= i < |es| && Describes(produce, rs[j], es[i].0, es[i].1)
      {
        if j < |pre| {
          var i :| 0 <= i < |init| && Describes(produce, pre[j], init[i].0, init[i].1);
          assert es[i] == init[i];
        } else {
          assert Describes(produce, rs[j], es[|es| - 1].0, es[|es| - 1].1);
        }
      }
    }
  }

  /** The batch has no records exactly when no segment produced content for
      any content type. */
  lemma {:induction false} BatchRecordsEmpty(produce: Producer, es: Entries)
    ensures BatchRecords(produce, es) == []
      <==> forall i, k :: 0 <= i < |es| && 0 <= k < 6 ==> produce(es[i].1, ContentTypes[k]).None?
    decreases |es|
  {
    if es != [] {
      var init := es[..|es| - 1];
      BatchRecordsEmpty(produce, init);
      SegmentRecordsEmpty(produce, es[|es| - 1].0, es[|es| - 1].1, ContentTypes);
      assert forall i :: 0 <= i < |init| ==> init[i] == es[i];
    }
  }

  /** The batch has six records per segment when every segment produced
      content for every content type. */
  lemma {:induction false} BatchRecordsComplete(produce: Producer, es: Entries)
    requires forall i, k :: 0 <= i < |es| && 0 <= k < 6 ==> produce(es[i].1, ContentTypes[k]).Some?
    ensures |BatchRecords(produce, es)| == 6 * |es|
    decreases |es|
  {
    if es != [] {
      var init := es[..|es| - 1];
      assert forall i :: 0 <= i < |init| ==> init[i] == es[i];
      BatchRecordsComplete(produce, init);
      var (id, seg) := es[|es| - 1];
      assert forall k :: 0 <= k < 6 ==> produce(seg, ContentTypes[k]).Some?;
      SegmentRecordsComplete(produce, id, seg, ContentTypes);
    }
  }

  /** The batch's records carry non-empty content. */
  lemma BatchContentNonEmpty(w: Wording, retrieve: Retriever, generate: Generator, es: Entries)
    ensures var rs := BatchRecords(SourceProducer(w, retrieve, generate), es);
      forall j :: 0 <= j < |rs| ==> rs[j].content != ""
  {
    var produce := SourceProducer(w, retrieve, generate);
    var rs := BatchRecords(produce, es);
    BatchRecordsDescribe(produce, es);
    forall j | 0 <= j < |rs| ensures rs[j].content != "" {
      var i :| 0 <= i < |es| && Describes(produce, rs[j], es[i].0, es[i].1);
      SourceProducerNonEmpty(w, retrieve, generate, es[i].1, rs[j].contentType);
    }
  }

  /** The records of one more content type. */
  lemma SegmentRecordsStep(produce: Producer, id: string, seg: Segment, j: nat)
    requires j < |ContentTypes|
    ensures RecordsForSegment(produce, id, seg, ContentTypes[..j + 1])
      == RecordsForSegment(produce, id, seg, ContentTypes[..j]) + RecordFor(produce, id, seg, ContentTypes[j])
  {
    assert ContentTypes[..j + 1][..j] == ContentTypes[..j];
  }

  /** The records of one more segment. */
  lemma BatchRecordsStep(produce: Producer, es: Entries, i: nat)
    requires i < |es|
    ensures BatchRecords(produce, es[..i + 1])
      == BatchRecords(produce, es[..i]) + RecordsForSegment(produce, es[i].0, es[i].1, ContentTypes[..6])
  {
    assert es[..i + 1][..i] == es[..i];
    assert ContentTypes[..6] == ContentTypes;
  }

  /** Every content type the statistics count is one of the six. */
  lemma BatchTypesKnown(produce: Producer, es: Entries)
    ensures var st := StatisticsOf(BatchRecords(produce, es));
      forall k :: 0 <= k < |st.byContentType| ==> st.byContentType[k].0 in ContentTypes
  {
    var rs := BatchRecords(produce, es);
    BatchRecordsDescribe(produce, es);
    TallyKeysWithin(Types(rs), ContentTypes);
  }

  /** A tally's keys are among the tallied keys. */
  lemma TallyKeysWithin(keys: seq<string>, allowed: seq<string>)
    requires forall i :: 0 <= i < |keys| ==> keys[i] in allowed
    ensures forall k :: 0 <= k < |Tally(keys)| ==> Tally(keys)[k].0 in allowed
  {
    TallySpec(keys);
    var c := Tally(keys);
    forall k | 0 <= k < |c| ensures c[k].0 in allowed {
      assert KeysOf(c)[k] in Dedup(keys);
    }
  }

  /** The result of the batch: the export path and the log lines are left out. */
  datatype BatchResult = Success(totalContent: nat, statistics: Statistics) | Failure(error: string)

  /** The inner loop of `generate_content_for_all_expanded_segments`: the
      six content types for one stored segment. */
  method GenerateSegmentRecords(db: SegmentDatabase, w: Wording, i: nat, retrieve: Retriever, generate: Generator)
    returns (pieces: seq<ContentRecord>)
    requires db.Valid() && i < |db.segments|
    ensures pieces == RecordsForSegment(SourceProducer(w, retrieve, generate), db.segments[i].0, db.segments[i].1, ContentTypes)
  {
    ghost var produce := SourceProducer(w, retrieve, generate);
    var (id, seg) := db.segments[i];
    pieces := [];
    for j := 0 to |ContentTypes|
      invariant pieces == RecordsForSegment(produce, id, seg, ContentTypes[..j])
    {
      var contentType := ContentTypes[j];
      var content := GenerateContentForSegment(db, w, id, contentType, None, retrieve, generate);
      assert db.segments[i].0 == id;
      SegmentRecordsStep(produce, id, seg, j);
      if content.Some? {
        var metadata := db.GetSegmentMetadata(id);
        pieces := pieces + [ContentRecord(id, seg.name, seg.category, seg.phase, contentType,
          ContentPriority(seg, contentType), content.value, metadata.value)];
      }
    }
    assert ContentTypes[..6] == ContentTypes;
  }

  /** `generate_content_for_all_expanded_segments`: every stored segment,
      in dictionary order, for each of the six content types; the records of
      the pieces that came back, and the summary returned. */
  method GenerateForAll(db: SegmentDatabase, w: Wording, retrieve: Retriever, generate: Generator)
    returns (records: seq<ContentRecord>, result: BatchResult)
    requires db.Valid()
    ensures records == BatchRecords(SourceProducer(w, retrieve, generate), db.segments)
    ensures result == if records == [] then Failure("No se generó contenido")
      else Success(|records|, StatisticsOf(records))
  {
    ghost var produce := SourceProducer(w, retrieve, generate);
    records := [];
    for i := 0 to |db.segments|
      invariant records == BatchRecords(produce, db.segments[..i])
    {
      var pieces := GenerateSegmentRecords(db, w, i, retrieve, generate);
      BatchRecordsStep(produce, db.segments, i);
      assert ContentTypes[..6] == ContentTypes;
      records := records + pieces;
    }
    assert db.segments[..|db.segments|] == db.segments;
    if records != [] {
      var stats := GenerateStatistics(records);
      result := Success(|records|, stats);
    } else {
      result := Failure("No se generó contenido");
    }
  }
}
