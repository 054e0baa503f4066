/** The dictionary form of a segment written by `save_to_file` and read back by
    `load_from_file`, as JSON values. */
module SegmentJson {
  import opened Common
  import opened SegmentRecords

  /** A JSON value. Numbers are integers in the unit of the field they carry
      (tenths for the emotional range, hundredths for priorities); an object
      keeps its entries in order. */
  datatype Json =
    | JNull
    | JBool(b: bool)
    | JNum(n: int)
    | JStr(s: string)
    | JArr(items: seq<Json>)
    | JObj(entries: seq<(string, Json)>)

  /** Python truthiness of a decoded JSON value. */
  predicate Falsy(j: Json)
  {
    j == JNull || j == JBool(false) || j == JNum(0) || j == JStr("") || j == JArr([]) || j == JObj([])
  }

  // ------------------------------------------------------------------
  // Encoding
  // ------------------------------------------------------------------

  function StrArr(xs: seq<string>): Json
  {
    JArr(seq(|xs|, i requires 0 <= i < |xs| => JStr(xs[i])))
  }

  function NumArr(xs: seq<int>): Json
  {
    JArr(seq(|xs|, i requires 0 <= i < |xs| => JNum(xs[i])))
  }

  function OptStr(o: Option<string>): Json
  {
    if o.Some? then JStr(o.value) else JNull
  }

  function OptStrArr(o: Option<seq<string>>): Json
  {
    if o.Some? then StrArr(o.value) else JNull
  }

  function EncodeDemographics(d: Demographics): Json
  {
    JObj([
      ("age_groups", StrArr(d.ageGroups)),
      ("life_stages", StrArr(d.lifeStages)),
      ("common_triggers", StrArr(d.commonTriggers)),
      ("development_stage", OptStr(d.developmentStage)),
      ("common_concerns", OptStrArr(d.commonConcerns))])
  }

  function EncodeHormonalProfile(h: HormonalProfile): Json
  {
    JObj([
      ("estrogen_level", JStr(h.estrogenLevel)),
      ("progesterone_level", JStr(h.progesteroneLevel)),
      ("cortisol_level", OptStr(h.cortisolLevel)),
      ("development_stage", OptStr(h.developmentStage)),
      ("sensitivity_factors", OptStrArr(h.sensitivityFactors))])
  }

  function EncodeEmotional(e: EmotionalCharacteristics): Json
  {
    JObj([
      ("primary_emotions", StrArr(e.primaryEmotions)),
      ("secondary_emotions", StrArr(e.secondaryEmotions)),
      ("emotional_range", NumArr(e.emotionalRange)),
      ("volatility", JStr(e.volatility)),
      ("recovery_time", JStr(e.recoveryTime))])
  }

  /** A missing symptom record is written as three empty lists. */
  function EncodePhysical(p: Option<PhysicalSymptoms>): Json
  {
    JObj([
      ("common", StrArr(if p.Some? then p.value.common else [])),
      ("moderate", StrArr(if p.Some? then p.value.moderate else [])),
      ("severe", StrArr(if p.Some? then p.value.severe else []))])
  }

  function EncodePreferences(c: ContentPreferences): Json
  {
    JObj([
      ("tone", JStr(c.tone)),
      ("depth", JStr(c.depth)),
      ("urgency", JStr(c.urgency)),
      ("focus_areas", StrArr(c.focusAreas)),
      ("avoid_topics", StrArr(c.avoidTopics))])
  }

  function EncodeRecommended(r: RecommendedContentTypes): Json
  {
    JObj([
      ("lesson_3min", JNum(r.lesson3min)),
      ("whats_happening", JNum(r.whatsHappening)),
      ("nutrition_guide", JNum(r.nutritionGuide)),
      ("cycle_day_info", JNum(r.cycleDayInfo)),
      ("hormone_levels", JNum(r.hormoneLevels)),
      ("stress_levels", JNum(r.stressLevels))])
  }

  /** The dictionary `save_to_file` writes for one segment. */
  function EncodeSegment(s: Segment): Json
  {
    JObj(HeaderEntries(s) + [
      ("demographics", EncodeDemographics(s.demographics)),
      ("hormonal_profile", EncodeHormonalProfile(s.hormonalProfile)),
      ("emotional_characteristics", EncodeEmotional(s.emotionalCharacteristics)),
      ("physical_symptoms", EncodePhysical(s.physicalSymptoms)),
      ("content_preferences", EncodePreferences(s.contentPreferences)),
      ("recommended_content_types", EncodeRecommended(s.recommendedContentTypes)),
      ("intervention_priorities", OptStrArr(s.interventionPriorities)),
      ("related_segments", OptStrArr(s.relatedSegments))])
  }

  function HeaderEntries(s: Segment): seq<(string, Json)>
  {
    [
      ("id", JStr(s.id)),
      ("name", JStr(s.name)),
      ("category", JStr(s.category)),
      ("phase", JStr(s.phase)),
      ("emotional_primary", OptStr(s.emotionalPrimary)),
      ("emotional_secondary", OptStr(s.emotionalSecondary)),
      ("emotional_combination", OptStr(s.emotionalCombination)),
      ("intensity_level", OptStr(s.intensityLevel)),
      ("duration_pattern", OptStr(s.durationPattern)),
      ("age_range", OptStr(s.ageRange)),
      ("life_stage", OptStr(s.lifeStage)),
      ("symptom_count", OptStr(s.symptomCount))]
  }

  // ------------------------------------------------------------------
  // Decoding
  // ------------------------------------------------------------------

  /** `data[key]` / `data.get(key)` on an object: `None` when the key is absent. */
  function Field(j: Json, key: string): Option<Json>
  {
    if j.JObj? then Lookup(j.entries, key) else None
  }

  /** A required string field. */
  function AsStr(f: Option<Json>): Option<string>
  {
    if f.Some? && f.value.JStr? then Some(f.value.s) else None
  }

  /** A required number field. */
  function AsNum(f: Option<Json>): Option<int>
  {
    if f.Some? && f.value.JNum? then Some(f.value.n) else None
  }

  /** A required list-of-strings field. */
  function AsStrs(f: Option<Json>): Option<seq<string>>
  {
    if f.Some? && f.value.JArr? && forall i :: 0 <= i < |f.value.items| ==> f.value.items[i].JStr?
    then Some(seq(|f.value.items|, i requires 0 <= i < |f.value.items| => f.value.items[i].s))
    else None
  }

  /** A required list-of-numbers field. */
  function AsNums(f: Option<Json>): Option<seq<int>>
  {
    if f.Some? && f.value.JArr? && forall i :: 0 <= i < |f.value.items| ==> f.value.items[i].JNum?
    then Some(seq(|f.value.items|, i requires 0 <= i < |f.value.items| => f.value.items[i].n))
    else None
  }

  /** An optional string field: absent and `null` both give `None`; a value of
      another type is a decoding failure (the outer `None`). */
  function AsOptStr(f: Option<Json>): Option<Option<string>>
  {
    if f.None? || f.value.JNull? then Some(None)
    else if f.value.JStr? then Some(Some(f.value.s))
    else None
  }

  /** An optional list-of-strings field, read like `AsOptStr`. */
  function AsOptStrs(f: Option<Json>): Option<Option<seq<string>>>
  {
    if f.None? || f.value.JNull? then Some(None)
    else
      var xs := AsStrs(f);
      if xs.Some? then Some(Some(xs.value)) else None
  }

  /** A list-of-strings field read with a subscript, `data[key]`: an absent
      key is a failure, `null` gives `None`. */
  function AsNullableStrs(f: Option<Json>): Option<Option<seq<string>>>
  {
    if f.None? then None else AsOptStrs(f)
  }

  /** `Cls(**d)` accepts only keyword arguments that name a field of the
      dataclass: an object with any other key raises `TypeError`. */
  predicate KeysWithin(j: Json, fields: seq<string>)
  {
    j.JObj? && forall i :: 0 <= i < |j.entries| ==> j.entries[i].0 in fields
  }

  const DemographicsKeys: seq<string> := ["age_groups", "life_stages", "common_triggers", "development_stage", "common_concerns"]
  const HormonalKeys: seq<string> := ["estrogen_level", "progesterone_level", "cortisol_level", "development_stage", "sensitivity_factors"]
  const EmotionalKeys: seq<string> := ["primary_emotions", "secondary_emotions", "emotional_range", "volatility", "recovery_time"]
  const PhysicalKeys: seq<string> := ["common", "moderate", "severe"]
  const PreferencesKeys: seq<string> := ["tone", "depth", "urgency", "focus_areas", "avoid_topics"]
  const RecommendedKeys: seq<string> := ["lesson_3min", "whats_happening", "nutrition_guide", "cycle_day_info", "hormone_levels", "stress_levels"]

  /** `Demographics(**d)`; a missing or null `common_triggers` becomes `[]`. */
  function DecodeDemographics(j: Json): Option<Demographics>
  {
    var ageGroups := AsStrs(Field(j, "age_groups"));
    var lifeStages := AsStrs(Field(j, "life_stages"));
    var triggers := AsOptStrs(Field(j, "common_triggers"));
    var stage := AsOptStr(Field(j, "development_stage"));
    var concerns := AsOptStrs(Field(j, "common_concerns"));
    if KeysWithin(j, DemographicsKeys) && ageGroups.Some? && lifeStages.Some? && triggers.Some? && stage.Some? && concerns.Some? then
      Some(Demographics(ageGroups.value, lifeStages.value,
        if triggers.value.Some? then triggers.value.value else [], stage.value, concerns.value))
    else None
  }

  function DecodeHormonalProfile(j: Json): Option<HormonalProfile>
  {
    var estrogen := AsStr(Field(j, "estrogen_level"));
    var progesterone := AsStr(Field(j, "progesterone_level"));
    var cortisol := AsOptStr(Field(j, "cortisol_level"));
    var stage := AsOptStr(Field(j, "development_stage"));
    var factors := AsOptStrs(Field(j, "sensitivity_factors"));
    if KeysWithin(j, HormonalKeys) && estrogen.Some? && progesterone.Some? && cortisol.Some? && stage.Some? && factors.Some? then
      Some(HormonalProfile(estrogen.value, progesterone.value, cortisol.value, stage.value, factors.value))
    else None
  }

  function DecodeEmotional(j: Json): Option<EmotionalCharacteristics>
  {
    var primary := AsStrs(Field(j, "primary_emotions"));
    var secondary := AsStrs(Field(j, "secondary_emotions"));
    var range := AsNums(Field(j, "emotional_range"));
    var volatility := AsStr(Field(j, "volatility"));
    var recovery := AsStr(Field(j, "recovery_time"));
    if KeysWithin(j, EmotionalKeys) && primary.Some? && secondary.Some? && range.Some? && volatility.Some? && recovery.Some? then
      Some(EmotionalCharacteristics(primary.value, secondary.value, range.value, volatility.value, recovery.value))
    else None
  }

  /** The symptom record is rebuilt only when `common` is truthy; otherwise
      the segment gets no symptom record at all. */
  function DecodePhysical(j: Json): Option<Option<PhysicalSymptoms>>
  {
    var common := Field(j, "common");
    if common.None? then None
    else if Falsy(common.value) then Some(None)
    else
      var c := AsStrs(common);
      var m := AsStrs(Field(j, "moderate"));
      var s := AsStrs(Field(j, "severe"));
      if KeysWithin(j, PhysicalKeys) && c.Some? && m.Some? && s.Some? then Some(Some(PhysicalSymptoms(c.value, m.value, s.value))) else None
  }

  function DecodePreferences(j: Json): Option<ContentPreferences>
  {
    var tone := AsStr(Field(j, "tone"));
    var depth := AsStr(Field(j, "depth"));
    var urgency := AsStr(Field(j, "urgency"));
    var focus := AsStrs(Field(j, "focus_areas"));
    var avoid := AsStrs(Field(j, "avoid_topics"));
    if KeysWithin(j, PreferencesKeys) && tone.Some? && depth.Some? && urgency.Some? && focus.Some? && avoid.Some? then
      Some(ContentPreferences(tone.value, depth.value, urgency.value, focus.value, avoid.value))
    else None
  }

  function DecodeRecommended(j: Json): Option<RecommendedContentTypes>
  {
    var a := AsNum(Field(j, "lesson_3min"));
    var b := AsNum(Field(j, "whats_happening"));
    var c := AsNum(Field(j, "nutrition_guide"));
    var d := AsNum(Field(j, "cycle_day_info"));
    var e := AsNum(Field(j, "hormone_levels"));
    var f := AsNum(Field(j, "stress_levels"));
    if KeysWithin(j, RecommendedKeys) && a.Some? && b.Some? && c.Some? && d.Some? && e.Some? && f.Some? then
      Some(RecommendedContentTypes(a.value, b.value, c.value, d.value, e.value, f.value))
    else None
  }

  /** A nested record with a key its dataclass lacks is not loaded: the
      keyword-argument call raises. The symptom record is checked only when
      it is rebuilt, that is when `common` is truthy. */
  lemma UnknownKeysRejected(j: Json)
    ensures !KeysWithin(j, DemographicsKeys) ==> DecodeDemographics(j).None?
    ensures !KeysWithin(j, HormonalKeys) ==> DecodeHormonalProfile(j).None?
    ensures !KeysWithin(j, EmotionalKeys) ==> DecodeEmotional(j).None?
    ensures (DecodePhysical(j).Some? && DecodePhysical(j).value.Some?) ==> KeysWithin(j, PhysicalKeys)
    ensures !KeysWithin(j, PreferencesKeys) ==> DecodePreferences(j).None?
    ensures !KeysWithin(j, RecommendedKeys) ==> DecodeRecommended(j).None?
  {
  }

  /** For instance, a demographics object with the two required lists and an
      extra key `x` is refused, while the same object without `x` loads with
      the defaults for the three optional fields. */
  lemma ExtraDemographicsKey()
    ensures DecodeDemographics(JObj([("age_groups", JArr([])), ("life_stages", JArr([])), ("x", JNum(1))])).None?
    ensures DecodeDemographics(JObj([("age_groups", JArr([])), ("life_stages", JArr([]))]))
      == Some(Demographics([], [], [], None, None))
  {
    var bad := JObj([("age_groups", JArr([])), ("life_stages", JArr([])), ("x", JNum(1))]);
    assert bad.entries[2].0 !in DemographicsKeys;
    var good := JObj([("age_groups", JArr([])), ("life_stages", JArr([]))]);
    assert KeysWithin(good, DemographicsKeys) by {
      assert good.entries[0].0 == DemographicsKeys[0];
      assert good.entries[1].0 == DemographicsKeys[1];
    }
    assert Field(good, "age_groups") == Some(JArr([]));
    assert Field(good, "life_stages") == Some(JArr([]));
    var empty := AsStrs(Some(JArr([])));
    assert empty.Some? && |empty.value| == 0;
    assert empty == Some([]);
  }

  /** A required sub-record: `data[key]` must exist and decode. */
  function Sub<T>(j: Json, key: string, decode: Json -> Option<T>): Option<T>
  {
    var f := Field(j, key);
    if f.Some? then decode(f.value) else None
  }

  /** `data["id"]`, `data["name"]`, `data["category"]`, `data["phase"]`. */
  function DecodeIdentity(j: Json): Option<(string, string, string, string)>
  {
    var id := AsStr(Field(j, "id"));
    var name := AsStr(Field(j, "name"));
    var category := AsStr(Field(j, "category"));
    var phase := AsStr(Field(j, "phase"));
    if id.Some? && name.Some? && category.Some? && phase.Some? then
      Some((id.value, name.value, category.value, phase.value))
    else None
  }

  /** The four optional emotion labels, read with `data.get`. */
  function DecodeLabels(j: Json): Option<(Option<string>, Option<string>, Option<string>, Option<string>)>
  {
    var primary := AsOptStr(Field(j, "emotional_primary"));
    var secondary := AsOptStr(Field(j, "emotional_secondary"));
    var combination := AsOptStr(Field(j, "emotional_combination"));
    var intensity := AsOptStr(Field(j, "intensity_level"));
    if primary.Some? && secondary.Some? && combination.Some? && intensity.Some? then
      Some((primary.value, secondary.value, combination.value, intensity.value))
    else None
  }

  /** The four optional context labels, read with `data.get`. */
  function DecodeContext(j: Json): Option<(Option<string>, Option<string>, Option<string>, Option<string>)>
  {
    var duration := AsOptStr(Field(j, "duration_pattern"));
    var ageRange := AsOptStr(Field(j, "age_range"));
    var lifeStage := AsOptStr(Field(j, "life_stage"));
    var symptomCount := AsOptStr(Field(j, "symptom_count"));
    if duration.Some? && ageRange.Some? && lifeStage.Some? && symptomCount.Some? then
      Some((duration.value, ageRange.value, lifeStage.value, symptomCount.value))
    else None
  }

  /** The four profile sub-records, rebuilt from their dictionaries. */
  function DecodeProfiles(j: Json): Option<(Demographics, HormonalProfile, EmotionalCharacteristics, Option<PhysicalSymptoms>)>
  {
    var demographics := Sub(j, "demographics", DecodeDemographics);
    var hormonal := Sub(j, "hormonal_profile", DecodeHormonalProfile);
    var emotional := Sub(j, "emotional_characteristics", DecodeEmotional);
    var physical := Sub(j, "physical_symptoms", DecodePhysical);
    if demographics.Some? && hormonal.Some? && emotional.Some? && physical.Some? then
      Some((demographics.value, hormonal.value, emotional.value, physical.value))
    else None
  }

  /** Content preferences, recommended types, interventions and related ids. */
  function DecodeGuidance(j: Json): Option<(ContentPreferences, RecommendedContentTypes, Option<seq<string>>, Option<seq<string>>)>
  {
    var preferences := Sub(j, "content_preferences", DecodePreferences);
    var recommended := Sub(j, "recommended_content_types", DecodeRecommended);
    var interventions := AsNullableStrs(Field(j, "intervention_priorities"));
    var related := AsNullableStrs(Field(j, "related_segments"));
    if preferences.Some? && recommended.Some? && interventions.Some? && related.Some? then
      Some((preferences.value, recommended.value, interventions.value, related.value))
    else None
  }

  /** The segment `load_from_file` rebuilds from one dictionary; `None` where
      the source would raise: a missing required key, or a nested record with
      a key its dataclass does not have. The model's fields are typed, so a
      value of another JSON type is also `None` here (see the README). */
  function DecodeSegment(j: Json): Option<Segment>
  {
    var identity := DecodeIdentity(j);
    var labels := DecodeLabels(j);
    var context := DecodeContext(j);
    var profiles := DecodeProfiles(j);
    var guidance := DecodeGuidance(j);
    if identity.Some? && labels.Some? && context.Some? && profiles.Some? && guidance.Some? then
      var (id, name, category, phase) := identity.value;
      var (primary, secondary, combination, intensity) := labels.value;
      var (duration, ageRange, lifeStage, symptomCount) := context.value;
      var (demographics, hormonal, emotional, physical) := profiles.value;
      var (preferences, recommended, interventions, related) := guidance.value;
      Some(Segment(id, name, category, phase,
        primary, secondary, combination, intensity,
        duration, ageRange, lifeStage, symptomCount,
        demographics, hormonal, emotional, physical,
        preferences, recommended, interventions, related))
    else None
  }

  /** `data["intervention_priorities"]` and `data["related_segments"]` raise
      `KeyError` for an absent key, so such an item is not loaded, while a
      `null` value is accepted. */
  lemma MissingGuidanceKeyRejected(j: Json)
    ensures Field(j, "intervention_priorities").None? ==> DecodeSegment(j).None?
    ensures Field(j, "related_segments").None? ==> DecodeSegment(j).None?
    ensures Field(j, "related_segments") == Some(JNull) ==> AsNullableStrs(Field(j, "related_segments")) == Some(None)
  {
  }

  // ------------------------------------------------------------------
  // Round trip
  // ------------------------------------------------------------------

  /** What a segment looks like after a save and a load: a symptom record
      whose `common` list is empty is dropped. */
  function Normalize(s: Segment): Segment
  {
    if s.physicalSymptoms.Some? && s.physicalSymptoms.value.common != [] then s
    else s.(physicalSymptoms := None)
  }

  lemma StrArrRoundTrip(xs: seq<string>)
    ensures AsStrs(Some(StrArr(xs))) == Some(xs)
    ensures AsOptStrs(Some(StrArr(xs))) == Some(Some(xs))
  {
    var items := StrArr(xs).items;
    assert seq(|items|, i requires 0 <= i < |items| => items[i].s) == xs;
  }

  lemma NumArrRoundTrip(xs: seq<int>)
    ensures AsNums(Some(NumArr(xs))) == Some(xs)
  {
    var items := NumArr(xs).items;
    assert seq(|items|, i requires 0 <= i < |items| => items[i].n) == xs;
  }

  lemma OptRoundTrip(o: Option<string>, p: Option<seq<string>>)
    ensures AsOptStr(Some(OptStr(o))) == Some(o)
    ensures AsOptStrs(Some(OptStrArr(p))) == Some(p)
  {
    if p.Some? {
      StrArrRoundTrip(p.value);
    }
  }

  lemma DemographicsFields(j: Json, d: Demographics)
    requires j.JObj? && NoDuplicates(KeysOf(j.entries)) && |j.entries| == 5
    requires j.entries[0] == ("age_groups", StrArr(d.ageGroups))
    requires j.entries[1] == ("life_stages", StrArr(d.lifeStages))
    requires j.entries[2] == ("common_triggers", StrArr(d.commonTriggers))
    requires j.entries[3] == ("development_stage", OptStr(d.developmentStage))
    requires j.entries[4] == ("common_concerns", OptStrArr(d.commonConcerns))
    ensures DecodeDemographics(j) == Some(d)
  {
    assert Field(j, "age_groups") == Some(StrArr(d.ageGroups)) by { LookupAt(j.entries, 0); }
    assert Field(j, "life_stages") == Some(StrArr(d.lifeStages)) by { LookupAt(j.entries, 1); }
    assert Field(j, "common_triggers") == Some(StrArr(d.commonTriggers)) by { LookupAt(j.entries, 2); }
    assert Field(j, "development_stage") == Some(OptStr(d.developmentStage)) by { LookupAt(j.entries, 3); }
    assert Field(j, "common_concerns") == Some(OptStrArr(d.commonConcerns)) by { LookupAt(j.entries, 4); }
    StrArrRoundTrip(d.ageGroups);
    StrArrRoundTrip(d.lifeStages);
    StrArrRoundTrip(d.commonTriggers);
    OptRoundTrip(d.developmentStage, d.commonConcerns);
  }

  lemma DemographicsRoundTrip(d: Demographics)
    ensures DecodeDemographics(EncodeDemographics(d)) == Some(d)
  {
    DemographicsFields(EncodeDemographics(d), d);
  }

  lemma HormonalFields(j: Json, h: HormonalProfile)
    requires j.JObj? && NoDuplicates(KeysOf(j.entries)) && |j.entries| == 5
    requires j.entries[0] == ("estrogen_level", JStr(h.estrogenLevel))
    requires j.entries[1] == ("progesterone_level", JStr(h.progesteroneLevel))
    requires j.entries[2] == ("cortisol_level", OptStr(h.cortisolLevel))
    requires j.entries[3] == ("development_stage", OptStr(h.developmentStage))
    requires j.entries[4] == ("sensitivity_factors", OptStrArr(h.sensitivityFactors))
    ensures DecodeHormonalProfile(j) == Some(h)
  {
    assert Field(j, "estrogen_level") == Some(JStr(h.estrogenLevel)) by { LookupAt(j.entries, 0); }
    assert Field(j, "progesterone_level") == Some(JStr(h.progesteroneLevel)) by { LookupAt(j.entries, 1); }
    assert Field(j, "cortisol_level") == Some(OptStr(h.cortisolLevel)) by { LookupAt(j.entries, 2); }
    assert Field(j, "development_stage") == Some(OptStr(h.developmentStage)) by { LookupAt(j.entries, 3); }
    assert Field(j, "sensitivity_factors") == Some(OptStrArr(h.sensitivityFactors)) by { LookupAt(j.entries, 4); }
    OptRoundTrip(h.cortisolLevel, h.sensitivityFactors);
    OptRoundTrip(h.developmentStage, h.sensitivityFactors);
  }

  lemma HormonalRoundTrip(h: HormonalProfile)
    ensures DecodeHormonalProfile(EncodeHormonalProfile(h)) == Some(h)
  {
    HormonalFields(EncodeHormonalProfile(h), h);
  }

  lemma EmotionalFields(j: Json, e: EmotionalCharacteristics)
    requires j.JObj? && NoDuplicates(KeysOf(j.entries)) && |j.entries| == 5
    requires j.entries[0] == ("primary_emotions", StrArr(e.primaryEmotions))
    requires j.entries[1] == ("secondary_emotions", StrArr(e.secondaryEmotions))
    requires j.entries[2] == ("emotional_range", NumArr(e.emotionalRange))
    requires j.entries[3] == ("volatility", JStr(e.volatility))
    requires j.entries[4] == ("recovery_time", JStr(e.recoveryTime))
    ensures DecodeEmotional(j) == Some(e)
  {
    assert Field(j, "primary_emotions") == Some(StrArr(e.primaryEmotions)) by { LookupAt(j.entries, 0); }
    assert Field(j, "secondary_emotions") == Some(StrArr(e.secondaryEmotions)) by { LookupAt(j.entries, 1); }
    assert Field(j, "emotional_range") == Some(NumArr(e.emotionalRange)) by { LookupAt(j.entries, 2); }
    assert Field(j, "volatility") == Some(JStr(e.volatility)) by { LookupAt(j.entries, 3); }
    assert Field(j, "recovery_time") == Some(JStr(e.recoveryTime)) by { LookupAt(j.entries, 4); }
    StrArrRoundTrip(e.primaryEmotions);
    StrArrRoundTrip(e.secondaryEmotions);
    NumArrRoundTrip(e.emotionalRange);
  }

  lemma EmotionalRoundTrip(e: EmotionalCharacteristics)
    ensures DecodeEmotional(EncodeEmotional(e)) == Some(e)
  {
    EmotionalFields(EncodeEmotional(e), e);
  }

  /** The three fields of an object with three distinct keys. */
  lemma ThreeFields(j: Json)
    requires j.JObj? && NoDuplicates(KeysOf(j.entries)) && |j.entries| == 3
    ensures Field(j, j.entries[0].0) == Some(j.entries[0].1)
    ensures Field(j, j.entries[1].0) == Some(j.entries[1].1)
    ensures Field(j, j.entries[2].0) == Some(j.entries[2].1)
  {
    LookupAt(j.entries, 0);
    LookupAt(j.entries, 1);
    LookupAt(j.entries, 2);
  }

  lemma PhysicalFields(j: Json, p: Option<PhysicalSymptoms>)
    requires j.JObj? && NoDuplicates(KeysOf(j.entries)) && |j.entries| == 3
    requires j.entries[0] == ("common", StrArr(if p.Some? then p.value.common else []))
    requires j.entries[1] == ("moderate", StrArr(if p.Some? then p.value.moderate else []))
    requires j.entries[2] == ("severe", StrArr(if p.Some? then p.value.severe else []))
    ensures DecodePhysical(j) ==
      if p.Some? && p.value.common != [] then Some(p) else Some(None)
  {
    ThreeFields(j);
    if p.Some? {
      StrArrRoundTrip(p.value.common);
      StrArrRoundTrip(p.value.moderate);
      StrArrRoundTrip(p.value.severe);
      if p.value.common != [] {
        assert StrArr(p.value.common) != JArr([]);
      }
    }
  }

  lemma PhysicalRoundTrip(p: Option<PhysicalSymptoms>)
    ensures DecodePhysical(EncodePhysical(p)) ==
      if p.Some? && p.value.common != [] then Some(p) else Some(None)
  {
    PhysicalFields(EncodePhysical(p), p);
  }

  lemma PreferencesFields(j: Json, c: ContentPreferences)
    requires j.JObj? && NoDuplicates(KeysOf(j.entries)) && |j.entries| == 5
    requires j.entries[0] == ("tone", JStr(c.tone))
    requires j.entries[1] == ("depth", JStr(c.depth))
    requires j.entries[2] == ("urgency", JStr(c.urgency))
    requires j.entries[3] == ("focus_areas", StrArr(c.focusAreas))
    requires j.entries[4] == ("avoid_topics", StrArr(c.avoidTopics))
    ensures DecodePreferences(j) == Some(c)
  {
    assert Field(j, "tone") == Some(JStr(c.tone)) by { LookupAt(j.entries, 0); }
    assert Field(j, "depth") == Some(JStr(c.depth)) by { LookupAt(j.entries, 1); }
    assert Field(j, "urgency") == Some(JStr(c.urgency)) by { LookupAt(j.entries, 2); }
    assert Field(j, "focus_areas") == Some(StrArr(c.focusAreas)) by { LookupAt(j.entries, 3); }
    assert Field(j, "avoid_topics") == Some(StrArr(c.avoidTopics)) by { LookupAt(j.entries, 4); }
    StrArrRoundTrip(c.focusAreas);
    StrArrRoundTrip(c.avoidTopics);
  }

  lemma PreferencesRoundTrip(c: ContentPreferences)
    ensures DecodePreferences(EncodePreferences(c)) == Some(c)
  {
    PreferencesFields(EncodePreferences(c), c);
  }

  lemma RecommendedFields(j: Json, r: RecommendedContentTypes)
    requires j.JObj? && NoDuplicates(KeysOf(j.entries)) && |j.entries| == 6
    requires j.entries[0] == ("lesson_3min", JNum(r.lesson3min))
    requires j.entries[1] == ("whats_happening", JNum(r.whatsHappening))
    requires j.entries[2] == ("nutrition_guide", JNum(r.nutritionGuide))
    requires j.entries[3] == ("cycle_day_info", JNum(r.cycleDayInfo))
    requires j.entries[4] == ("hormone_levels", JNum(r.hormoneLevels))
    requires j.entries[5] == ("stress_levels", JNum(r.stressLevels))
    ensures DecodeRecommended(j) == Some(r)
  {
    assert Field(j, "lesson_3min") == Some(JNum(r.lesson3min)) by { LookupAt(j.entries, 0); }
    assert Field(j, "whats_happening") == Some(JNum(r.whatsHappening)) by { LookupAt(j.entries, 1); }
    assert Field(j, "nutrition_guide") == Some(JNum(r.nutritionGuide)) by { LookupAt(j.entries, 2); }
    assert Field(j, "cycle_day_info") == Some(JNum(r.cycleDayInfo)) by { LookupAt(j.entries, 3); }
    assert Field(j, "hormone_levels") == Some(JNum(r.hormoneLevels)) by { LookupAt(j.entries, 4); }
    assert Field(j, "stress_levels") == Some(JNum(r.stressLevels)) by { LookupAt(j.entries, 5); }
  }

  lemma RecommendedRoundTrip(r: RecommendedContentTypes)
    ensures DecodeRecommended(EncodeRecommended(r)) == Some(r)
  {
    RecommendedFields(EncodeRecommended(r), r);
  }

  /** The keys `save_to_file` writes for a segment, in order: twelve header
      keys, then eight keys for the nested records and lists. */
  const HeaderKeys: seq<string> := ["id", "name", "category", "phase", "emotional_primary", "emotional_secondary",
    "emotional_combination", "intensity_level", "duration_pattern", "age_range", "life_stage", "symptom_count"]
  const BodyKeys: seq<string> := ["demographics", "hormonal_profile", "emotional_characteristics", "physical_symptoms",
    "content_preferences", "recommended_content_types", "intervention_priorities", "related_segments"]
  const SegmentKeys: seq<string> := HeaderKeys + BodyKeys

  lemma HeaderKeysDistinct()
    ensures NoDuplicates(HeaderKeys)
  {
  }

  lemma BodyKeysDistinct()
    ensures NoDuplicates(BodyKeys)
  {
  }

  lemma HeaderBodyDisjoint()
    ensures forall i, j :: 0 <= i < |HeaderKeys| && 0 <= j < |BodyKeys| ==> HeaderKeys[i] != BodyKeys[j]
  {
  }

  /** A saved segment is an object with the twenty keys, each once. */
  lemma SegmentKeysShape(s: Segment)
    ensures KeysOf(EncodeSegment(s).entries) == SegmentKeys
    ensures NoDuplicates(SegmentKeys)
  {
    HeaderKeysDistinct();
    BodyKeysDistinct();
    HeaderBodyDisjoint();
    NoDuplicatesAppend(HeaderKeys, BodyKeys);
    assert KeysOf(HeaderEntries(s)) == HeaderKeys;
  }

  /** Reading the identity fields of any object with distinct keys that holds them. */
  lemma IdentityFields(j: Json, s: Segment)
    requires j.JObj? && NoDuplicates(KeysOf(j.entries)) && |j.entries| == |SegmentKeys|
    requires j.entries[0] == ("id", JStr(s.id)) && j.entries[1] == ("name", JStr(s.name)) && j.entries[2] == ("category", JStr(s.category)) && j.entries[3] == ("phase", JStr(s.phase))
    ensures DecodeIdentity(j) == Some((s.id, s.name, s.category, s.phase))
  {
    assert Field(j, "id") == Some(JStr(s.id)) by { LookupAt(j.entries, 0); }
    assert Field(j, "name") == Some(JStr(s.name)) by { LookupAt(j.entries, 1); }
    assert Field(j, "category") == Some(JStr(s.category)) by { LookupAt(j.entries, 2); }
    assert Field(j, "phase") == Some(JStr(s.phase)) by { LookupAt(j.entries, 3); }
  }

  lemma IdentityRoundTrip(s: Segment)
    ensures DecodeIdentity(EncodeSegment(s)) == Some((s.id, s.name, s.category, s.phase))
  {
    SegmentKeysShape(s);
    IdentityFields(EncodeSegment(s), s);
  }

  /** Reading the labels fields of any object with distinct keys that holds them. */
  lemma LabelsFields(j: Json, s: Segment)
    requires j.JObj? && NoDuplicates(KeysOf(j.entries)) && |j.entries| == |SegmentKeys|
    requires j.entries[4] == ("emotional_primary", OptStr(s.emotionalPrimary)) && j.entries[5] == ("emotional_secondary", OptStr(s.emotionalSecondary)) && j.entries[6] == ("emotional_combination", OptStr(s.emotionalCombination)) && j.entries[7] == ("intensity_level", OptStr(s.intensityLevel))
    ensures DecodeLabels(j) == Some((s.emotionalPrimary, s.emotionalSecondary, s.emotionalCombination, s.intensityLevel))
  {
    assert Field(j, "emotional_primary") == Some(OptStr(s.emotionalPrimary)) by { LookupAt(j.entries, 4); }
    assert Field(j, "emotional_secondary") == Some(OptStr(s.emotionalSecondary)) by { LookupAt(j.entries, 5); }
    assert Field(j, "emotional_combination") == Some(OptStr(s.emotionalCombination)) by { LookupAt(j.entries, 6); }
    assert Field(j, "intensity_level") == Some(OptStr(s.intensityLevel)) by { LookupAt(j.entries, 7); }
    OptRoundTrip(s.emotionalPrimary, None);
    OptRoundTrip(s.emotionalSecondary, None);
    OptRoundTrip(s.emotionalCombination, None);
    OptRoundTrip(s.intensityLevel, None);
  }

  lemma LabelsRoundTrip(s: Segment)
    ensures DecodeLabels(EncodeSegment(s)) == Some((s.emotionalPrimary, s.emotionalSecondary, s.emotionalCombination, s.intensityLevel))
  {
    SegmentKeysShape(s);
    LabelsFields(EncodeSegment(s), s);
  }

  /** Reading the context fields of any object with distinct keys that holds them. */
  lemma ContextFields(j: Json, s: Segment)
    requires j.JObj? && NoDuplicates(KeysOf(j.entries)) && |j.entries| == |SegmentKeys|
    requires j.entries[8] == ("duration_pattern", OptStr(s.durationPattern)) && j.entries[9] == ("age_range", OptStr(s.ageRange)) && j.entries[10] == ("life_stage", OptStr(s.lifeStage)) && j.entries[11] == ("symptom_count", OptStr(s.symptomCount))
    ensures DecodeContext(j) == Some((s.durationPattern, s.ageRange, s.lifeStage, s.symptomCount))
  {
    assert Field(j, "duration_pattern") == Some(OptStr(s.durationPattern)) by { LookupAt(j.entries, 8); }
    assert Field(j, "age_range") == Some(OptStr(s.ageRange)) by { LookupAt(j.entries, 9); }
    assert Field(j, "life_stage") == Some(OptStr(s.lifeStage)) by { LookupAt(j.entries, 10); }
    assert Field(j, "symptom_count") == Some(OptStr(s.symptomCount)) by { LookupAt(j.entries, 11); }
    OptRoundTrip(s.durationPattern, None);
    OptRoundTrip(s.ageRange, None);
    OptRoundTrip(s.lifeStage, None);
    OptRoundTrip(s.symptomCount, None);
  }

  lemma ContextRoundTrip(s: Segment)
    ensures DecodeContext(EncodeSegment(s)) == Some((s.durationPattern, s.ageRange, s.lifeStage, s.symptomCount))
  {
    SegmentKeysShape(s);
    ContextFields(EncodeSegment(s), s);
  }

  /** Reading the profiles fields of any object with distinct keys that holds them. */
  lemma ProfilesFields(j: Json, s: Segment)
    requires j.JObj? && NoDuplicates(KeysOf(j.entries)) && |j.entries| == |SegmentKeys|
    requires j.entries[12] == ("demographics", EncodeDemographics(s.demographics)) && j.entries[13] == ("hormonal_profile", EncodeHormonalProfile(s.hormonalProfile)) && j.entries[14] == ("emotional_characteristics", EncodeEmotional(s.emotionalCharacteristics)) && j.entries[15] == ("physical_symptoms", EncodePhysical(s.physicalSymptoms))
    ensures DecodeProfiles(j) == Some((s.demographics, s.hormonalProfile, s.emotionalCharacteristics, Normalize(s).physicalSymptoms))
  {
    assert Sub(j, "demographics", DecodeDemographics) == Some(s.demographics) by {
      LookupAt(j.entries, 12);
      DemographicsRoundTrip(s.demographics);
    }
    assert Sub(j, "hormonal_profile", DecodeHormonalProfile) == Some(s.hormonalProfile) by {
      LookupAt(j.entries, 13);
      HormonalRoundTrip(s.hormonalProfile);
    }
    assert Sub(j, "emotional_characteristics", DecodeEmotional) == Some(s.emotionalCharacteristics) by {
      LookupAt(j.entries, 14);
      EmotionalRoundTrip(s.emotionalCharacteristics);
    }
    assert Sub(j, "physical_symptoms", DecodePhysical) == Some(Normalize(s).physicalSymptoms) by {
      LookupAt(j.entries, 15);
      PhysicalRoundTrip(s.physicalSymptoms);
    }
  }

  lemma ProfilesRoundTrip(s: Segment)
    ensures DecodeProfiles(EncodeSegment(s)) == Some((s.demographics, s.hormonalProfile, s.emotionalCharacteristics, Normalize(s).physicalSymptoms))
  {
    SegmentKeysShape(s);
    ProfilesFields(EncodeSegment(s), s);
  }

  /** Reading the guidance fields of any object with distinct keys that holds them. */
  lemma GuidanceFields(j: Json, s: Segment)
    requires j.JObj? && NoDuplicates(KeysOf(j.entries)) && |j.entries| == |SegmentKeys|
    requires j.entries[16] == ("content_preferences", EncodePreferences(s.contentPreferences)) && j.entries[17] == ("recommended_content_types", EncodeRecommended(s.recommendedContentTypes)) && j.entries[18] == ("intervention_priorities", OptStrArr(s.interventionPriorities)) && j.entries[19] == ("related_segments", OptStrArr(s.relatedSegments))
    ensures DecodeGuidance(j) == Some((s.contentPreferences, s.recommendedContentTypes, s.interventionPriorities, s.relatedSegments))
  {
    assert Field(j, "content_preferences") == Some(EncodePreferences(s.contentPreferences)) by { LookupAt(j.entries, 16); }
    assert Field(j, "recommended_content_types") == Some(EncodeRecommended(s.recommendedContentTypes)) by { LookupAt(j.entries, 17); }
    assert Field(j, "intervention_priorities") == Some(OptStrArr(s.interventionPriorities)) by { LookupAt(j.entries, 18); }
    assert Field(j, "related_segments") == Some(OptStrArr(s.relatedSegments)) by { LookupAt(j.entries, 19); }
    PreferencesRoundTrip(s.contentPreferences);
    RecommendedRoundTrip(s.recommendedContentTypes);
    OptRoundTrip(None, s.interventionPriorities);
    OptRoundTrip(None, s.relatedSegments);
  }

  lemma GuidanceRoundTrip(s: Segment)
    ensures DecodeGuidance(EncodeSegment(s)) == Some((s.contentPreferences, s.recommendedContentTypes, s.interventionPriorities, s.relatedSegments))
  {
    SegmentKeysShape(s);
    GuidanceFields(EncodeSegment(s), s);
  }

  /** Saving a segment and loading it back gives the segment again, except
      that a symptom record with an empty `common` list is dropped. */
  lemma SegmentRoundTrip(s: Segment)
    ensures DecodeSegment(EncodeSegment(s)) == Some(Normalize(s))
  {
    IdentityRoundTrip(s);
    LabelsRoundTrip(s);
    ContextRoundTrip(s);
    ProfilesRoundTrip(s);
    GuidanceRoundTrip(s);
  }
}
