/** The record types of the segment catalog and its closed emotion vocabulary. */
module SegmentRecords {
  import opened Common

  /** Who a segment addresses. `common_triggers` defaults to the empty list. */
  datatype Demographics = Demographics(
    ageGroups: seq<string>,
    lifeStages: seq<string>,
    commonTriggers: seq<string>,
    developmentStage: Option<string>,
    commonConcerns: Option<seq<string>>)

  datatype HormonalProfile = HormonalProfile(
    estrogenLevel: string,
    progesteroneLevel: string,
    cortisolLevel: Option<string>,
    developmentStage: Option<string>,
    sensitivityFactors: Option<seq<string>>)

  /** The emotional range is kept in tenths (-2.0 is -20). */
  datatype EmotionalCharacteristics = EmotionalCharacteristics(
    primaryEmotions: seq<string>,
    secondaryEmotions: seq<string>,
    emotionalRange: seq<int>,
    volatility: string,
    recoveryTime: string)

  datatype PhysicalSymptoms = PhysicalSymptoms(common: seq<string>, moderate: seq<string>, severe: seq<string>)

  datatype ContentPreferences = ContentPreferences(
    tone: string,
    depth: string,
    urgency: string,
    focusAreas: seq<string>,
    avoidTopics: seq<string>)

  /** Per-content-type priorities, in hundredths (0.95 is 95). */
  datatype RecommendedContentTypes = RecommendedContentTypes(
    lesson3min: int,
    whatsHappening: int,
    nutritionGuide: int,
    cycleDayInfo: int,
    hormoneLevels: int,
    stressLevels: int)

  /** An expanded segment; the optional descriptors are `None` when unset.
      The five profile sub-records other than the symptoms are always
      present: saving reads their attributes and loading rebuilds them with
      a keyword-argument call, so neither accepts a missing one. The two
      trailing lists may be `None`. */
  datatype Segment = Segment(
    id: string,
    name: string,
    category: string,
    phase: string,
    emotionalPrimary: Option<string>,
    emotionalSecondary: Option<string>,
    emotionalCombination: Option<string>,
    intensityLevel: Option<string>,
    durationPattern: Option<string>,
    ageRange: Option<string>,
    lifeStage: Option<string>,
    symptomCount: Option<string>,
    demographics: Demographics,
    hormonalProfile: HormonalProfile,
    emotionalCharacteristics: EmotionalCharacteristics,
    physicalSymptoms: Option<PhysicalSymptoms>,
    contentPreferences: ContentPreferences,
    recommendedContentTypes: RecommendedContentTypes,
    interventionPriorities: Option<seq<string>>,
    relatedSegments: Option<seq<string>>)

  /** `xs or []` for an optional list. */
  function OrEmpty<T>(o: Option<seq<T>>): (r: seq<T>)
    ensures o.Some? ==> r == o.value
    ensures o.None? ==> r == []
  {
    if o.Some? then o.value else []
  }

  /** Python truthiness of an optional string: `None` and `""` are false. */
  predicate Truthy(o: Option<string>)
  {
    o.Some? && o.value != ""
  }

  // ------------------------------------------------------------------
  // Emotion vocabulary (`emotion_mapping`)
  // ------------------------------------------------------------------

  /** Vocabulary group: stress and anxiety. */
  const StressAndAnxiety: seq<(string, string)> := [
    ("ansiosa", "FEEL001"),
    ("abrumada", "FEEL002"),
    ("nerviosa", "FEEL003"),
    ("impaciente", "FEEL004"),
    ("tensa", "FEEL005"),
    ("frustrada", "FEEL006"),
    ("preocupada", "FEEL007"),
    ("estresada", "FEEL008"),
    ("cansada_mentalmente", "FEEL009"),
    ("insegura", "FEEL010")
  ]

  /** Vocabulary group: low mood. */
  const LowMood: seq<(string, string)> := [
    ("triste", "FEEL011"),
    ("vacía", "FEEL012"),
    ("sensible", "FEEL013"),
    ("desmotivada", "FEEL014"),
    ("aislada", "FEEL015"),
    ("lloro_fácil", "FEEL016"),
    ("nostálgica", "FEEL017"),
    ("melancólica", "FEEL018"),
    ("incomprendida", "FEEL019"),
    ("desesperanzada", "FEEL020")
  ]

  /** Vocabulary group: body and energy. */
  const PhysicalAndEnergy: seq<(string, string)> := [
    ("cansada_físicamente", "FEEL021"),
    ("energética", "FEEL022"),
    ("letárgica", "FEEL023"),
    ("inflamada", "FEEL024"),
    ("dolorida", "FEEL025"),
    ("irritable_físicamente", "FEEL026"),
    ("con_hambre_excesiva", "FEEL027"),
    ("liviana", "FEEL028"),
    ("activa", "FEEL029"),
    ("aletargada", "FEEL030")
  ]

  /** Vocabulary group: self-esteem (FEEL033 is skipped). */
  const SelfEsteem: seq<(string, string)> := [
    ("poderosa", "FEEL031"),
    ("atractiva", "FEEL032"),
    ("desconectada", "FEEL034"),
    ("confiada", "FEEL035"),
    ("inadecuada", "FEEL036"),
    ("en_paz_conmigo", "FEEL037"),
    ("con_culpa", "FEEL038"),
    ("orgullosa_de_mí", "FEEL039"),
    ("frágil", "FEEL040")
  ]

  /** Vocabulary group: relationships. */
  const Relational: seq<(string, string)> := [
    ("amada", "FEEL041"),
    ("ignorada", "FEEL042"),
    ("conectada", "FEEL043"),
    ("en_conflicto", "FEEL044"),
    ("valorada", "FEEL045"),
    ("sola", "FEEL046"),
    ("cuidada", "FEEL047"),
    ("rechazada", "FEEL048"),
    ("agradecida", "FEEL049"),
    ("acompañada", "FEEL050")
  ]

  /** The whole vocabulary, emotion name to id, in declaration order. */
  const EmotionEntries: seq<(string, string)> := StressAndAnxiety + LowMood + PhysicalAndEnergy + SelfEsteem + Relational

  function EmotionNames(): seq<string>
  {
    KeysOf(EmotionEntries)
  }

  function EmotionIds(): seq<string>
  {
    ValuesOf(EmotionEntries)
  }

  /** `get_emotion_id`: the id of a vocabulary name, `None` for any other
      string. */
  function EmotionId(name: string): (r: Option<string>)
    ensures r.None? <==> name !in EmotionNames()
    ensures r.Some? ==> exists i :: 0 <= i < |EmotionEntries| && EmotionEntries[i] == (name, r.value)
  {
    Lookup(EmotionEntries, name)
  }

  /** `emotion in self.emotion_mapping`. */
  predicate IsMapped(emotion: string)
  {
    EmotionId(emotion).Some?
  }

  /** Neither names nor ids repeat within `e`. */
  predicate Distinct(e: seq<(string, string)>)
  {
    NoDuplicates(KeysOf(e)) && NoDuplicates(ValuesOf(e))
  }

  /** No name and no id of `a` occurs in `b`. */
  predicate Disjoint(a: seq<(string, string)>, b: seq<(string, string)>)
  {
    forall i, j :: 0 <= i < |a| && 0 <= j < |b| ==> a[i].0 != b[j].0 && a[i].1 != b[j].1
  }

  lemma DistinctStressAndAnxiety() ensures Distinct(StressAndAnxiety) { }
  lemma DistinctLowMood() ensures Distinct(LowMood) { }
  lemma DistinctPhysicalAndEnergy() ensures Distinct(PhysicalAndEnergy) { }
  lemma DistinctSelfEsteem() ensures Distinct(SelfEsteem) { }
  lemma DistinctRelational() ensures Distinct(Relational) { }

  lemma DisjointStressAndAnxietyLowMood() ensures Disjoint(StressAndAnxiety, LowMood) { }
  lemma DisjointStressAndAnxietyPhysicalAndEnergy() ensures Disjoint(StressAndAnxiety, PhysicalAndEnergy) { }
  lemma DisjointStressAndAnxietySelfEsteem() ensures Disjoint(StressAndAnxiety, SelfEsteem) { }
  lemma DisjointStressAndAnxietyRelational() ensures Disjoint(StressAndAnxiety, Relational) { }
  lemma DisjointLowMoodPhysicalAndEnergy() ensures Disjoint(LowMood, PhysicalAndEnergy) { }
  lemma DisjointLowMoodSelfEsteem() ensures Disjoint(LowMood, SelfEsteem) { }
  lemma DisjointLowMoodRelational() ensures Disjoint(LowMood, Relational) { }
  lemma DisjointPhysicalAndEnergySelfEsteem() ensures Disjoint(PhysicalAndEnergy, SelfEsteem) { }
  lemma DisjointPhysicalAndEnergyRelational() ensures Disjoint(PhysicalAndEnergy, Relational) { }
  lemma DisjointSelfEsteemRelational() ensures Disjoint(SelfEsteem, Relational) { }

  lemma DisjointConcat(a1: seq<(string, string)>, a2: seq<(string, string)>, b: seq<(string, string)>)
    requires Disjoint(a1, b) && Disjoint(a2, b)
    ensures Disjoint(a1 + a2, b)
  {
    forall i, j | 0 <= i < |a1 + a2| && 0 <= j < |b|
      ensures (a1 + a2)[i].0 != b[j].0 && (a1 + a2)[i].1 != b[j].1
    {
      if i >= |a1| {
        assert (a1 + a2)[i] == a2[i - |a1|];
      }
    }
  }

  lemma DistinctConcat(a: seq<(string, string)>, b: seq<(string, string)>)
    requires Distinct(a) && Distinct(b) && Disjoint(a, b)
    ensures Distinct(a + b)
  {
    assert KeysOf(a + b) == KeysOf(a) + KeysOf(b);
    assert ValuesOf(a + b) == ValuesOf(a) + ValuesOf(b);
    NoDuplicatesAppend(KeysOf(a), KeysOf(b));
    NoDuplicatesAppend(ValuesOf(a), ValuesOf(b));
  }

  /** The vocabulary has 49 entries with distinct names and distinct ids, and
      FEEL033 is not one of them. */
  lemma VocabularyShape()
    ensures |EmotionEntries| == 49
    ensures NoDuplicates(EmotionNames())
    ensures NoDuplicates(EmotionIds())
    ensures "FEEL033" !in EmotionIds()
  {
    DistinctStressAndAnxiety();
    DistinctLowMood();
    DistinctPhysicalAndEnergy();
    DistinctSelfEsteem();
    DistinctRelational();
    var a1 := StressAndAnxiety + LowMood;
    DisjointStressAndAnxietyLowMood();
    DistinctConcat(StressAndAnxiety, LowMood);
    var a2 := a1 + PhysicalAndEnergy;
    DisjointStressAndAnxietyPhysicalAndEnergy();
    DisjointLowMoodPhysicalAndEnergy();
    DisjointConcat(StressAndAnxiety, LowMood, PhysicalAndEnergy);
    DistinctConcat(a1, PhysicalAndEnergy);
    var a3 := a2 + SelfEsteem;
    DisjointStressAndAnxietySelfEsteem();
    DisjointLowMoodSelfEsteem();
    DisjointPhysicalAndEnergySelfEsteem();
    DisjointConcat(StressAndAnxiety, LowMood, SelfEsteem);
    DisjointConcat(a1, PhysicalAndEnergy, SelfEsteem);
    DistinctConcat(a2, SelfEsteem);
    DisjointStressAndAnxietyRelational();
    DisjointLowMoodRelational();
    DisjointPhysicalAndEnergyRelational();
    DisjointSelfEsteemRelational();
    DisjointConcat(StressAndAnxiety, LowMood, Relational);
    DisjointConcat(a1, PhysicalAndEnergy, Relational);
    DisjointConcat(a2, SelfEsteem, Relational);
    DistinctConcat(a3, Relational);
    FeelThirtyThreeUnused();
  }

  lemma FeelThirtyThreeUnused()
    ensures "FEEL033" !in ValuesOf(EmotionEntries)
  {
    FeelThirtyThreeNotIn(StressAndAnxiety);
    FeelThirtyThreeNotIn(LowMood);
    FeelThirtyThreeNotIn(PhysicalAndEnergy);
    FeelThirtyThreeNotIn(SelfEsteem);
    FeelThirtyThreeNotIn(Relational);
    var a := StressAndAnxiety + LowMood;
    ValueMissingAppend(StressAndAnxiety, LowMood, "FEEL033");
    ValueMissingAppend(a, PhysicalAndEnergy, "FEEL033");
    ValueMissingAppend(a + PhysicalAndEnergy, SelfEsteem, "FEEL033");
    ValueMissingAppend(a + PhysicalAndEnergy + SelfEsteem, Relational, "FEEL033");
  }

  lemma ValueMissingAppend(a: seq<(string, string)>, b: seq<(string, string)>, x: string)
    requires x !in ValuesOf(a) && x !in ValuesOf(b)
    ensures x !in ValuesOf(a + b)
  {
  }

  /** The groups of the mapping never use the code FEEL033. */
  lemma FeelThirtyThreeNotIn(group: seq<(string, string)>)
    requires group in [StressAndAnxiety, LowMood, PhysicalAndEnergy, SelfEsteem, Relational]
    ensures "FEEL033" !in ValuesOf(group)
  {
  }
}
