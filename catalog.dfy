/** The expanded segment catalog: the database object, its queries, the
    emotion-label validator, the keyword and metadata projections, and the
    dictionary conversions used to save and load it. */
module SegmentCatalog {
  import opened Common
  import opened SegmentRecords
  import opened SegmentJson

  /** The segment dictionary, as its items in insertion order. */
  type Entries = seq<(string, Segment)>

  /** A Python dictionary has each key once. */
  predicate IsDict<V>(es: seq<(string, V)>)
  {
    NoDuplicates(KeysOf(es))
  }

  /** `[seg for seg in xs if keep(seg)]`. */
  function Where(xs: seq<Segment>, keep: Segment -> bool): (r: seq<Segment>)
    ensures forall x :: multiset(r)[x] == if keep(x) then multiset(xs)[x] else 0
  {
    if xs == [] then []
    else
      var init := xs[..|xs| - 1];
      var last := xs[|xs| - 1];
      assert xs == init + [last];
      Where(init, keep) + (if keep(last) then [last] else [])
  }

  // ------------------------------------------------------------------
  // Label validation
  // ------------------------------------------------------------------

  /** One label `validate_emotions` looks at: the line it reports and the
      emotion it looks up. */
  datatype Check = Check(entry: string, emotion: string)

  /** The lines `validate_emotions` reports. `missing_emotions` is never filled. */
  datatype Validation = Validation(validEmotions: seq<string>, invalidEmotions: seq<string>, missingEmotions: seq<string>)

  /** One check per entry of `emotions`, reported under `prefix`. */
  function Tagged(prefix: string, emotions: seq<string>): (r: seq<Check>)
    ensures |r| == |emotions|
    ensures forall i :: 0 <= i < |emotions| ==> r[i] == Check(prefix + emotions[i], emotions[i])
  {
    seq(|emotions|, i requires 0 <= i < |emotions| => Check(prefix + emotions[i], emotions[i]))
  }

  /** The labels of one segment, in the order the validator visits them: a
      truthy `emotional_primary`, a truthy `emotional_secondary`, then every
      primary and every secondary emotion of the emotional characteristics. */
  function Checks(id: string, seg: Segment): seq<Check>
  {
    (if Truthy(seg.emotionalPrimary)
     then [Check(id + ": " + seg.emotionalPrimary.value, seg.emotionalPrimary.value)] else [])
    + (if Truthy(seg.emotionalSecondary)
       then [Check(id + ": " + seg.emotionalSecondary.value, seg.emotionalSecondary.value)] else [])
    + Tagged(id + " (primary): ", seg.emotionalCharacteristics.primaryEmotions)
    + Tagged(id + " (secondary): ", seg.emotionalCharacteristics.secondaryEmotions)
  }

  /** Every label of every segment, in dictionary order. */
  function AllChecks(es: Entries): seq<Check>
  {
    if es == [] then []
    else AllChecks(es[..|es| - 1]) + Checks(es[|es| - 1].0, es[|es| - 1].1)
  }

  /** The reported lines split by whether the emotion is in the vocabulary. */
  function Partition(cs: seq<Check>, known: string -> bool): (seq<string>, seq<string>)
  {
    if cs == [] then ([], [])
    else
      var p := Partition(cs[..|cs| - 1], known);
      var c := cs[|cs| - 1];
      if known(c.emotion) then (p.0 + [c.entry], p.1) else (p.0, p.1 + [c.entry])
  }

  /** Every reported line lands in exactly one of the two lists, according to
      vocabulary membership; the invalid list is empty exactly when every
      label is in the vocabulary. */
  lemma {:induction false} PartitionSpec(cs: seq<Check>, known: string -> bool)
    ensures |Partition(cs, known).0| + |Partition(cs, known).1| == |cs|
    ensures forall i :: 0 <= i < |cs| ==>
      if known(cs[i].emotion) then cs[i].entry in Partition(cs, known).0 else cs[i].entry in Partition(cs, known).1
    ensures forall x :: x in Partition(cs, known).0 ==> exists i :: 0 <= i < |cs| && cs[i].entry == x && known(cs[i].emotion)
    ensures forall x :: x in Partition(cs, known).1 ==> exists i :: 0 <= i < |cs| && cs[i].entry == x && !known(cs[i].emotion)
    ensures Partition(cs, known).1 == [] <==> forall c :: c in cs ==> known(c.emotion)
  {
    if cs != [] {
      var init := cs[..|cs| - 1];
      var c := cs[|cs| - 1];
      PartitionSpec(init, known);
      assert forall i :: 0 <= i < |init| ==> cs[i] == init[i];
      var p := Partition(init, known);
      assert Partition(cs, known) == if known(c.emotion) then (p.0 + [c.entry], p.1) else (p.0, p.1 + [c.entry]);
      if Partition(cs, known).1 == [] {
        assert p.1 == [];
      }
    }
  }

  lemma {:induction false} PartitionAppend(a: seq<Check>, b: seq<Check>, known: string -> bool)
    ensures Partition(a + b, known) == (Partition(a, known).0 + Partition(b, known).0, Partition(a, known).1 + Partition(b, known).1)
    decreases |b|
  {
    if b == [] {
      assert a + b == a;
      assert Partition(b, known) == ([], []);
      assert Partition(a, known).0 + [] == Partition(a, known).0;
      assert Partition(a, known).1 + [] == Partition(a, known).1;
    } else {
      var b' := b[..|b| - 1];
      var c := b[|b| - 1];
      assert (a + b)[..|a + b| - 1] == a + b';
      assert (a + b)[|a + b| - 1] == c;
      PartitionAppend(a, b', known);
      var pa, pb := Partition(a, known), Partition(b', known);
      if known(c.emotion) {
        assert Partition(b, known) == (pb.0 + [c.entry], pb.1);
        assert pa.0 + pb.0 + [c.entry] == pa.0 + (pb.0 + [c.entry]);
      } else {
        assert Partition(b, known) == (pb.0, pb.1 + [c.entry]);
        assert pa.1 + pb.1 + [c.entry] == pa.1 + (pb.1 + [c.entry]);
      }
    }
  }

  /** Every label of `seg` is in the vocabulary. */
  ghost predicate LabelsMapped(seg: Segment, known: string -> bool)
  {
    && (Truthy(seg.emotionalPrimary) ==> known(seg.emotionalPrimary.value))
    && (Truthy(seg.emotionalSecondary) ==> known(seg.emotionalSecondary.value))
    && (forall e :: e in seg.emotionalCharacteristics.primaryEmotions ==> known(e))
    && (forall e :: e in seg.emotionalCharacteristics.secondaryEmotions ==> known(e))
  }

  /** A catalog whose segments use only vocabulary labels reports no invalid
      emotion, and conversely. */
  lemma NoInvalidIffMapped(es: Entries, known: string -> bool)
    ensures Partition(AllChecks(es), known).1 == [] <==> forall i :: 0 <= i < |es| ==> LabelsMapped(es[i].1, known)
  {
    InvalidEmptyIff(AllChecks(es), known);
    AllKnownIff(es, known);
  }

  /** Nothing is reported invalid exactly when every emotion checked is known. */
  lemma {:induction false} InvalidEmptyIff(cs: seq<Check>, known: string -> bool)
    ensures Partition(cs, known).1 == [] <==> forall c :: c in cs ==> known(c.emotion)
  {
    if cs != [] {
      var init := cs[..|cs| - 1];
      InvalidEmptyIff(init, known);
      assert cs == init + [cs[|cs| - 1]];
    }
  }

  /** Every emotion checked for a catalog is known exactly when every segment's
      labels are. */
  lemma {:induction false} AllKnownIff(es: Entries, known: string -> bool)
    ensures (forall c :: c in AllChecks(es) ==> known(c.emotion)) <==> forall i :: 0 <= i < |es| ==> LabelsMapped(es[i].1, known)
  {
    if es != [] {
      var init := es[..|es| - 1];
      var (id, seg) := es[|es| - 1];
      AllKnownIff(init, known);
      ChecksKnown(id, seg, known);
      assert AllChecks(es) == AllChecks(init) + Checks(id, seg);
      assert forall i :: 0 <= i < |init| ==> es[i] == init[i];
    }
  }

  /** The checks of a segment are all known exactly when its labels are. */
  lemma ChecksKnown(id: string, seg: Segment, known: string -> bool)
    ensures (forall c :: c in Checks(id, seg) ==> known(c.emotion)) <==> LabelsMapped(seg, known)
  {
    var ch := seg.emotionalCharacteristics;
    TaggedKnown(id + " (primary): ", ch.primaryEmotions, known);
    TaggedKnown(id + " (secondary): ", ch.secondaryEmotions, known);
  }

  lemma TaggedKnown(prefix: string, emotions: seq<string>, known: string -> bool)
    ensures (forall c :: c in Tagged(prefix, emotions) ==> known(c.emotion)) <==> (forall e :: e in emotions ==> known(e))
  {
    var cs := Tagged(prefix, emotions);
    if forall e :: e in emotions ==> known(e) {
      forall c | c in cs ensures known(c.emotion) {
        var k :| 0 <= k < |cs| && cs[k] == c;
        assert emotions[k] in emotions;
      }
    }
    if forall c :: c in cs ==> known(c.emotion) {
      forall e | e in emotions ensures known(e) {
        var k :| 0 <= k < |emotions| && emotions[k] == e;
        assert cs[k] in cs;
      }
    }
  }

  /** Sorts the lines of `cs` into valid and invalid, one at a time. */
  method Classify(valid: seq<string>, invalid: seq<string>, cs: seq<Check>, known: string -> bool) returns (v: seq<string>, iv: seq<string>)
    ensures v == valid + Partition(cs, known).0
    ensures iv == invalid + Partition(cs, known).1
  {
    v, iv := valid, invalid;
    for k := 0 to |cs|
      invariant v == valid + Partition(cs[..k], known).0
      invariant iv == invalid + Partition(cs[..k], known).1
    {
      assert cs[..k + 1][..k] == cs[..k];
      if known(cs[k].emotion) {
        v := v + [cs[k].entry];
      } else {
        iv := iv + [cs[k].entry];
      }
    }
    assert cs[..|cs|] == cs;
  }

  // ------------------------------------------------------------------
  // Search keywords and metadata
  // ------------------------------------------------------------------

  /** `_generate_search_keywords`: "phase emotion" for a truthy primary
      emotion, up to three common symptoms, up to two primary emotions and up
      to two sensitivity factors, in that order. */
  function SearchKeywords(seg: Segment): seq<string>
  {
    (if Truthy(seg.emotionalPrimary) then [seg.phase + " " + seg.emotionalPrimary.value] else [])
    + (if seg.physicalSymptoms.Some? then Take(seg.physicalSymptoms.value.common, 3) else [])
    + Take(seg.emotionalCharacteristics.primaryEmotions, 2)
    + (if seg.hormonalProfile.sensitivityFactors.Some? && seg.hormonalProfile.sensitivityFactors.value != []
       then Take(seg.hormonalProfile.sensitivityFactors.value, 2) else [])
  }

  /** At most eight keywords; the first is "phase emotion" exactly when the
      primary emotion is truthy; every keyword comes from one of the four sources. */
  lemma SearchKeywordsShape(seg: Segment)
    ensures |SearchKeywords(seg)| <= 8
    ensures Truthy(seg.emotionalPrimary) ==> SearchKeywords(seg)[0] == seg.phase + " " + seg.emotionalPrimary.value
    ensures !Truthy(seg.emotionalPrimary) && seg.physicalSymptoms.None? && seg.emotionalCharacteristics.primaryEmotions == []
      ==> SearchKeywords(seg) == Take(if seg.hormonalProfile.sensitivityFactors.Some? then seg.hormonalProfile.sensitivityFactors.value else [], 2)
    ensures forall k :: k in SearchKeywords(seg) ==>
      || (Truthy(seg.emotionalPrimary) && k == seg.phase + " " + seg.emotionalPrimary.value)
      || (seg.physicalSymptoms.Some? && k in seg.physicalSymptoms.value.common)
      || k in seg.emotionalCharacteristics.primaryEmotions
      || (seg.hormonalProfile.sensitivityFactors.Some? && k in seg.hormonalProfile.sensitivityFactors.value)
  {
  }

  /** The same list built by appending step by step. */
  method GenerateSearchKeywords(seg: Segment) returns (keywords: seq<string>)
    ensures keywords == SearchKeywords(seg)
  {
    keywords := [];
    if Truthy(seg.emotionalPrimary) {
      keywords := keywords + [seg.phase + " " + seg.emotionalPrimary.value];
    }
    if seg.physicalSymptoms.Some? {
      keywords := keywords + Take(seg.physicalSymptoms.value.common, 3);
    }
    keywords := keywords + Take(seg.emotionalCharacteristics.primaryEmotions, 2);
    var factors := seg.hormonalProfile.sensitivityFactors;
    if factors.Some? && factors.value != [] {
      keywords := keywords + Take(factors.value, 2);
    }
  }

  /** One entry of `applicable_content`; the priority is in hundredths. */
  datatype ContentRule = ContentRule(priority: int, focusAreas: seq<string>, tone: string)

  /** `content_generation_rules`. */
  datatype GenerationRules = GenerationRules(
    maxLength: int,
    minValidation: bool,
    includePracticalTips: bool,
    avoidMedicalDiagnosis: bool,
    tone: string,
    urgency: string)

  /** The `segment_metadata` dictionary. */
  datatype SegmentMetadata = SegmentMetadata(
    id: string,
    name: string,
    category: string,
    phase: string,
    emotionalPrimary: Option<string>,
    intensityLevel: Option<string>,
    applicableContent: seq<(string, ContentRule)>,
    searchKeywords: seq<string>,
    relatedSegments: seq<string>,
    rules: GenerationRules)

  /** The metadata of a stored segment. */
  function MetadataOf(seg: Segment): (md: SegmentMetadata)
    ensures KeysOf(md.applicableContent) == ["lesson_3min", "whats_happening", "nutrition_guide"]
    ensures md.applicableContent[0].1.priority == seg.recommendedContentTypes.lesson3min
    ensures md.applicableContent[1].1.priority == seg.recommendedContentTypes.whatsHappening
    ensures md.applicableContent[2].1.priority == seg.recommendedContentTypes.nutritionGuide
    ensures forall i :: 0 <= i < 3 ==>
      md.applicableContent[i].1.focusAreas == seg.contentPreferences.focusAreas
      && md.applicableContent[i].1.tone == seg.contentPreferences.tone
    ensures md.searchKeywords == SearchKeywords(seg) && |md.searchKeywords| <= 8
    ensures md.rules == GenerationRules(600, true, true, true, seg.contentPreferences.tone, seg.contentPreferences.urgency)
    ensures md.id == seg.id && md.name == seg.name && md.category == seg.category && md.phase == seg.phase
    ensures md.emotionalPrimary == seg.emotionalPrimary && md.intensityLevel == seg.intensityLevel
    ensures seg.relatedSegments.Some? ==> md.relatedSegments == seg.relatedSegments.value
    ensures seg.relatedSegments.None? ==> md.relatedSegments == []
  {
    var rule := (p: int) => ContentRule(p, seg.contentPreferences.focusAreas, seg.contentPreferences.tone);
    SearchKeywordsShape(seg);
    SegmentMetadata(
      seg.id, seg.name, seg.category, seg.phase, seg.emotionalPrimary, seg.intensityLevel,
      [("lesson_3min", rule(seg.recommendedContentTypes.lesson3min)),
       ("whats_happening", rule(seg.recommendedContentTypes.whatsHappening)),
       ("nutrition_guide", rule(seg.recommendedContentTypes.nutritionGuide))],
      SearchKeywords(seg),
      OrEmpty(seg.relatedSegments),
      GenerationRules(600, true, true, true, seg.contentPreferences.tone, seg.contentPreferences.urgency))
  }

  // ------------------------------------------------------------------
  // Saving and loading
  // ------------------------------------------------------------------

  /** The document `save_to_file` writes: one object per segment, under its key. */
  function SaveEntries(es: Entries): (r: seq<(string, Json)>)
    ensures |r| == |es|
    ensures forall i :: 0 <= i < |es| ==> r[i] == (es[i].0, EncodeSegment(es[i].1))
  {
    seq(|es|, i requires 0 <= i < |es| => (es[i].0, EncodeSegment(es[i].1)))
  }

  /** How many leading items of a loaded document decode before the first
      one that makes `load_from_file` raise; `decode` is the per-item decoder
      (`DecodeSegment` for the catalog). */
  function DecodablePrefix<V, W>(items: seq<(string, V)>, decode: V -> Option<W>): (n: nat)
    ensures n <= |items|
    ensures forall i :: 0 <= i < n ==> decode(items[i].1).Some?
    ensures n < |items| ==> decode(items[n].1).None?
  {
    if items == [] then 0
    else if decode(items[0].1).None? then 0
    else
      var n := DecodablePrefix(items[1..], decode);
      assert forall i :: 1 <= i < |items| ==> items[1..][i - 1] == items[i];
      1 + n
  }

  /** An item missing `"intervention_priorities"` or `"related_segments"` makes
      `load_from_file` raise `KeyError` there: when every item before it
      decodes, the load keeps exactly those items. */
  lemma MissingGuidanceKeyStopsLoad(items: seq<(string, Json)>, i: nat)
    requires i < |items|
    requires Field(items[i].1, "intervention_priorities").None? || Field(items[i].1, "related_segments").None?
    requires i <= DecodablePrefix(items, DecodeSegment)
    ensures DecodablePrefix(items, DecodeSegment) == i
  {
    MissingGuidanceKeyRejected(items[i].1);
  }

  /** The values rebuilt from items that all decode, under their keys. */
  function DecodeAll<V, W>(items: seq<(string, V)>, decode: V -> Option<W>): (es: seq<(string, W)>)
    requires forall i :: 0 <= i < |items| ==> decode(items[i].1).Some?
    ensures |es| == |items|
    ensures forall i :: 0 <= i < |items| ==> es[i] == (items[i].0, decode(items[i].1).value)
  {
    seq(|items|, i requires 0 <= i < |items| && decode(items[i].1).Some? =>
      (items[i].0, decode(items[i].1).value))
  }

  /** Saving a catalog and loading the document back gives the same keys in
      the same order, each with its segment as `Normalize` describes. */
  lemma SaveLoadRoundTrip(es: Entries)
    ensures DecodablePrefix(SaveEntries(es), DecodeSegment) == |es|
    ensures KeysOf(DecodeAll(SaveEntries(es), DecodeSegment)) == KeysOf(es)
    ensures forall i :: 0 <= i < |es| ==> DecodeAll(SaveEntries(es), DecodeSegment)[i].1 == Normalize(es[i].1)
  {
    var items := SaveEntries(es);
    forall i | 0 <= i < |es| ensures DecodeSegment(items[i].1) == Some(Normalize(es[i].1)) {
      SegmentRoundTrip(es[i].1);
    }
    DecodeAllOf(es, items, DecodeSegment, Normalize);
  }

  /** When every item decodes to the normal form of its entry, under the
      entry's key, all items load and give back the normalised entries. */
  lemma DecodeAllOf<V, W>(es: seq<(string, W)>, items: seq<(string, V)>, decode: V -> Option<W>, normalize: W -> W)
    requires |items| == |es|
    requires forall i :: 0 <= i < |es| ==> items[i].0 == es[i].0 && decode(items[i].1) == Some(normalize(es[i].1))
    ensures DecodablePrefix(items, decode) == |es|
    ensures KeysOf(DecodeAll(items, decode)) == KeysOf(es)
    ensures forall i :: 0 <= i < |es| ==> DecodeAll(items, decode)[i].1 == normalize(es[i].1)
  {
  }

  // ------------------------------------------------------------------
  // The database object
  // ------------------------------------------------------------------

  /** `ExpandedSegmentDatabase`: the segment dictionary, kept as its items in
      insertion order. */
  class SegmentDatabase {
    var segments: Entries

    ghost predicate Valid()
      reads this
    {
      IsDict(segments)
    }

    /** A database holding the shipped catalog. */
    constructor ()
      ensures Valid()
      ensures segments == ShippedEntries
    {
      segments := ShippedEntries;
      new;
      ShippedKeysDistinct();
    }

    /** `get_segment`: the stored segment under `id`, `None` for a key that is
        not stored. */
    function GetSegment(id: string): (r: Option<Segment>)
      reads this
      requires Valid()
      ensures r.None? <==> id !in KeysOf(segments)
      ensures forall i :: 0 <= i < |segments| && segments[i].0 == id ==> r == Some(segments[i].1)
    {
      var r := Lookup(segments, id);
      forall i | 0 <= i < |segments| && segments[i].0 == id ensures r == Some(segments[i].1) {
        LookupAt(segments, i);
      }
      r
    }

    /** `get_segments_by_category`: every stored segment of `category`, as
        often as it is stored. */
    function GetSegmentsByCategory(category: string): (r: seq<Segment>)
      reads this
      ensures forall s :: multiset(r)[s] == if s.category == category then multiset(ValuesOf(segments))[s] else 0
    {
      Where(ValuesOf(segments), (s: Segment) => s.category == category)
    }

    /** `get_segments_by_phase`: every stored segment of `phase`, as often as it
        is stored. */
    function GetSegmentsByPhase(phase: string): (r: seq<Segment>)
      reads this
      ensures forall s :: multiset(r)[s] == if s.phase == phase then multiset(ValuesOf(segments))[s] else 0
    {
      Where(ValuesOf(segments), (s: Segment) => s.phase == phase)
    }

    /** `get_segment_metadata`: `None` stands for the empty dictionary returned
        for an unknown id. */
    function GetSegmentMetadata(id: string): (r: Option<SegmentMetadata>)
      reads this
      requires Valid()
      ensures r.None? <==> id !in KeysOf(segments)
      ensures forall i :: 0 <= i < |segments| && segments[i].0 == id ==> r == Some(MetadataOf(segments[i].1))
    {
      var s := GetSegment(id);
      if s.None? then None else Some(MetadataOf(s.value))
    }

    /** `validate_emotions`: every label of every segment, reported as valid or
        invalid by vocabulary membership. */
    method ValidateEmotions() returns (r: Validation)
      ensures r.validEmotions == Partition(AllChecks(segments), IsMapped).0
      ensures r.invalidEmotions == Partition(AllChecks(segments), IsMapped).1
      ensures r.missingEmotions == []
    {
      var valid: seq<string> := [];
      var invalid: seq<string> := [];
      for n := 0 to |segments|
        invariant valid == Partition(AllChecks(segments[..n]), IsMapped).0
        invariant invalid == Partition(AllChecks(segments[..n]), IsMapped).1
      {
        assert segments[..n + 1][..n] == segments[..n];
        PartitionAppend(AllChecks(segments[..n]), Checks(segments[n].0, segments[n].1), IsMapped);
        valid, invalid := Classify(valid, invalid, Checks(segments[n].0, segments[n].1), IsMapped);
      }
      assert segments[..|segments|] == segments;
      r := Validation(valid, invalid, []);
    }

    /** `save_to_file`, without the file write: the document it serialises. */
    function SaveDocument(): (doc: Json)
      reads this
      ensures doc.JObj? && KeysOf(doc.entries) == KeysOf(segments)
    {
      JObj(SaveEntries(segments))
    }

    /** `load_from_file` on a parsed document: the dictionary is emptied, then
        filled item by item; an item that fails to decode stops the load and
        leaves the items before it in place. */
    method LoadFromFile(doc: Json) returns (ok: bool)
      requires doc.JObj? ==> IsDict(doc.entries)
      modifies this
      ensures Valid()
      ensures ok <==> doc.JObj? && DecodablePrefix(doc.entries, DecodeSegment) == |doc.entries|
      ensures !doc.JObj? ==> segments == []
      ensures doc.JObj? ==> segments == DecodeAll(doc.entries[..DecodablePrefix(doc.entries, DecodeSegment)], DecodeSegment)
    {
      segments := [];
      if !doc.JObj? {
        return false;
      }
      ok, segments := LoadItems(doc.entries, DecodeSegment);
    }
  }

  /** The loop of `load_from_file`, for any per-item decoder: items are decoded
      and appended in order until one fails. */
  method LoadItems<V, W>(items: seq<(string, V)>, decode: V -> Option<W>) returns (ok: bool, es: seq<(string, W)>)
    requires IsDict(items)
    ensures ok <==> DecodablePrefix(items, decode) == |items|
    ensures es == DecodeAll(items[..DecodablePrefix(items, decode)], decode)
    ensures IsDict(es)
  {
    es := [];
    ghost var n := DecodablePrefix(items, decode);
    for i := 0 to |items|
      invariant i <= n
      invariant es == DecodeAll(items[..i], decode)
      invariant IsDict(es)
    {
      var s := decode(items[i].1);
      if s.None? {
        return false, es;
      }
      LoadStep(items, i, decode);
      es := es + [(items[i].0, s.value)];
    }
    assert items[..|items|] == items;
    return true, es;
  }

  /** Loading one more item of a dictionary appends it, decoded, and keeps the
      keys distinct. */
  lemma LoadStep<V, W>(items: seq<(string, V)>, i: nat, decode: V -> Option<W>)
    requires IsDict(items) && i < DecodablePrefix(items, decode)
    ensures DecodeAll(items[..i + 1], decode) == DecodeAll(items[..i], decode) + [(items[i].0, decode(items[i].1).value)]
    ensures IsDict(DecodeAll(items[..i + 1], decode))
  {
    var next := DecodeAll(items[..i + 1], decode);
    assert items[..i + 1][..i] == items[..i];
    KeysOfPrefix(items, i + 1);
    assert KeysOf(next) == KeysOf(items[..i + 1]);
  }

  /** A prefix of a dictionary's items is a dictionary. */
  lemma KeysOfPrefix<V>(items: seq<(string, V)>, k: nat)
    requires k <= |items| && IsDict(items)
    ensures IsDict(items[..k])
  {
    forall a, b | 0 <= a < b < k ensures KeysOf(items[..k])[a] != KeysOf(items[..k])[b] {
      assert KeysOf(items)[a] != KeysOf(items)[b];
    }
  }

  // ------------------------------------------------------------------
  // The shipped catalog
  // ------------------------------------------------------------------

  /** `SEG001_FOL_STRESS_CHRONIC` (segment_processor/expanded_segments.py, lines 177-243). */
  const Seg001FolStressChronic: Segment := Segment(
    "SEG001_FOL_STRESS_CHRONIC", "Folicular Estresada Crónica", "base_phase_emotional", "folicular",
    Some("ansiosa"), Some("cansada_mentalmente"), None,
    Some("alta"), Some("crónica"), None, None, None,
    Demographics(["20-29", "30-39", "40-49"], ["reproductiva", "perimenopausia"], ["trabajo", "relaciones", "finanzas"],
      None, None),
    HormonalProfile("creciente", "bajo", Some("elevado"),
      None, Some(["cortisol_estrogen_interaction", "stress_amplification"])),
    EmotionalCharacteristics(["ansiosa", "preocupada", "abrumada"],
      ["frustrada", "impaciente", "cansada_mentalmente"],
      [-20, -5], "alta", "lento"),
    Some(PhysicalSymptoms(["tensión_muscular", "dolores_cabeza", "fatiga"], ["problemas_sueño", "cambios_apetito", "palpitaciones"], ["ataques_pánico", "agotamiento_extremo"])),
    ContentPreferences("empático_tranquilizador", "intermedio", "alta",
      ["manejo_estres", "técnicas_calma", "validación"], ["presión_adicional", "optimización_excesiva"]),
    RecommendedContentTypes(90, 95, 80, 85, 90, 95),
    Some(["reducción_cortisol", "técnicas_respiración", "validación_emocional", "estrategias_manejo_estres"]),
    Some(["SEG001_FOL_STRESS_ACUTE", "SEG011_LUT_ANXIOUS", "SEG016_MEN_IRRITABLE"]))

  /** `SEG002_FOL_ENERGETIC` (segment_processor/expanded_segments.py, lines 246-305). */
  const Seg002FolEnergetic: Segment := Segment(
    "SEG002_FOL_ENERGETIC", "Folicular Energética", "base_phase_emotional", "folicular",
    Some("energética"), Some("confiada"), None,
    Some("moderada"), Some("estable"), None, None, None,
    Demographics(["20-29", "30-39"], ["reproductiva"], ["proyectos_nuevos", "oportunidades", "metas"],
      None, None),
    HormonalProfile("creciente", "bajo", Some("normal"),
      None, Some(["estrogen_energy_boost", "motivation_amplification"])),
    EmotionalCharacteristics(["energética", "activa", "confiada"],
      ["poderosa", "orgullosa_de_mí", "en_paz_conmigo"],
      [5, 20], "baja", "rápido"),
    None,
    ContentPreferences("motivacional_optimista", "intermedio", "baja",
      ["optimización_energía", "productividad", "metas"], ["limitaciones", "obstáculos"]),
    RecommendedContentTypes(80, 70, 90, 80, 85, 60),
    Some(["canalización_energía", "optimización_rendimiento", "mantenimiento_motivación", "gestión_proyectos"]),
    Some(["SEG_MIX_001", "SEG003_FOL_BALANCED"]))

  /** `SEG011_LUT_ANXIOUS` (segment_processor/expanded_segments.py, lines 308-373). */
  const Seg011LutAnxious: Segment := Segment(
    "SEG011_LUT_ANXIOUS", "Lútea Ansiosa", "base_phase_emotional", "luteal",
    Some("ansiosa"), Some("frustrada"), None,
    Some("alta"), Some("cíclica"), None, None, None,
    Demographics(["20-29", "30-39", "40-49"], ["reproductiva", "perimenopausia"], ["cambios_hormonales", "estrés", "expectativas"],
      None, None),
    HormonalProfile("variable", "alto", Some("elevado"),
      None, Some(["progesterone_anxiety", "hormonal_fluctuation"])),
    EmotionalCharacteristics(["ansiosa", "tensa", "preocupada"],
      ["frustrada", "estresada", "cansada_físicamente"],
      [-20, 0], "alta", "lento"),
    Some(PhysicalSymptoms(["tensión_muscular", "problemas_sueño", "cambios_apetito"], ["palpitaciones", "dolores_cabeza", "fatiga"], ["ataques_pánico", "agotamiento_emocional"])),
    ContentPreferences("empático_tranquilizador", "básico", "alta",
      ["manejo_ansiedad", "técnicas_calma", "validación"], ["presión_adicional", "optimización"]),
    RecommendedContentTypes(70, 90, 80, 80, 90, 95),
    Some(["reducción_ansiedad", "técnicas_respiración", "validación_emocional", "manejo_síntomas"]),
    Some(["SEG001_FOL_STRESS_CHRONIC", "SEG_INT_001"]))

  /** `SEG_PREMEN_001` (segment_processor/expanded_segments.py, lines 379-434). */
  const SegPremen001: Segment := Segment(
    "SEG_PREMEN_001", "Pre-menarca Curiosa", "age_specific", "pre_menstrual",
    None, None, None,
    None, None, Some("10-14"), Some("pre_menarca"), None,
    Demographics(["10-12", "13-14"], ["pre_menarca"], [],
      Some("pubertad_temprana"), Some(["cambios_corporales", "expectativas_sociales", "preparación"])),
    HormonalProfile("inicial", "mínimo", None,
      Some("pre_ovulatorio"), Some(["cambios_corporales", "expectativas", "comparación_social"])),
    EmotionalCharacteristics(["nerviosa", "insegura", "sensible"],
      ["impaciente", "frágil", "desconectada"],
      [-5, 15], "moderada", "rápido"),
    None,
    ContentPreferences("educativo_empático", "básico", "baja",
      ["educación_básica", "normalización", "preparación"], ["síntomas_graves", "complicaciones", "presión_temporal"]),
    RecommendedContentTypes(80, 90, 70, 90, 80, 50),
    Some(["educación_básica", "normalización_cambios", "preparación_emocional", "apoyo_familiar"]),
    Some([]))

  /** `SEG_PERI_001` (segment_processor/expanded_segments.py, lines 437-500). */
  const SegPeri001: Segment := Segment(
    "SEG_PERI_001", "Perimenopausia Intensa", "age_specific", "perimenopausia",
    None, None, None,
    None, None, Some("45-55"), Some("perimenopausia"), None,
    Demographics(["45-49", "50-55"], ["perimenopausia"], ["cambios_hormonales", "estrés", "expectativas_vida"],
      None, None),
    HormonalProfile("variable", "variable", Some("elevado"),
      None, Some(["hormonal_fluctuation", "estrogen_decline", "stress_amplification"])),
    EmotionalCharacteristics(["ansiosa", "frustrada", "abrumada"],
      ["triste", "vacía", "cansada_físicamente"],
      [-20, 5], "muy_alta", "lento"),
    Some(PhysicalSymptoms(["sofocos", "problemas_sueño", "cambios_apetito", "fatiga"], ["palpitaciones", "dolores_cabeza", "tensión_muscular"], ["ataques_pánico", "depresión", "agotamiento_extremo"])),
    ContentPreferences("empático_tranquilizador", "intermedio", "alta",
      ["manejo_síntomas", "validación", "estrategias_calma"], ["presión_adicional", "optimización_excesiva"]),
    RecommendedContentTypes(80, 90, 80, 80, 85, 90),
    Some(["manejo_síntomas_perimenopausia", "validación_emocional", "estrategias_calma", "apoyo_transición"]),
    Some(["SEG_INT_001", "SEG011_LUT_ANXIOUS"]))

  /** `SEG_MIX_001` (segment_processor/expanded_segments.py, lines 506-562). */
  const SegMix001: Segment := Segment(
    "SEG_MIX_001", "Ansiosa-Energética", "mixed_emotional", "folicular",
    None, None, Some("ansiosa_energetica"),
    None, None, None, None, None,
    Demographics(["20-29", "30-39"], ["reproductiva"], ["proyectos_nuevos", "deadlines", "oportunidades"],
      None, None),
    HormonalProfile("creciente", "bajo", Some("moderado"),
      None, Some(["estrogen_energy_boost", "cortisol_anxiety"])),
    EmotionalCharacteristics(["ansiosa", "energética", "activa"],
      ["nerviosa", "preocupada", "confiada"],
      [-10, 20], "alta", "variable"),
    None,
    ContentPreferences("motivacional_equilibrado", "intermedio", "moderada",
      ["canalización_energía", "manejo_ansiedad", "optimización"], ["sobreestimulación", "presión_excesiva"]),
    RecommendedContentTypes(80, 70, 80, 70, 80, 70),
    Some(["canalización_energía", "manejo_ansiedad", "optimización_rendimiento", "equilibrio_emocional"]),
    Some(["SEG002_FOL_ENERGETIC", "SEG001_FOL_STRESS_CHRONIC"]))

  /** `SEG_INT_001` (segment_processor/expanded_segments.py, lines 568-631). */
  const SegInt001: Segment := Segment(
    "SEG_INT_001", "Lútea Intensa", "symptom_intensity", "luteal",
    None, None, None,
    Some("alta"), None, None, None, Some("7+"),
    Demographics(["20-29", "30-39", "40-49"], ["reproductiva", "perimenopausia"], ["estrés", "cambios_alimentarios", "falta_sueño"],
      None, None),
    HormonalProfile("variable", "alto", Some("elevado"),
      None, Some(["progesterone_sensitivity", "cortisol_amplification"])),
    EmotionalCharacteristics(["frustrada", "ansiosa", "triste"],
      ["abrumada", "desesperanzada", "cansada_físicamente"],
      [-20, 0], "muy_alta", "lento"),
    Some(PhysicalSymptoms(["hinchazón", "dolores_cabeza", "fatiga", "cambios_apetito"], ["problemas_sueño", "tensión_muscular", "palpitaciones"], ["ataques_pánico", "depresión", "agotamiento_extremo"])),
    ContentPreferences("empático_tranquilizador", "básico", "muy_alta",
      ["manejo_síntomas", "validación", "estrategias_calma"], ["optimización", "presión_adicional", "complicaciones"]),
    RecommendedContentTypes(70, 90, 80, 70, 85, 95),
    Some(["manejo_síntomas_graves", "validación_emocional", "estrategias_calma", "apoyo_crisis"]),
    Some(["SEG011_LUT_ANXIOUS", "SEG_PERI_001"]))

  /** The dictionary the constructor fills, in insertion order. */
  const ShippedEntries: Entries := [
    ("SEG001_FOL_STRESS_CHRONIC", Seg001FolStressChronic),
    ("SEG002_FOL_ENERGETIC", Seg002FolEnergetic),
    ("SEG011_LUT_ANXIOUS", Seg011LutAnxious),
    ("SEG_PREMEN_001", SegPremen001),
    ("SEG_PERI_001", SegPeri001),
    ("SEG_MIX_001", SegMix001),
    ("SEG_INT_001", SegInt001)
  ]

  lemma ShippedKeysDistinct()
    ensures IsDict(ShippedEntries)
  {
  }

  /** Every shipped segment is stored under its own id. */
  lemma ShippedKeysAreIds()
    ensures forall i :: 0 <= i < |ShippedEntries| ==> ShippedEntries[i].0 == ShippedEntries[i].1.id
  {
  }

  /** All six priorities lie between 0 and 1 (0 and 100 hundredths). */
  predicate PrioritiesInRange(r: RecommendedContentTypes)
  {
    && 0 <= r.lesson3min <= 100 && 0 <= r.whatsHappening <= 100 && 0 <= r.nutritionGuide <= 100
    && 0 <= r.cycleDayInfo <= 100 && 0 <= r.hormoneLevels <= 100 && 0 <= r.stressLevels <= 100
  }

  lemma ShippedPrioritiesInRange()
    ensures forall i :: 0 <= i < |ShippedEntries| ==> PrioritiesInRange(ShippedEntries[i].1.recommendedContentTypes)
  {
  }

  lemma MappedStressAndAnxiety(i: nat, name: string)
    requires i < |StressAndAnxiety| && StressAndAnxiety[i].0 == name
    ensures IsMapped(name)
  {
    assert EmotionEntries[i] == StressAndAnxiety[i];
    assert EmotionNames()[i] == StressAndAnxiety[i].0;
  }

  lemma MappedLowMood(i: nat, name: string)
    requires i < |LowMood| && LowMood[i].0 == name
    ensures IsMapped(name)
  {
    assert EmotionEntries[|StressAndAnxiety| + i] == LowMood[i];
    assert EmotionNames()[|StressAndAnxiety| + i] == LowMood[i].0;
  }

  lemma MappedPhysicalAndEnergy(i: nat, name: string)
    requires i < |PhysicalAndEnergy| && PhysicalAndEnergy[i].0 == name
    ensures IsMapped(name)
  {
    assert EmotionEntries[|StressAndAnxiety| + |LowMood| + i] == PhysicalAndEnergy[i];
    assert EmotionNames()[|StressAndAnxiety| + |LowMood| + i] == PhysicalAndEnergy[i].0;
  }

  lemma MappedSelfEsteem(i: nat, name: string)
    requires i < |SelfEsteem| && SelfEsteem[i].0 == name
    ensures IsMapped(name)
  {
    assert EmotionEntries[|StressAndAnxiety| + |LowMood| + |PhysicalAndEnergy| + i] == SelfEsteem[i];
    assert EmotionNames()[|StressAndAnxiety| + |LowMood| + |PhysicalAndEnergy| + i] == SelfEsteem[i].0;
  }

  lemma MappedRelational(i: nat, name: string)
    requires i < |Relational| && Relational[i].0 == name
    ensures IsMapped(name)
  {
    assert EmotionEntries[|StressAndAnxiety| + |LowMood| + |PhysicalAndEnergy| + |SelfEsteem| + i] == Relational[i];
    assert EmotionNames()[|StressAndAnxiety| + |LowMood| + |PhysicalAndEnergy| + |SelfEsteem| + i] == Relational[i].0;
  }

  /** The vocabulary holds every label the shipped catalog uses; stated two
      at a time to keep each proof small. */
  lemma UsedLabelsMapped1()
    ensures IsMapped("ansiosa") && IsMapped("abrumada")
  {
    MappedStressAndAnxiety(0, "ansiosa");
    MappedStressAndAnxiety(1, "abrumada");
  }

  lemma UsedLabelsMapped2()
    ensures IsMapped("nerviosa") && IsMapped("impaciente")
  {
    MappedStressAndAnxiety(2, "nerviosa");
    MappedStressAndAnxiety(3, "impaciente");
  }

  lemma UsedLabelsMapped3()
    ensures IsMapped("tensa") && IsMapped("frustrada")
  {
    MappedStressAndAnxiety(4, "tensa");
    MappedStressAndAnxiety(5, "frustrada");
  }

  lemma UsedLabelsMapped4()
    ensures IsMapped("preocupada") && IsMapped("estresada")
  {
    MappedStressAndAnxiety(6, "preocupada");
    MappedStressAndAnxiety(7, "estresada");
  }

  lemma UsedLabelsMapped5()
    ensures IsMapped("cansada_mentalmente") && IsMapped("insegura")
  {
    MappedStressAndAnxiety(8, "cansada_mentalmente");
    MappedStressAndAnxiety(9, "insegura");
  }

  lemma UsedLabelsMapped6()
    ensures IsMapped("triste") && IsMapped("vacía")
  {
    MappedLowMood(0, "triste");
    MappedLowMood(1, "vacía");
  }

  lemma UsedLabelsMapped7()
    ensures IsMapped("sensible") && IsMapped("desesperanzada")
  {
    MappedLowMood(2, "sensible");
    MappedLowMood(9, "desesperanzada");
  }

  lemma UsedLabelsMapped8()
    ensures IsMapped("cansada_físicamente") && IsMapped("energética")
  {
    MappedPhysicalAndEnergy(0, "cansada_físicamente");
    MappedPhysicalAndEnergy(1, "energética");
  }

  lemma UsedLabelsMapped9()
    ensures IsMapped("activa") && IsMapped("poderosa")
  {
    MappedPhysicalAndEnergy(8, "activa");
    MappedSelfEsteem(0, "poderosa");
  }

  lemma UsedLabelsMapped10()
    ensures IsMapped("desconectada") && IsMapped("confiada")
  {
    MappedSelfEsteem(2, "desconectada");
    MappedSelfEsteem(3, "confiada");
  }

  lemma UsedLabelsMapped11()
    ensures IsMapped("en_paz_conmigo") && IsMapped("orgullosa_de_mí")
  {
    MappedSelfEsteem(5, "en_paz_conmigo");
    MappedSelfEsteem(7, "orgullosa_de_mí");
  }

  lemma UsedLabelsMapped12()
    ensures IsMapped("frágil")
  {
    MappedSelfEsteem(8, "frágil");
  }

  lemma Seg001FolStressChronicLabels(known: string -> bool)
    requires known("ansiosa") && known("abrumada") && known("impaciente")
    requires known("frustrada") && known("preocupada") && known("cansada_mentalmente")
    ensures LabelsMapped(Seg001FolStressChronic, known)
  {
  }

  lemma Seg001FolStressChronicMapped()
    ensures LabelsMapped(Seg001FolStressChronic, IsMapped)
  {
    UsedLabelsMapped1();
    UsedLabelsMapped2();
    UsedLabelsMapped3();
    UsedLabelsMapped4();
    UsedLabelsMapped5();
    Seg001FolStressChronicLabels(IsMapped);
  }

  lemma Seg002FolEnergeticLabels(known: string -> bool)
    requires known("energética") && known("activa") && known("poderosa")
    requires known("confiada") && known("en_paz_conmigo") && known("orgullosa_de_mí")
    ensures LabelsMapped(Seg002FolEnergetic, known)
  {
  }

  lemma Seg002FolEnergeticMapped()
    ensures LabelsMapped(Seg002FolEnergetic, IsMapped)
  {
    UsedLabelsMapped8();
    UsedLabelsMapped9();
    UsedLabelsMapped10();
    UsedLabelsMapped11();
    Seg002FolEnergeticLabels(IsMapped);
  }

  lemma Seg011LutAnxiousLabels(known: string -> bool)
    requires known("ansiosa") && known("tensa") && known("frustrada")
    requires known("preocupada") && known("estresada") && known("cansada_físicamente")
    ensures LabelsMapped(Seg011LutAnxious, known)
  {
  }

  lemma Seg011LutAnxiousMapped()
    ensures LabelsMapped(Seg011LutAnxious, IsMapped)
  {
    UsedLabelsMapped1();
    UsedLabelsMapped3();
    UsedLabelsMapped4();
    UsedLabelsMapped8();
    Seg011LutAnxiousLabels(IsMapped);
  }

  lemma SegPremen001Labels(known: string -> bool)
    requires known("nerviosa") && known("impaciente") && known("insegura")
    requires known("sensible") && known("desconectada") && known("frágil")
    ensures LabelsMapped(SegPremen001, known)
  {
  }

  lemma SegPremen001Mapped()
    ensures LabelsMapped(SegPremen001, IsMapped)
  {
    UsedLabelsMapped2();
    UsedLabelsMapped5();
    UsedLabelsMapped7();
    UsedLabelsMapped10();
    UsedLabelsMapped12();
    SegPremen001Labels(IsMapped);
  }

  lemma SegPeri001Labels(known: string -> bool)
    requires known("ansiosa") && known("abrumada") && known("frustrada")
    requires known("triste") && known("vacía") && known("cansada_físicamente")
    ensures LabelsMapped(SegPeri001, known)
  {
  }

  lemma SegPeri001Mapped()
    ensures LabelsMapped(SegPeri001, IsMapped)
  {
    UsedLabelsMapped1();
    UsedLabelsMapped3();
    UsedLabelsMapped6();
    UsedLabelsMapped8();
    SegPeri001Labels(IsMapped);
  }

  lemma SegMix001Labels(known: string -> bool)
    requires known("ansiosa") && known("nerviosa") && known("preocupada")
    requires known("energética") && known("activa") && known("confiada")
    ensures LabelsMapped(SegMix001, known)
  {
  }

  lemma SegMix001Mapped()
    ensures LabelsMapped(SegMix001, IsMapped)
  {
    UsedLabelsMapped1();
    UsedLabelsMapped2();
    UsedLabelsMapped4();
    UsedLabelsMapped8();
    UsedLabelsMapped9();
    UsedLabelsMapped10();
    SegMix001Labels(IsMapped);
  }

  lemma SegInt001Labels(known: string -> bool)
    requires known("ansiosa") && known("abrumada") && known("frustrada")
    requires known("triste") && known("desesperanzada") && known("cansada_físicamente")
    ensures LabelsMapped(SegInt001, known)
  {
  }

  lemma SegInt001Mapped()
    ensures LabelsMapped(SegInt001, IsMapped)
  {
    UsedLabelsMapped1();
    UsedLabelsMapped3();
    UsedLabelsMapped6();
    UsedLabelsMapped7();
    UsedLabelsMapped8();
    SegInt001Labels(IsMapped);
  }

  lemma MappedAt(es: Entries, i: nat, seg: Segment, known: string -> bool)
    requires i < |es|
    requires es[i].1 == seg
    requires LabelsMapped(seg, known)
    ensures LabelsMapped(es[i].1, known)
  {
  }

  lemma ShippedEntryMapped0()
    ensures LabelsMapped(ShippedEntries[0].1, IsMapped)
  {
    assert ShippedEntries[0].1 == Seg001FolStressChronic;
    Seg001FolStressChronicMapped();
    MappedAt(ShippedEntries, 0, Seg001FolStressChronic, IsMapped);
  }

  lemma ShippedEntryMapped1()
    ensures LabelsMapped(ShippedEntries[1].1, IsMapped)
  {
    assert ShippedEntries[1].1 == Seg002FolEnergetic;
    Seg002FolEnergeticMapped();
    MappedAt(ShippedEntries, 1, Seg002FolEnergetic, IsMapped);
  }

  lemma ShippedEntryMapped2()
    ensures LabelsMapped(ShippedEntries[2].1, IsMapped)
  {
    assert ShippedEntries[2].1 == Seg011LutAnxious;
    Seg011LutAnxiousMapped();
    MappedAt(ShippedEntries, 2, Seg011LutAnxious, IsMapped);
  }

  lemma ShippedEntryMapped3()
    ensures LabelsMapped(ShippedEntries[3].1, IsMapped)
  {
    assert ShippedEntries[3].1 == SegPremen001;
    SegPremen001Mapped();
    MappedAt(ShippedEntries, 3, SegPremen001, IsMapped);
  }

  lemma ShippedEntryMapped4()
    ensures LabelsMapped(ShippedEntries[4].1, IsMapped)
  {
    assert ShippedEntries[4].1 == SegPeri001;
    SegPeri001Mapped();
    MappedAt(ShippedEntries, 4, SegPeri001, IsMapped);
  }

  lemma ShippedEntryMapped5()
    ensures LabelsMapped(ShippedEntries[5].1, IsMapped)
  {
    assert ShippedEntries[5].1 == SegMix001;
    SegMix001Mapped();
    MappedAt(ShippedEntries, 5, SegMix001, IsMapped);
  }

  lemma ShippedEntryMapped6()
    ensures LabelsMapped(ShippedEntries[6].1, IsMapped)
  {
    assert ShippedEntries[6].1 == SegInt001;
    SegInt001Mapped();
    MappedAt(ShippedEntries, 6, SegInt001, IsMapped);
  }

  /** Seven entries whose labels are all known. */
  lemma SevenMapped(es: Entries, known: string -> bool)
    requires |es| == 7
    requires LabelsMapped(es[0].1, known) && LabelsMapped(es[1].1, known) && LabelsMapped(es[2].1, known)
    requires LabelsMapped(es[3].1, known) && LabelsMapped(es[4].1, known) && LabelsMapped(es[5].1, known)
    requires LabelsMapped(es[6].1, known)
    ensures forall i :: 0 <= i < |es| ==> LabelsMapped(es[i].1, known)
  {
  }

  /** Every label the shipped catalog uses is in the vocabulary, so by
      `NoInvalidIffMapped` the validator reports no invalid emotion for it. */
  lemma ShippedLabelsMapped()
    ensures forall i :: 0 <= i < |ShippedEntries| ==> LabelsMapped(ShippedEntries[i].1, IsMapped)
  {
    ShippedEntryMapped0();
    ShippedEntryMapped1();
    ShippedEntryMapped2();
    ShippedEntryMapped3();
    ShippedEntryMapped4();
    ShippedEntryMapped5();
    ShippedEntryMapped6();
    SevenMapped(ShippedEntries, IsMapped);
  }
}
