# Segment catalog, chunking and content bookkeeping of maura-rag-llm, in Dafny

This project models the deterministic core of a retrieval-augmented content
generator for menstrual-cycle wellbeing. Four Python files hold that core:

- **Chunking and tagging** (`document_processor/pdf_processor.py`, module
  `Chunking`).
  - Extracted document text is split into paragraphs. The paragraphs are
    grouped greedily into sections by a relatedness test. The embedding
    similarity behind that test is an abstract parameter; the lexical
    fallback (more than three shared lower-cased words) is written out.
  - Each section is cut into windows of at most 400 words.
  - Every chunk is tagged from keyword tables and classified by a
    first-match rule list.
  - Every chunk gets an additive confidence score, kept in integer tenths.
  - Before storage, metadata lists are flattened to strings and the chunks
    that have embeddings are selected.
- **Segment catalog** (`segment_processor/expanded_segments.py`, modules
  `SegmentRecords`, `SegmentJson`, `SegmentCatalog`).
  - The record types and the closed 49-entry emotion vocabulary.
  - `ExpandedSegmentDatabase`, the class `SegmentDatabase`, holds the
    segment dictionary as its items in insertion order. Its members are
    lookups, the category and phase filters, the emotion validator, the
    metadata projection, the search-keyword builder, and the dictionary
    conversions of `save_to_file` / `load_from_file`.
  - The seven shipped segments.
- **Content-generation bookkeeping**
  (`segment_processor/expanded_content_generator.py`, module
  `ContentGeneration`).
  - The priority lookup, the retrieval query terms and the instruction
    templates.
  - The control flow of generating one piece. The vector store and the
    language model are function parameters.
  - The batch over every segment and content type, and its statistics.
- **Bulk segment enumeration** (`generate_120_segments.py`, module
  `SegmentEnumeration`).
  - Nine sub-phases × six age groups × five emotional variants give 270
    records, despite the file's name.
  - Each record has zero-padded identifiers, display names, a presentation
    style, clamped content lengths, capped priorities in hundredths, and
    truncated keyword and related-segment lists.

`Common` and `Text` hold shared sequence helpers and the Python string
operations the core uses. These are `split()`, `join`, `strip`, `lower` /
`upper` / `title` (for ASCII and Latin-1 letters whose Python case mapping is one Latin-1 character), substring `in`, `replace` and
`:03d` zero-padding.

Units:
- Priorities are integer hundredths (0.95 is 95).
- Confidence is integer tenths.
- Emotion scores and `emotional_range` are integer tenths.

Python dictionaries are association lists with distinct keys, in insertion
order. The long text tables are parameters of the operations that read them:
- the prompt wording is `ContentGeneration.Wording`;
- the generator's translation and tone tables are
  `SegmentEnumeration.Vocabulary`.

The source's own text is `SourceWording` and `SourceVocabulary`. Lemmas about
a specific table, such as `EmotionNamesCover`, are stated on the source value.

Some results are behaviour of the code as written, proved as such:
- Chunk phase tags come only from the English keyword lists
  (`Chunking.PhaseTags`). A Spanish text such as "estrógeno creciente"
  therefore gets no phase tag. The specification describes Spanish
  matching; the model follows the code.
- In the enumeration, the presentation tone and structure tables and the
  symptom and similar-emotion tables are keyed by English emotion names.
  The generated emotions are Spanish, so those lookups always miss:
  - every record gets the default tone and structure
    (`SegmentEnumeration.PresentationIgnoresEmotions`);
  - no keyword list is ever cut (`SegmentEnumeration.GeneratedKeywordsUncut`);
  - the related list is always the five same-phase placeholders
    (`SegmentEnumeration.RelatedOtherAges`).

## Model

| member | source | states |
|---|---|---|
| `Chunking.NonBlankStripped` | document_processor/pdf_processor.py:271 | every kept piece is non-empty and has no leading or trailing whitespace; no more pieces than the input |
| `Chunking.NonBlankStrippedKept` | document_processor/pdf_processor.py:271 | the kept pieces are exactly the stripped versions of the non-blank pieces, one for each, in their original order |
| `Chunking.Paragraphs` | document_processor/pdf_processor.py:271 | the paragraphs are exactly the stripped non-blank pieces of `text.split('\n\n')`, in order, and each is stripped and non-empty |
| `Chunking.LexicalRelatedness` | document_processor/pdf_processor.py:305-308 | four distinct words shared by both lower-cased paragraphs make the fallback test true, in both argument orders |
| `Chunking.LexicalSymmetric` | document_processor/pdf_processor.py:305-308 | the lexical fallback test gives the same answer with its two paragraphs swapped |
| `Chunking.GroupShape` | document_processor/pdf_processor.py:274-289 | there are sections exactly when there are paragraphs, and no section is empty |
| `Chunking.GroupSnoc` | document_processor/pdf_processor.py:277-282 | one more paragraph joins the last section when related to its last paragraph, and opens a new section otherwise |
| `Chunking.SectioningOpen` | document_processor/pdf_processor.py:280-282 | opening a section for an unrelated paragraph keeps the sectioning invariant |
| `Chunking.SectioningExtend` | document_processor/pdf_processor.py:277-278 | appending a related paragraph to the last section keeps the sectioning invariant |
| `Chunking.GroupIsSectioning` | document_processor/pdf_processor.py:271-289 | the sections hold every paragraph once, in order. Consecutive paragraphs in a section are related; a section starts exactly where a paragraph is unrelated to its predecessor. Non-empty input gives at least one section |
| `Chunking.IdentifyDocumentSections` | document_processor/pdf_processor.py:266-289 | the loop returns the blank-line-joined texts of the greedy grouping of the paragraphs |
| `Chunking.WindowsPartition` | document_processor/pdf_processor.py:334-338 | the windows concatenate to the word list, each holds 1 to `n` words, and there are ceil(words / n) of them |
| `Chunking.SplitSectionIntoChunks` | document_processor/pdf_processor.py:327-340 | the stepped loop returns one space-joined chunk per window of `max_words` words |
| `Chunking.ChunksPartitionSection` | document_processor/pdf_processor.py:331-340 | re-splitting the chunks gives back `section.split()` in order. Each chunk has 1 to `max_words` words, there are ceil(words / max_words) chunks, and a blank section gives none |
| `Chunking.MatchingLabelsSpec` | document_processor/pdf_processor.py:359-361 | a label is reported exactly when one of its table entries has a keyword in the text; labels keep table order and repeat nowhere |
| `Chunking.MatchLabels` | document_processor/pdf_processor.py:389-393 | the tagging loop returns the matching labels in table order |
| `Chunking.PhaseTags` | document_processor/pdf_processor.py:359-361 | a chunk gets a phase tag exactly when its lower-cased text contains one of that phase's English keywords; no tag repeats |
| `Chunking.EmotionTags` | document_processor/pdf_processor.py:378-395 | a chunk gets an emotion tag exactly when its lower-cased text contains one of that emotion's keywords; no tag repeats |
| `Chunking.DetermineApplicableSegments` | document_processor/pdf_processor.py:397-416 | a segment is returned exactly when some input (phase, emotion) pair maps to it. There are no duplicates, and every segment is one of SEG001, SEG003, SEG011, SEG017 |
| `Chunking.FirstMatch` | document_processor/pdf_processor.py:431-435 | the result is the label of the first entry with a matching indicator, or the fallback exactly when no entry matches |
| `Chunking.ClassifyContentType` | document_processor/pdf_processor.py:418-435 | the result is one of the five types or "educational", and it is "educational" exactly when no indicator occurs in the lower-cased chunk |
| `Chunking.CountPresent` | document_processor/pdf_processor.py:450-451 | the number of medical terms present never exceeds the number of terms; it is zero exactly when no term occurs and equals the number of terms exactly when all occur |
| `Chunking.ConfidenceTenths` | document_processor/pdf_processor.py:437-458 | confidence lies in [5, 10] tenths. It is at least 7 for 100 to 500 words, and it is 5 exactly when no bonus applies (no length, medical-term or structure bonus) |
| `Chunking.CalculateContentConfidence` | document_processor/pdf_processor.py:437-458 | the accumulating method computes `ConfidenceTenths` |
| `Chunking.SetValue` | document_processor/pdf_processor.py:364-374 | assigning an existing key keeps every key and its position and changes only that value |
| `Chunking.AnalyzeChunkContent` | document_processor/pdf_processor.py:342-376 | the metadata has the six keys in their initial order, with the phase tags, emotion tags, mapped segments (each once), content type and the two fixed entries |
| `Chunking.DocMetadata` | document_processor/pdf_processor.py:172-187 | the metadata starts with source file, size and extraction method, and has a fourth entry (`total_pages`) exactly when the page count is known |
| `Chunking.BuildChunk` | document_processor/pdf_processor.py:246-260 | a chunk has the 12-character hash prefix as id, its own text, the tag metadata followed by the document metadata, the source file, its confidence and "local_extraction" |
| `Chunking.BuildChunks` | document_processor/pdf_processor.py:246-262 | one chunk per chunk text, in order |
| `Chunking.CreateIntelligentChunks` | document_processor/pdf_processor.py:233-264 | the chunks are, in order, those of every word window of every section of the text |
| `Chunking.FlattenValue` | document_processor/pdf_processor.py:495-501 | lists become strings that are empty exactly for an empty list or an empty join, and other values are unchanged |
| `Chunking.CleanMetadata` | document_processor/pdf_processor.py:492-503 | every key is kept in place, each value is flattened, and no list remains |
| `Chunking.NonEmptyEmbeddings` | document_processor/pdf_processor.py:480 | the filtered embeddings are non-empty and no more numerous than the chunks |
| `Chunking.AsWrittenPairsByPosition` | document_processor/pdf_processor.py:477-488 | as written, the number of records is the number of non-empty embeddings, and the k-th chunk is paired with the k-th non-empty embedding |
| `Chunking.AsWrittenMispairs` | document_processor/pdf_processor.py:480-485 | two chunks, the first without an embedding: the source stores the first chunk's text under the second chunk's embedding; the intended selection stores the second chunk |
| `Chunking.SelectValid` | document_processor/pdf_processor.py:482-485 | the records are exactly one per chunk with a non-empty embedding, in chunk order, each built from that chunk's own text, metadata, id and embedding |
| `Chunking.SelectionsAgreeWhenAllEmbedded` | document_processor/pdf_processor.py:477-488 | when every chunk has an embedding, the source's selection equals the intended one |
| `Chunking.SelectValidAllEmbedded` | document_processor/pdf_processor.py:482-485 | when every chunk has an embedding, every chunk is stored, at its own position |
| `Chunking.PrepareStoreBatch` | document_processor/pdf_processor.py:471-511 | for the k-th chunk with an embedding, the batch holds that chunk's text, id and embedding at position k, with its metadata keys kept and every value flattened to a scalar |
| `SegmentRecords.EmotionId` | segment_processor/expanded_segments.py:689-691 | the result is `None` exactly for a name outside the vocabulary, and otherwise that name's id |
| `SegmentRecords.VocabularyShape` | segment_processor/expanded_segments.py:93-156 | the vocabulary has 49 entries, with distinct names and distinct ids, and FEEL033 is not an id |
| `SegmentRecords.FeelThirtyThreeUnused` | segment_processor/expanded_segments.py:93-156 | no entry of the mapping uses FEEL033 |
| `SegmentJson.DemographicsRoundTrip` | segment_processor/expanded_segments.py:781-787 | the saved demographics dictionary loads back to the same record |
| `SegmentJson.HormonalRoundTrip` | segment_processor/expanded_segments.py:789-795 | the saved hormonal profile loads back to the same record |
| `SegmentJson.EmotionalRoundTrip` | segment_processor/expanded_segments.py:797-803 | the saved emotional characteristics load back to the same record |
| `SegmentJson.PhysicalFields` | segment_processor/expanded_segments.py:847-849 | the symptom record is rebuilt only when `common` is non-empty; otherwise it loads as `None` |
| `SegmentJson.PhysicalRoundTrip` | segment_processor/expanded_segments.py:805-809 | saved symptoms load back unchanged when `common` is non-empty, and as `None` otherwise |
| `SegmentJson.PreferencesRoundTrip` | segment_processor/expanded_segments.py:811-817 | the saved content preferences load back to the same record |
| `SegmentJson.RecommendedRoundTrip` | segment_processor/expanded_segments.py:819-826 | the six saved priorities load back to the same record |
| `SegmentJson.SegmentKeysShape` | segment_processor/expanded_segments.py:767-830 | a saved segment is an object with the twenty keys in order, each once |
| `SegmentJson.IdentityRoundTrip` | segment_processor/expanded_segments.py:855-858 | id, name, category and phase are read back unchanged |
| `SegmentJson.LabelsRoundTrip` | segment_processor/expanded_segments.py:859-862 | the four optional emotion labels are read back unchanged |
| `SegmentJson.ContextRoundTrip` | segment_processor/expanded_segments.py:863-866 | duration, age range, life stage and symptom count are read back unchanged |
| `SegmentJson.ProfilesRoundTrip` | segment_processor/expanded_segments.py:867-870 | the four profile sub-records are read back, the symptoms in normal form |
| `SegmentJson.GuidanceRoundTrip` | segment_processor/expanded_segments.py:871-874 | preferences, priorities, interventions and related ids are read back unchanged, including interventions and related ids that are `null` |
| `SegmentJson.SegmentRoundTrip` | segment_processor/expanded_segments.py:763-877 | loading a saved segment gives the segment back, except that a symptom record with an empty `common` list becomes `None` |
| `SegmentJson.UnknownKeysRejected` | segment_processor/expanded_segments.py:843-852 | a nested dictionary with a key its dataclass does not declare makes the load fail, for each of the six sub-records (for symptoms, only when the record is rebuilt) |
| `SegmentJson.MissingGuidanceKeyRejected` | segment_processor/expanded_segments.py:873-874 | a segment object without `intervention_priorities` or without `related_segments` is not loaded (the subscript raises), while a `null` value is read as `None` |
| `SegmentJson.ExtraDemographicsKey` | segment_processor/expanded_segments.py:843 | a demographics object with an undeclared extra key is rejected, while the same object without it loads with the two missing lists empty |
| `SegmentCatalog.Where` | segment_processor/expanded_segments.py:639 | a comprehension filter keeps exactly the wanted segments, each as often as it occurs |
| `SegmentCatalog.PartitionSpec` | segment_processor/expanded_segments.py:661-686 | each checked label lands in exactly one of valid or invalid, according to vocabulary membership; invalid is empty exactly when every checked emotion is known |
| `SegmentCatalog.NoInvalidIffMapped` | segment_processor/expanded_segments.py:649-687 | no invalid line is reported exactly when every label of every segment is in the vocabulary |
| `SegmentCatalog.Classify` | segment_processor/expanded_segments.py:661-686 | the validator loop appends exactly the valid and the invalid lines of the checks, in order |
| `SegmentCatalog.SearchKeywordsShape` | segment_processor/expanded_segments.py:741-761 | at most eight keywords. The first is "phase emotion" when the primary emotion is truthy. Each keyword comes from one of the four sources |
| `SegmentCatalog.GenerateSearchKeywords` | segment_processor/expanded_segments.py:741-761 | the appending method builds the keyword list: "phase emotion", then at most three symptoms, two primary emotions and two sensitivity factors |
| `SegmentCatalog.MetadataOf` | segment_processor/expanded_segments.py:699-739 | the projection lists three content types with the stored priorities, the search keywords (at most eight) and the fixed generation rules. Identity, category, phase and the emotion labels are copied, and the related ids are the segment's list, or empty when it is `None` |
| `SegmentCatalog.SaveEntries` | segment_processor/expanded_segments.py:765-830 | one encoded object per segment, under its own key, in order |
| `SegmentCatalog.DecodablePrefix` | segment_processor/expanded_segments.py:840-877 | loading stops at the first item that does not decode, which includes an item missing a subscripted key (`id`, `name`, `category`, `phase`, a sub-record, `intervention_priorities` or `related_segments`); every earlier item decodes |
| `SegmentCatalog.MissingGuidanceKeyStopsLoad` | segment_processor/expanded_segments.py:840-877 | when every item before it decodes, an item missing either guidance key ends the load exactly there, so the catalog keeps only the earlier items |
| `SegmentCatalog.SaveLoadRoundTrip` | segment_processor/expanded_segments.py:763-877 | saving then loading decodes every item and gives the same keys in the same order, each segment in normal form |
| `SegmentCatalog.SegmentDatabase.constructor` | segment_processor/expanded_segments.py:88-91 | a new database holds the seven shipped segments, in insertion order |
| `SegmentCatalog.SegmentDatabase.GetSegment` | segment_processor/expanded_segments.py:633-635 | the result is the stored segment under the id, and `None` exactly when the id is absent |
| `SegmentCatalog.SegmentDatabase.GetSegmentsByCategory` | segment_processor/expanded_segments.py:637-639 | exactly the stored segments of that category, each as often as stored |
| `SegmentCatalog.SegmentDatabase.GetSegmentsByPhase` | segment_processor/expanded_segments.py:641-643 | exactly the stored segments of that phase, each as often as stored |
| `SegmentCatalog.SegmentDatabase.GetSegmentMetadata` | segment_processor/expanded_segments.py:693-697 | the result is the empty dictionary (`None`) exactly for an absent id, and otherwise the stored segment's metadata |
| `SegmentCatalog.SegmentDatabase.ValidateEmotions` | segment_processor/expanded_segments.py:649-687 | valid and invalid are the partition of every label of every segment, and `missing_emotions` is empty |
| `SegmentCatalog.SegmentDatabase.SaveDocument` | segment_processor/expanded_segments.py:763-830 | the saved document is an object with the catalog's keys, in order |
| `SegmentCatalog.SegmentDatabase.LoadFromFile` | segment_processor/expanded_segments.py:835-877 | the dictionary is replaced by the decoded items up to the first failure, and success means every item decoded |
| `SegmentCatalog.LoadItems` | segment_processor/expanded_segments.py:840-877 | the loading loop decodes items in order up to the first failure and keeps keys distinct |
| `SegmentCatalog.ShippedKeysDistinct` | segment_processor/expanded_segments.py:177-631 | the seven shipped keys are distinct |
| `SegmentCatalog.ShippedKeysAreIds` | segment_processor/expanded_segments.py:177-631 | every shipped segment is stored under its own id |
| `SegmentCatalog.ShippedPrioritiesInRange` | segment_processor/expanded_segments.py:177-631 | all six recommended priorities of every shipped segment lie in [0, 1] |
| `SegmentCatalog.Seg001FolStressChronicMapped` | segment_processor/expanded_segments.py:177-243 | every emotion label of SEG001_FOL_STRESS_CHRONIC is in the vocabulary |
| `SegmentCatalog.Seg002FolEnergeticMapped` | segment_processor/expanded_segments.py:246-305 | every emotion label of SEG002_FOL_ENERGETIC is in the vocabulary |
| `SegmentCatalog.Seg011LutAnxiousMapped` | segment_processor/expanded_segments.py:308-373 | every emotion label of SEG011_LUT_ANXIOUS is in the vocabulary |
| `SegmentCatalog.SegPremen001Mapped` | segment_processor/expanded_segments.py:379-434 | every emotion label of SEG_PREMEN_001 is in the vocabulary |
| `SegmentCatalog.SegPeri001Mapped` | segment_processor/expanded_segments.py:437-500 | every emotion label of SEG_PERI_001 is in the vocabulary |
| `SegmentCatalog.SegMix001Mapped` | segment_processor/expanded_segments.py:506-562 | every emotion label of SEG_MIX_001 is in the vocabulary |
| `SegmentCatalog.SegInt001Mapped` | segment_processor/expanded_segments.py:568-631 | every emotion label of SEG_INT_001 is in the vocabulary |
| `SegmentCatalog.ShippedLabelsMapped` | segment_processor/expanded_segments.py:177-631 | every label of the shipped catalog is in the vocabulary, so with `NoInvalidIffMapped` the validator reports no invalid emotion |
| `ContentGeneration.PriorityMap` | segment_processor/expanded_content_generator.py:99-106 | the priority map has the six content types as keys, in order |
| `ContentGeneration.ContentPriority` | segment_processor/expanded_content_generator.py:95-108 | the result is the stored priority for each of the six types, and 0 for any other string |
| `ContentGeneration.PriorityAgreesWithMetadata` | segment_processor/expanded_segments.py:708-723 | the priorities the catalog metadata lists are the ones the generator looks up |
| `ContentGeneration.TypeQueriesKeys` | segment_processor/expanded_content_generator.py:155-162 | the query table covers exactly the six types, with four or five terms each |
| `ContentGeneration.QueryTermsShape` | segment_processor/expanded_content_generator.py:137-166 | one term per present segment source precedes the type's own terms. The first is "phase emotion" when the primary emotion is truthy; an unknown type adds no terms |
| `ContentGeneration.BuildQueryTerms` | segment_processor/expanded_content_generator.py:137-166 | the appending method builds the query terms in source order |
| `ContentGeneration.InstructionsShape` | segment_processor/expanded_content_generator.py:273-366 | a type outside the six gets the generic sentence, and each of the six templates names the segment's phase |
| `ContentGeneration.HormonalInfo` | segment_processor/expanded_content_generator.py:200-206 | the hormonal block fails (the join raises) exactly when sensitivity factors are missing |
| `ContentGeneration.PhysicalInfo` | segment_processor/expanded_content_generator.py:209-216 | the physical-symptoms block is empty for a segment without a symptom record, and otherwise begins with the block's fixed heading |
| `ContentGeneration.PhysicalInfoEmptyIff` | segment_processor/expanded_content_generator.py:209-216 | with a non-empty heading, the physical-symptoms block is empty exactly when the segment has no symptom record |
| `ContentGeneration.InterventionInfo` | segment_processor/expanded_content_generator.py:226-229 | the intervention block fails (the join raises) exactly when the intervention priorities are `None` |
| `ContentGeneration.PromptShape` | segment_processor/expanded_content_generator.py:168-271 | a prompt exists exactly when both the sensitivity factors and the intervention priorities exist; it contains the segment block, the retrieved context and the type's instructions |
| `ContentGeneration.SegmentInfoNames` | segment_processor/expanded_content_generator.py:177-187 | the segment block names the segment, its id and its phase |
| `ContentGeneration.GenerateForSpec` | segment_processor/expanded_content_generator.py:51-93 | content is returned exactly when there is a prompt and the model answers with non-empty text, returned unchanged. A non-empty custom prompt replaces the built one |
| `ContentGeneration.PromptIgnoresPriorities` | segment_processor/expanded_content_generator.py:168-271 | the prompt does not depend on the recommended content types |
| `ContentGeneration.PriorityNotConsulted` | segment_processor/expanded_content_generator.py:67-70 | a priority below 0.5 only logs; the generated content does not depend on the priorities |
| `ContentGeneration.GenerateContentForSegment` | segment_processor/expanded_content_generator.py:60-65 | an unknown segment id gives `None`, and a known one gives that segment's generation |
| `ContentGeneration.Bump` | segment_processor/expanded_content_generator.py:467 | a new key goes last, and an existing key keeps its place |
| `ContentGeneration.BumpCounts` | segment_processor/expanded_content_generator.py:465-479 | one increment adds one to its key's count and to the total, and changes nothing else |
| `ContentGeneration.TallySpec` | segment_processor/expanded_content_generator.py:463-479 | each counter has every key once, in first-occurrence order, with its number of occurrences, and sums to the input length |
| `ContentGeneration.DistributionSpec` | segment_processor/expanded_content_generator.py:484-490 | high + medium + low equals the total. High counts priorities from 0.8, and medium counts those in [0.5, 0.8) |
| `ContentGeneration.StatisticsConsistent` | segment_processor/expanded_content_generator.py:455-492 | every counter, and the priority distribution, sums to `total_pieces` |
| `ContentGeneration.GenerateStatistics` | segment_processor/expanded_content_generator.py:455-492 | the counting loop computes the statistics of the records |
| `ContentGeneration.SourceProducerNonEmpty` | segment_processor/expanded_content_generator.py:84-89 | the per-piece generation never returns empty content |
| `ContentGeneration.SegmentRecordsDescribe` | segment_processor/expanded_content_generator.py:394-417 | every record of a segment describes it, for a visited content type, with at most one record per type |
| `ContentGeneration.SegmentRecordsEmpty` | segment_processor/expanded_content_generator.py:394-417 | a segment has no records exactly when no content type produced content |
| `ContentGeneration.SegmentRecordsComplete` | segment_processor/expanded_content_generator.py:394-417 | when every type produces content, the records have exactly the visited types, in order |
| `ContentGeneration.BatchRecordsDescribe` | segment_processor/expanded_content_generator.py:391-417 | every batch record describes a stored segment and one of the six types, with at most six per segment |
| `ContentGeneration.BatchRecordsEmpty` | segment_processor/expanded_content_generator.py:391-417 | the batch is empty exactly when no (segment, type) combination produced content |
| `ContentGeneration.BatchRecordsComplete` | segment_processor/expanded_content_generator.py:391-417 | when every combination produces content, there are six records per segment |
| `ContentGeneration.BatchContentNonEmpty` | segment_processor/expanded_content_generator.py:405-417 | every batch record carries non-empty content |
| `ContentGeneration.BatchTypesKnown` | segment_processor/expanded_content_generator.py:465-467 | the content types counted in the statistics are among the six |
| `ContentGeneration.GenerateSegmentRecords` | segment_processor/expanded_content_generator.py:394-425 | the inner loop keeps, in order, the records of the types that produced content |
| `ContentGeneration.GenerateForAll` | segment_processor/expanded_content_generator.py:368-453 | the records are the batch in dictionary and type order. The result is success with the count and statistics exactly when there is at least one record, and the "No se generó contenido" failure otherwise |
| `Text.Pad3Value` | generate_120_segments.py:109 | below 1000, `:03d` gives three digits whose value is the number |
| `Text.Pad3Injective` | generate_120_segments.py:109 | below 1000, different numbers pad to different strings |
| `SegmentEnumeration.AgeTablesAgree` | generate_120_segments.py:32-39 | the age table's keys are the six age ranges, in order and distinct |
| `SegmentEnumeration.OffsetTotal` | generate_120_segments.py:12-30 | the phase table has nine sub-phases in all |
| `SegmentEnumeration.Slots` | generate_120_segments.py:59-60 | there are nine (phase, sub-phase) combinations |
| `SegmentEnumeration.SlotAt` | generate_120_segments.py:59-60 | sub-phase `s` of phase `p` is combination number offset(p) + s, in table order |
| `SegmentEnumeration.VariantFor` | generate_120_segments.py:63-104 | every emotion index stays in bounds. A conflict exists exactly when resolution is needed, which is for variants 1 and 3. Intensity is high for variants 0 and 1, and low for variant 4 |
| `SegmentEnumeration.SegmentIdEndsWithCounter` | generate_120_segments.py:107-109 | below 1000, an identifier ends with the three digits of its counter |
| `SegmentEnumeration.SegmentIdsDistinct` | generate_120_segments.py:107-109 | identifiers with different counters below 1000 differ |
| `SegmentEnumeration.LengthFor` | generate_120_segments.py:395-402 | the length is "corta" exactly for ages 8-12 |
| `SegmentEnumeration.UrgencyFor` | generate_120_segments.py:405-411 | urgency is "alta" exactly for very_high, and "baja" exactly for low and very_low |
| `SegmentEnumeration.PresentationStyle` | generate_120_segments.py:368-419 | length "corta" and language "simple_español" occur exactly for ages 8-12, with urgency as `UrgencyFor` |
| `SegmentEnumeration.PresentationIgnoresEmotions` | generate_120_segments.py:372-415 | with the source tables, every generated emotion gets the default tone and structure |
| `SegmentEnumeration.EnglishKeysMissEmotions` | generate_120_segments.py:372-392 | no generated emotion is a key of the tone or structure table |
| `SegmentEnumeration.BaseLength` | generate_120_segments.py:709-718 | the base length lies in [400, 600], and an unknown age range has 600 |
| `SegmentEnumeration.MaxLength` | generate_120_segments.py:706-726 | the length lies in [300, 800]. High intensities add 200, low ones subtract 100, and others keep the base |
| `SegmentEnumeration.BaseTone` | generate_120_segments.py:605 | an unknown content type, or an emotion the type's row does not list, gets "empático_educativo"; otherwise the row's tone |
| `SegmentEnumeration.ToneForContent` | generate_120_segments.py:545-614 | below high intensity the tone is unchanged. At high intensity a tone containing "tranquilizador" has it replaced by "muy_tranquilizador"; failing that, one containing "empoderador" has it replaced by "muy_empoderador"; any other tone is unchanged |
| `SegmentEnumeration.DefaultToneKept` | generate_120_segments.py:605-614 | the default tone survives every intensity unchanged |
| `SegmentEnumeration.Priority` | generate_120_segments.py:425-460 | every adjusted priority lies in [60, 95] hundredths. At high intensity, `whats_happening` is 95 and `stress_levels` at least 90. For ages 8-12, `lesson_3min` and `whats_happening` are 95 and `cycle_day_info` at least 80 |
| `SegmentEnumeration.ApplicableContentComplete` | generate_120_segments.py:462-473 | all six types are applicable, in order, each with its priority and tone |
| `SegmentEnumeration.Priorities` | generate_120_segments.py:424-460 | the dictionary overwrites leave exactly the priorities `Priority` states |
| `SegmentEnumeration.ApplicableContent` | generate_120_segments.py:421-473 | the loop builds the applicable-content map of the six types |
| `SegmentEnumeration.SearchKeywords` | generate_120_segments.py:616-666 | the appending method returns the first eight items of the keyword list |
| `SegmentEnumeration.KeywordsShape` | generate_120_segments.py:619-666 | there are 1 to 8 keywords. The first is the lower-cased phase name and the primary emotion; the emotion pair is second when the secondary is present and differs. Symptom, phase and age words follow in order |
| `SegmentEnumeration.GeneratedKeywordsUncut` | generate_120_segments.py:630-666 | with the source tables, generated records get no symptom words and their list never exceeds eight items |
| `SegmentEnumeration.SymptomKeysMissEmotions` | generate_120_segments.py:630-640 | no generated emotion is a key of the symptom table |
| `SegmentEnumeration.KeywordTablesShort` | generate_120_segments.py:643-664 | the phase and age keyword lists have at most three words each |
| `SegmentEnumeration.RelatedSegments` | generate_120_segments.py:668-704 | the three loops' list is cut to its first five items |
| `SegmentEnumeration.SameAgePlaceholders` | generate_120_segments.py:673-676 | the first loop lists the same-phase placeholders of the other ages |
| `SegmentEnumeration.OtherPhasePlaceholders` | generate_120_segments.py:678-688 | the second loop lists the same-age placeholders of the other phases |
| `SegmentEnumeration.SimilarPlaceholders` | generate_120_segments.py:690-702 | the third loop lists one placeholder per similar emotion |
| `SegmentEnumeration.SameAgeSkips` | generate_120_segments.py:673-676 | the same-phase list skips exactly the segment's own age range |
| `SegmentEnumeration.SameAgeKeepsAll` | generate_120_segments.py:673-676 | an age range outside the table skips nothing |
| `SegmentEnumeration.RelatedExactlyFive` | generate_120_segments.py:671-704 | there are always exactly five related segments |
| `SegmentEnumeration.RelatedOtherAges` | generate_120_segments.py:671-704 | for a tabled age range, the five related ids are the same-phase placeholders of the other five ages, in order |
| `SegmentEnumeration.Enumeration` | generate_120_segments.py:59-198 | the generator yields 270 records |
| `SegmentEnumeration.EnumerationAt` | generate_120_segments.py:59-196 | record k is variant k mod 5, of age group (k / 5) mod 6, of combination k / 30, with counter k + 1 |
| `SegmentEnumeration.BuildSegment` | generate_120_segments.py:106-193 | the innermost loop body builds the record of its combination, variant and counter |
| `SegmentEnumeration.GenerateSegments` | generate_120_segments.py:6-198 | the four nested loops return exactly the enumeration |
| `SegmentEnumeration.AppendSlot` | generate_120_segments.py:61-196 | the age-group loop extends the records to the next 30 of the enumeration and keeps the counter one past their number |
| `SegmentEnumeration.AppendVariants` | generate_120_segments.py:63-196 | the variant loop extends the records to the next five of the enumeration and keeps the counter one past their number |
| `SegmentEnumeration.NextSegment` | generate_120_segments.py:106-196 | one step builds enumeration record counter - 1 |
| `SegmentEnumeration.EnumerationIdsDistinct` | generate_120_segments.py:107-109 | the 270 identifiers are pairwise distinct |
| `SegmentEnumeration.EnumerationVariants` | generate_120_segments.py:63-157 | a conflict exists exactly when resolution is needed, for variants 1 and 3. Both emotions have intensity 2 exactly at high and very_high intensity, which are variants 0 and 1 |
| `SegmentEnumeration.EnumerationMetadata` | generate_120_segments.py:164-192 | every record has max length in [300, 800], all six types with priorities in [60, 95], at most eight keywords, and five related ids, each the same-phase placeholder of another age |
| `SegmentEnumeration.RecordMetadata` | generate_120_segments.py:164-192 | the same metadata bounds, for any combination, variant and counter |
| `SegmentEnumeration.RecordApplicable` | generate_120_segments.py:176 | every record lists all six types with priorities in [60, 95] |
| `SegmentEnumeration.RecordRelated` | generate_120_segments.py:180 | every record lists the five same-phase placeholders of the other ages |
| `SegmentEnumeration.EmotionNamesCover` | generate_120_segments.py:203-228 | every generated emotion has a stored display name, so none falls back to title-casing |
| `SegmentEnumeration.PhaseNamesCover` | generate_120_segments.py:233-252 | every generated sub-phase has a stored Spanish name |

## Left out

- PDF extraction (pdfplumber, PyPDF2), `_clean_medical_text` and file sizes: library calls, file I/O, and a regular expression over Python's Unicode `\w` class. The text and the document metadata are inputs.
- Embeddings, `_cosine_similarity` and the similarity threshold: an ML model and floating point. The embedding verdict of `_paragraphs_are_related` is a parameter (`Some(related)` or `None` when the model fails), and the lexical fallback is written out.
- The spaCy call in `_analyze_chunk_content`: its result is unused.
- MD5: `chunk_id` is the first 12 characters of an opaque function of the chunk text. Embedding generation is left out, so chunks are built without embeddings and the store selection takes them as given.
- Every Chroma call (connection, collection set-up, `add`, `query`). `collection.add` is represented by the batch it would receive; a query is a `Retriever` function parameter.
- The Ollama client: the language model is a `Generator` function parameter. Exceptions inside generation are not modelled, except the `', '.join(None)` failure of the prompt builder, which gives `None`.
- JSON file reads and writes, the export path, `time.strftime` timestamps (`generated_at` is not in `ContentRecord`), and logging.
- `get_all_segments`: it returns the dictionary itself; the model reads `SegmentDatabase.segments`.
- The seven shipped segments are transcribed field by field. Floats are in hundredths or tenths, and their `emotional_range` values are opaque integers.
- `Chunking.NonBlankStripped`: its own contract states only that the kept pieces are trimmed and no more than the input; that they are exactly the stripped non-blank pieces, in order, is stated by `Chunking.NonBlankStrippedKept` and by the contract of `Chunking.Paragraphs`.
- `ContentGeneration.PromptShape`: the prompt exists exactly when the sensitivity factors and the intervention priorities are both lists; the other joined lists are mandatory in the model. The prompt's fixed wording is the `Wording` parameter. `SourceWording` holds the source's text, and no lemma fixes its exact characters.
- The generator's text tables are the `Vocabulary` parameter, and `SourceVocabulary` holds them. Lemmas about a specific table use the source value; the rest hold for any vocabulary.
- `generate_120_segments.py` descriptive helpers: generated records omit the fields they fill, and the constant `True` generation-rule flags. These helpers hold logic that is therefore not modelled: `get_hormonal_context` picks a cortisol level from the primary emotion and derives `optimal_balance` (generate_120_segments.py:283-313); `get_emotion_description` varies the text with the age range (generate_120_segments.py:265-281); `get_focus_areas_for_content` rewrites the `liderazgo` and `carrera` focus areas for ages 8-12 (generate_120_segments.py:475-543); `get_content_needs`, the sub-phase descriptions, the age characteristics and the `intensity_levels` table are fixed text.
- `main()` of `generate_120_segments.py`: it writes the records to a JSON file and prints a summary.
- Orchestration scripts, validators, configuration modules, `create_segments_json.py` and `docs/emotions.js`: glue, I/O or static data outside the core.
- `Segment`: `demographics`, `hormonal_profile`, `emotional_characteristics`, `content_preferences` and `recommended_content_types` are mandatory. The dataclass declares them `Optional`, but `save_to_file` reads their attributes and `load_from_file` rebuilds them with `Cls(**data[...])`, so a `None` there cannot be saved or loaded; the `if segment.emotional_characteristics` guards (segment_processor/expanded_segments.py:674, 754) are therefore always true in the model.
- `SegmentJson.DecodeSegment`: a field whose JSON value has another type than the dataclass annotation (for example a number where a string list is expected, or `null` for a required list) makes the model's load return `None`, while Python stores the value unchecked. Keys are read from the first occurrence, whereas `json.load` keeps the last value of a duplicated key.
- `Text.Lower`, `Text.Upper`, `Text.Title`: case mappings outside the ASCII and Latin-1 letters that map to one Latin-1 character are not modelled. Such characters are kept unchanged, whereas Python maps 'ß' to "SS" (upper) or "Ss" (title), 'ÿ' to 'Ÿ', 'µ' to 'Μ', and non-Latin-1 letters such as the Kelvin sign U+212A to 'k' (lower). A keyword match on document text that needs such a mapping is therefore not modelled.
- `SegmentEnumeration.Priority`: Python's `round(priority, 2)` is not modelled, because in hundredths every value is already exact.

## Findings

| source | as written | input that shows it | evidently intended | confidence | as-written member | corrected member |
|---|---|---|---|---|---|---|
| document_processor/pdf_processor.py:480-485 | `embeddings` is filtered to the chunks that have one before it is zipped by position with the unfiltered documents, metadata and ids | two chunks, the first with no embedding and the second with `[1.0]`: the first chunk's text and id are stored with the second chunk's embedding, and the second chunk is dropped | keep exactly the chunks that have an embedding, each with its own text, metadata and id | not executed | `Chunking.AsWrittenMispairs` | `Chunking.SelectValid` |
