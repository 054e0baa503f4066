/** Chunking and tagging of extracted document text: how `MedicalDocumentProcessor`
    groups paragraphs into sections, cuts sections into word windows, tags each
    window with cycle phases, emotions, target segments and a content type, scores
    it, and prepares the batch written to the vector store. */
module Chunking {
  import opened Common
  import opened Text

  // ------------------------------------------------------------------
  // Paragraphs and relatedness
  // ------------------------------------------------------------------

  /** A piece that survives the filter `if p.strip()`. */
  predicate NonBlank(p: string)
  {
    Strip(p) != []
  }

  /** A non-empty text that starts and ends with a non-whitespace character. */
  predicate Trimmed(s: string)
  {
    s != [] && !IsSpace(s[0]) && !IsSpace(s[|s| - 1])
  }

  /** The stripped, non-blank pieces, in order. */
  function NonBlankStripped(pieces: seq<string>): (ps: seq<string>)
    ensures forall k :: 0 <= k < |ps| ==> Trimmed(ps[k])
    ensures |ps| <= |pieces|
  {
    if pieces == [] then []
    else
      var p := Strip(pieces[|pieces| - 1]);
      var rest := NonBlankStripped(pieces[..|pieces| - 1]);
      if p != [] then rest + [p] else rest
  }

  /** `ps` holds, in order, the stripped pieces at the positions `ix`. */
  predicate StrippedAt(ps: seq<string>, pieces: seq<string>, ix: seq<nat>)
  {
    |ps| == |ix| && forall k :: 0 <= k < |ix| ==> ix[k] < |pieces| && ps[k] == Strip(pieces[ix[k]])
  }

  /** Positions into a prefix keep their pieces in the whole sequence, and
      one more kept position extends the match. */
  lemma StrippedAtExtend(ps: seq<string>, pieces: seq<string>, ix: seq<nat>, extra: seq<string>, tail: seq<nat>)
    requires pieces != []
    requires StrippedAt(ps, pieces[..|pieces| - 1], ix)
    requires (tail == [] && extra == []) || (tail == [|pieces| - 1] && extra == [Strip(pieces[|pieces| - 1])])
    ensures StrippedAt(ps + extra, pieces, ix + tail)
  {
    var front := pieces[..|pieces| - 1];
    forall k | 0 <= k < |ix|
      ensures front[ix[k]] == pieces[ix[k]]
    {
    }
  }

  /** The kept pieces are exactly the stripped pieces at the positions the
      filter keeps, in order. */
  lemma {:induction false} NonBlankStrippedKept(pieces: seq<string>)
    ensures StrippedAt(NonBlankStripped(pieces), pieces, KeptIndices(pieces, NonBlank))
    decreases |pieces|
  {
    if pieces != [] {
      var n := |pieces| - 1;
      NonBlankStrippedKept(pieces[..n]);
      var tail: seq<nat> := if NonBlank(pieces[n]) then [n] else [];
      var extra := if NonBlank(pieces[n]) then [Strip(pieces[n])] else [];
      assert KeptIndices(pieces, NonBlank) == KeptIndices(pieces[..n], NonBlank) + tail;
      assert NonBlankStripped(pieces) == NonBlankStripped(pieces[..n]) + extra;
      StrippedAtExtend(NonBlankStripped(pieces[..n]), pieces, KeptIndices(pieces[..n], NonBlank), extra, tail);
    }
  }

  /** `[p.strip() for p in text.split('\n\n') if p.strip()]`: every paragraph is
      non-empty and starts and ends with a non-whitespace character, and the
      paragraphs are the stripped pieces the filter keeps, in order. */
  function Paragraphs(text: string): (ps: seq<string>)
    ensures forall k :: 0 <= k < |ps| ==> Trimmed(ps[k])
    ensures StrippedAt(ps, SplitOn(text, "\n\n"), KeptIndices(SplitOn(text, "\n\n"), NonBlank))
  {
    NonBlankStrippedKept(SplitOn(text, "\n\n"));
    NonBlankStripped(SplitOn(text, "\n\n"))
  }

  /** The distinct lower-cased whitespace-separated words of a paragraph. */
  function WordSet(p: string): set<string>
  {
    set w | w in Words(Lower(p))
  }

  /** The lexical fallback of `_paragraphs_are_related`: more than three shared
      lower-cased words. */
  predicate LexicallyRelated(p1: string, p2: string)
  {
    |WordSet(p1) * WordSet(p2)| > 3
  }

  /** What the embedding path yields for two paragraphs: `Some(similarity > 0.7)`,
      or `None` when computing the embeddings raised. The model and the cosine
      similarity are not part of this model. */
  type Similarity = (string, string) -> Option<bool>

  /** `_paragraphs_are_related`: the embedding verdict when there is one, the
      lexical fallback otherwise. */
  predicate Related(sim: Similarity, p1: string, p2: string)
  {
    match sim(p1, p2)
    case Some(above) => above
    case None => LexicallyRelated(p1, p2)
  }

  lemma {:induction false} SubsetCardinality<T>(a: set<T>, b: set<T>)
    requires a <= b
    ensures |a| <= |b|
    decreases |b|
  {
    if a != {} {
      var x :| x in a;
      SubsetCardinality(a - {x}, b - {x});
    }
  }

  /** The lexical test does not depend on the order of the paragraphs. */
  lemma LexicalSymmetric(p1: string, p2: string)
    ensures LexicallyRelated(p1, p2) == LexicallyRelated(p2, p1)
  {
    assert WordSet(p1) * WordSet(p2) == WordSet(p2) * WordSet(p1);
  }

  /** The lexical test is symmetric, and four distinct words present in both
      paragraphs (after lower-casing) are enough to relate them. */
  lemma LexicalRelatedness(p1: string, p2: string, w1: string, w2: string, w3: string, w4: string)
    requires w1 != w2 && w1 != w3 && w1 != w4 && w2 != w3 && w2 != w4 && w3 != w4
    requires w1 in Words(Lower(p1)) && w2 in Words(Lower(p1)) && w3 in Words(Lower(p1)) && w4 in Words(Lower(p1))
    requires w1 in Words(Lower(p2)) && w2 in Words(Lower(p2)) && w3 in Words(Lower(p2)) && w4 in Words(Lower(p2))
    ensures LexicallyRelated(p1, p2) && LexicallyRelated(p2, p1)
  {
    var a, b := WordSet(p1), WordSet(p2);
    assert w1 in a && w2 in a && w3 in a && w4 in a;
    assert w1 in b && w2 in b && w3 in b && w4 in b;
    FourShared(a, b, w1, w2, w3, w4);
    assert a * b == b * a;
  }

  lemma FourShared<T>(a: set<T>, b: set<T>, w1: T, w2: T, w3: T, w4: T)
    requires w1 != w2 && w1 != w3 && w1 != w4 && w2 != w3 && w2 != w4 && w3 != w4
    requires w1 in a && w2 in a && w3 in a && w4 in a
    requires w1 in b && w2 in b && w3 in b && w4 in b
    ensures |a * b| > 3
  {
    var common := {w1, w2, w3, w4};
    assert |common| == 4;
    SubsetCardinality(common, a * b);
  }

  // ------------------------------------------------------------------
  // Sections (_identify_document_sections)
  // ------------------------------------------------------------------

  /** The greedy grouping of paragraphs into sections: a paragraph joins the
      current section when it is related to the paragraph just before it and
      opens a new section otherwise. */
  function Group(ps: seq<string>, sim: Similarity): seq<seq<string>>
    decreases |ps|
  {
    if ps == [] then []
    else
      var g := Group(ps[..|ps| - 1], sim);
      var p := ps[|ps| - 1];
      if g == [] || !Related(sim, g[|g| - 1][|g[|g| - 1]| - 1], p) then g + [[p]]
      else g[..|g| - 1] + [g[|g| - 1] + [p]]
  }

  /** There are sections exactly when there are paragraphs, and none is empty. */
  lemma {:induction false} GroupShape(ps: seq<string>, sim: Similarity)
    ensures (Group(ps, sim) == []) == (ps == [])
    ensures forall k :: 0 <= k < |Group(ps, sim)| ==> Group(ps, sim)[k] != []
    decreases |ps|
  {
    if ps != [] {
      var g := Group(ps[..|ps| - 1], sim);
      GroupShape(ps[..|ps| - 1], sim);
      var r := Group(ps, sim);
      forall k | 0 <= k < |r| ensures r[k] != [] {
        if k < |g| - 1 {
          assert r[k] == g[k];
        }
      }
    }
  }

  /** `G` splits `ps` into non-empty runs of consecutive paragraphs, each
      paragraph related to its predecessor inside a run and unrelated to the
      last paragraph of the previous run at a run boundary. */
  ghost predicate IsSectioning(G: seq<seq<string>>, ps: seq<string>, sim: Similarity)
  {
    && Flatten(G) == ps
    && (forall k :: 0 <= k < |G| ==> G[k] != [])
    && (forall k, j :: 0 <= k < |G| && 0 <= j < |G[k]| - 1 ==> Related(sim, G[k][j], G[k][j + 1]))
    && (forall k :: 0 <= k < |G| - 1 ==> !Related(sim, G[k][|G[k]| - 1], G[k + 1][0]))
  }

  /** One step of the grouping: how the sections change when one paragraph is
      appended. */
  lemma GroupSnoc(ps: seq<string>, p: string, sim: Similarity)
    ensures var g := Group(ps, sim);
      Group(ps + [p], sim)
        == if g == [] || !Related(sim, g[|g| - 1][|g[|g| - 1]| - 1], p) then g + [[p]]
           else g[..|g| - 1] + [g[|g| - 1] + [p]]
  {
    assert (ps + [p])[..|ps + [p]| - 1] == ps;
  }

  /** Opening a new section for an unrelated paragraph keeps a sectioning. */
  lemma SectioningOpen(g: seq<seq<string>>, ps: seq<string>, p: string, sim: Similarity)
    requires IsSectioning(g, ps, sim)
    requires g == [] || !Related(sim, g[|g| - 1][|g[|g| - 1]| - 1], p)
    ensures IsSectioning(g + [[p]], ps + [p], sim)
  {
    var G := g + [[p]];
    assert G[..|G| - 1] == g;
    forall k, j | 0 <= k < |G| && 0 <= j < |G[k]| - 1
      ensures Related(sim, G[k][j], G[k][j + 1])
    {
      assert G[k] == g[k];
    }
    forall k | 0 <= k < |G| - 1
      ensures !Related(sim, G[k][|G[k]| - 1], G[k + 1][0])
    {
      assert G[k] == g[k];
      if k + 1 < |g| {
        assert G[k + 1] == g[k + 1];
      }
    }
  }

  /** Appending a related paragraph to the last section keeps a sectioning. */
  lemma SectioningExtend(g: seq<seq<string>>, ps: seq<string>, p: string, sim: Similarity)
    requires IsSectioning(g, ps, sim)
    requires g != [] && Related(sim, g[|g| - 1][|g[|g| - 1]| - 1], p)
    ensures IsSectioning(g[..|g| - 1] + [g[|g| - 1] + [p]], ps + [p], sim)
  {
    var init := g[..|g| - 1];
    var last := g[|g| - 1];
    var G := init + [last + [p]];
    assert g == init + [last];
    assert G[..|G| - 1] == init;
    assert Flatten(G) == Flatten(init) + (last + [p]);
    forall k, j | 0 <= k < |G| && 0 <= j < |G[k]| - 1
      ensures Related(sim, G[k][j], G[k][j + 1])
    {
      if k < |G| - 1 {
        assert G[k] == g[k];
      } else if j < |last| - 1 {
        assert G[k][j] == last[j] && G[k][j + 1] == last[j + 1];
      } else {
        assert G[k][j] == last[|last| - 1] && G[k][j + 1] == p;
      }
    }
    forall k | 0 <= k < |G| - 1
      ensures !Related(sim, G[k][|G[k]| - 1], G[k + 1][0])
    {
      assert G[k] == g[k];
      if k + 1 < |G| - 1 {
        assert G[k + 1] == g[k + 1];
      } else {
        assert G[k + 1][0] == last[0];
      }
    }
  }

  /** Grouping keeps every paragraph exactly once and in order, starts a new
      section exactly where a paragraph is unrelated to its predecessor, and
      yields at least one section for at least one paragraph. */
  lemma {:induction false} GroupIsSectioning(ps: seq<string>, sim: Similarity)
    ensures IsSectioning(Group(ps, sim), ps, sim)
    ensures |ps| > 0 ==> |Group(ps, sim)| > 0
    decreases |ps|
  {
    if ps != [] {
      var ps' := ps[..|ps| - 1];
      var p := ps[|ps| - 1];
      GroupIsSectioning(ps', sim);
      assert ps == ps' + [p];
      GroupSnoc(ps', p, sim);
      var g := Group(ps', sim);
      if g == [] || !Related(sim, g[|g| - 1][|g[|g| - 1]| - 1], p) {
        SectioningOpen(g, ps', p, sim);
      } else {
        SectioningExtend(g, ps', p, sim);
      }
    }
  }

  /** The text of each group of words or paragraphs, joined by `sep`: a section's
      paragraphs by a blank line, a window's words by single spaces. */
  function JoinEach(sep: string, G: seq<seq<string>>): (texts: seq<string>)
    ensures |texts| == |G|
  {
    seq(|G|, k requires 0 <= k < |G| => Join(sep, G[k]))
  }

  /** The closed sections followed by the open one, if any. */
  function WithOpen(done: seq<seq<string>>, current: seq<string>): seq<seq<string>>
  {
    done + (if current == [] then [] else [current])
  }

  /** `_identify_document_sections`: the section texts of the greedy grouping of
      the document's paragraphs. */
  method IdentifyDocumentSections(text: string, sim: Similarity) returns (sections: seq<string>)
    ensures sections == JoinEach("\n\n", Group(Paragraphs(text), sim))
  {
    sections := GroupSections(Paragraphs(text), sim);
  }

  /** The loop of `_identify_document_sections` over the paragraphs: the open
      section grows while paragraphs stay related and is closed otherwise. */
  method GroupSections(paragraphs: seq<string>, sim: Similarity) returns (sections: seq<string>)
    ensures sections == JoinEach("\n\n", Group(paragraphs, sim))
  {
    sections := [];
    var current: seq<string> := [];
    ghost var done: seq<seq<string>> := [];
    for i := 0 to |paragraphs|
      invariant (current == []) == (i == 0)
      invariant Group(paragraphs[..i], sim) == WithOpen(done, current)
      invariant sections == JoinEach("\n\n", done)
    {
      var p := paragraphs[i];
      if |current| == 0 || Related(sim, current[|current| - 1], p) {
        GroupStepJoin(paragraphs, i, sim, done, current);
        current := current + [p];
      } else {
        GroupStepOpen(paragraphs, i, sim, done, current);
        SectionTextsSnoc(done, current);
        sections := sections + [Join("\n\n", current)];
        done := done + [current];
        current := [p];
      }
    }
    assert paragraphs[..|paragraphs|] == paragraphs;
    if |current| > 0 {
      SectionTextsSnoc(done, current);
      sections := sections + [Join("\n\n", current)];
      done := done + [current];
    }
  }

  /** A paragraph related to the last one (or the first paragraph) joins the
      open section. */
  lemma GroupStepJoin(ps: seq<string>, i: nat, sim: Similarity, done: seq<seq<string>>, current: seq<string>)
    requires i < |ps|
    requires (current == []) == (i == 0)
    requires Group(ps[..i], sim) == WithOpen(done, current)
    requires current == [] || Related(sim, current[|current| - 1], ps[i])
    ensures Group(ps[..i + 1], sim) == WithOpen(done, current + [ps[i]])
  {
    if current == [] {
      assert ps[..1] == [ps[0]] && ps[..1][..0] == [];
      assert Group(ps[..0], sim) == [];
    } else {
      GroupStepExtend(ps[..i], ps[i], sim, done, current);
      assert ps[..i + 1] == ps[..i] + [ps[i]];
    }
  }

  lemma GroupStepExtend(ps: seq<string>, p: string, sim: Similarity, done: seq<seq<string>>, current: seq<string>)
    requires current != [] && Group(ps, sim) == done + [current]
    requires Related(sim, current[|current| - 1], p)
    ensures Group(ps + [p], sim) == done + [current + [p]]
  {
    GroupSnoc(ps, p, sim);
    var g := done + [current];
    assert g[..|g| - 1] == done && g[|g| - 1] == current;
  }

  /** A paragraph unrelated to the last one closes the open section and opens
      a new one. */
  lemma GroupStepOpen(ps: seq<string>, i: nat, sim: Similarity, done: seq<seq<string>>, current: seq<string>)
    requires i < |ps| && current != []
    requires Group(ps[..i], sim) == WithOpen(done, current)
    requires !Related(sim, current[|current| - 1], ps[i])
    ensures Group(ps[..i + 1], sim) == WithOpen(done + [current], [ps[i]])
  {
    assert ps[..i + 1] == ps[..i] + [ps[i]];
    GroupSnoc(ps[..i], ps[i], sim);
  }

  lemma SectionTextsSnoc(G: seq<seq<string>>, s: seq<string>)
    ensures JoinEach("\n\n", G + [s]) == JoinEach("\n\n", G) + [Join("\n\n", s)]
  {
  }

  // ------------------------------------------------------------------
  // Word windows (_split_section_into_chunks)
  // ------------------------------------------------------------------

  /** Consecutive windows of `n` words, the last one possibly shorter. */
  function Windows(ws: seq<string>, n: nat): seq<seq<string>>
    requires n > 0
    decreases |ws|
  {
    if ws == [] then []
    else
      var k := Min(n, |ws|);
      [ws[..k]] + Windows(ws[k..], n)
  }

  /** Windows cover the words exactly once and in order, each holds between one
      and `n` words, and there are ceil(|ws| / n) of them (stated without division). */
  lemma WindowsPartition(ws: seq<string>, n: nat)
    requires n > 0
    ensures Flatten(Windows(ws, n)) == ws
    ensures forall k :: 0 <= k < |Windows(ws, n)| ==> 1 <= |Windows(ws, n)[k]| <= n
    ensures |ws| <= |Windows(ws, n)| * n
    ensures |Windows(ws, n)| > 0 ==> (|Windows(ws, n)| - 1) * n < |ws|
  {
    WindowsFlatten(ws, n);
    WindowsSizes(ws, n);
    WindowsCount(ws, n);
  }

  lemma {:induction false} WindowsFlatten(ws: seq<string>, n: nat)
    requires n > 0
    ensures Flatten(Windows(ws, n)) == ws
    decreases |ws|
  {
    if ws != [] {
      var k := Min(n, |ws|);
      WindowsFlatten(ws[k..], n);
      FlattenCons(ws[..k], Windows(ws[k..], n));
      assert ws == ws[..k] + ws[k..];
    }
  }

  lemma {:induction false} WindowsSizes(ws: seq<string>, n: nat)
    requires n > 0
    ensures forall k :: 0 <= k < |Windows(ws, n)| ==> 1 <= |Windows(ws, n)[k]| <= n
    decreases |ws|
  {
    if ws != [] {
      var k := Min(n, |ws|);
      WindowsSizes(ws[k..], n);
      var W := Windows(ws, n);
      assert W == [ws[..k]] + Windows(ws[k..], n);
      forall j | 0 <= j < |W| ensures 1 <= |W[j]| <= n {
        if j > 0 {
          assert W[j] == Windows(ws[k..], n)[j - 1];
        }
      }
    }
  }

  lemma {:induction false} WindowsCount(ws: seq<string>, n: nat)
    requires n > 0
    ensures |ws| <= |Windows(ws, n)| * n
    ensures |Windows(ws, n)| > 0 ==> (|Windows(ws, n)| - 1) * n < |ws|
    decreases |ws|
  {
    if ws != [] {
      var k := Min(n, |ws|);
      var rest := Windows(ws[k..], n);
      WindowsCount(ws[k..], n);
      assert |Windows(ws, n)| == 1 + |rest|;
      assert |Windows(ws, n)| * n == n + |rest| * n;
      if rest != [] {
        assert (|Windows(ws, n)| - 1) * n == n + (|rest| - 1) * n;
      }
    }
  }

  /** The chunk texts from word `i` on: the window starting at `i`, then the rest. */
  lemma WindowStep(words: seq<string>, i: nat, maxWords: nat)
    requires maxWords > 0 && i < |words|
    ensures var end := Min(i + maxWords, |words|);
      JoinEach(" ", Windows(words[i..], maxWords))
        == [Join(" ", words[i..end])] + JoinEach(" ", Windows(words[end..], maxWords))
  {
    var end := Min(i + maxWords, |words|);
    assert Windows(words[i..], maxWords) == [words[i..end]] + Windows(words[end..], maxWords) by {
      assert words[i..][..Min(maxWords, |words| - i)] == words[i..end];
      assert words[i..][Min(maxWords, |words| - i)..] == words[end..];
    }
  }

  /** `_split_section_into_chunks`: one chunk per window of `maxWords` words. The
      source's `if chunk_text.strip()` test never fails, because a window holds
      at least one word. */
  method SplitSectionIntoChunks(section: string, maxWords: nat) returns (chunks: seq<string>)
    requires maxWords > 0
    ensures chunks == JoinEach(" ", Windows(Words(section), maxWords))
  {
    var words := Words(section);
    chunks := [];
    var i := 0;
    while i < |words|
      invariant 0 <= i
      invariant chunks + JoinEach(" ", Windows(words[Min(i, |words|)..], maxWords)) == JoinEach(" ", Windows(words, maxWords))
      decreases |words| - i
    {
      var end := Min(i + maxWords, |words|);
      var chunkWords := words[i..end];
      var chunkText := Join(" ", chunkWords);
      WindowStep(words, i, maxWords);
      JoinOfWordsNotBlank(chunkWords);
      if !IsBlank(chunkText) {
        chunks := chunks + [chunkText];
      }
      i := i + maxWords;
      assert Min(i, |words|) == end;
    }
    assert words[|words|..] == [];
  }

  /** Re-splitting the chunks of a section gives back the section's words in
      order, each chunk holds 1 to `maxWords` words, there are
      ceil(words / maxWords) chunks, and a blank section has none. */
  lemma ChunksPartitionSection(section: string, maxWords: nat)
    requires maxWords > 0
    ensures var chunks := JoinEach(" ", Windows(Words(section), maxWords));
      && Flatten(seq(|chunks|, k requires 0 <= k < |chunks| => Words(chunks[k]))) == Words(section)
      && (forall k :: 0 <= k < |chunks| ==> 1 <= |Words(chunks[k])| <= maxWords)
      && |Words(section)| <= |chunks| * maxWords
      && (|chunks| > 0 ==> (|chunks| - 1) * maxWords < |Words(section)|)
      && (IsBlank(section) <==> chunks == [])
  {
    var ws := Words(section);
    var W := Windows(ws, maxWords);
    var chunks := JoinEach(" ", W);
    WindowsPartition(ws, maxWords);
    forall k | 0 <= k < |W| ensures Words(chunks[k]) == W[k] {
      assert forall j :: 0 <= j < |W[k]| ==> W[k][j] in ws by {
        forall j | 0 <= j < |W[k]| ensures W[k][j] in ws {
          WindowMember(ws, maxWords, k, j);
        }
      }
      WordsOfJoin(W[k]);
    }
    assert seq(|chunks|, k requires 0 <= k < |chunks| => Words(chunks[k])) == W;
    WordsEmptyIffBlank(section);
  }

  /** Every word of a window is one of the windowed words. */
  lemma {:induction false} WindowMember(ws: seq<string>, n: nat, k: nat, j: nat)
    requires n > 0 && k < |Windows(ws, n)| && j < |Windows(ws, n)[k]|
    ensures Windows(ws, n)[k][j] in ws
    decreases |ws|
  {
    var m := Min(n, |ws|);
    if k > 0 {
      WindowMember(ws[m..], n, k - 1, j);
    } else {
      assert Windows(ws, n)[0][j] == ws[j];
    }
  }

  // ------------------------------------------------------------------
  // Keyword tables and tagging (_analyze_chunk_content and its helpers)
  // ------------------------------------------------------------------

  /** A keyword table: labels in table order, each with its keywords. */
  type Table = seq<(string, seq<string>)>

  /** Some keyword of `keys` occurs in `text` (`any(k in text for k in keys)`). */
  predicate AnyIn(keys: seq<string>, text: string)
  {
    exists k :: 0 <= k < |keys| && Contains(text, keys[k])
  }

  /** The English keyword lists of the four cycle phases; the Spanish lists of
      the same table are never consulted when tagging. */
  const PhaseKeywords: Table := [
    ("folicular", ["renewal", "growing energy", "estrogen", "motivation", "new projects", "growth"]),
    ("ovulatoria", ["hormonal peak", "fertility", "confidence", "communication", "leadership", "attraction"]),
    ("lutea", ["progesterone", "introspection", "sensitivity", "perfectionism", "nesting", "preparation"]),
    ("menstrual", ["renewal", "rest", "intuition", "reflection", "liberation", "cleaning"])
  ]

  const EmotionKeywords: Table := [
    ("ansiedad", ["ansiedad", "estrés", "preocupación", "nerviosismo"]),
    ("tristeza", ["tristeza", "melancolía", "depresión", "desánimo"]),
    ("energía", ["energía", "vitalidad", "motivación", "entusiasmo"]),
    ("confianza", ["confianza", "seguridad", "autoestima", "empoderamiento"]),
    ("conexión", ["conexión", "socialización", "empatía", "comunicación"])
  ]

  const ContentIndicators: Table := [
    ("lesson", ["explicación", "información", "educativo", "aprender"]),
    ("nutrition", ["nutrición", "alimentación", "dieta", "vitaminas"]),
    ("exercise", ["ejercicio", "actividad física", "deporte", "movimiento"]),
    ("symptoms", ["síntomas", "signos", "molestias", "dolor"]),
    ("wellness", ["bienestar", "cuidado", "autocuidado", "equilibrio"])
  ]

  /** The labels of `table` with a keyword occurring in `text`, in table order. */
  function MatchingLabels(table: Table, text: string): seq<string>
  {
    if table == [] then []
    else
      var last := table[|table| - 1];
      MatchingLabels(table[..|table| - 1], text) + (if AnyIn(last.1, text) then [last.0] else [])
  }

  /** A label is reported exactly when one of its entries has a keyword in the
      text, and never twice when the table's labels are distinct. */
  lemma MatchingLabelsSpec(table: Table, text: string)
    ensures forall l :: l in MatchingLabels(table, text) <==>
      exists k :: 0 <= k < |table| && table[k].0 == l && AnyIn(table[k].1, text)
    ensures (forall i, j :: 0 <= i < j < |table| ==> table[i].0 != table[j].0) ==> NoDuplicates(MatchingLabels(table, text))
  {
    MatchingLabelsMembers(table, text);
    if forall i, j :: 0 <= i < j < |table| ==> table[i].0 != table[j].0 {
      MatchingLabelsDistinct(table, text);
    }
  }

  lemma MatchingLabelsMembers(table: Table, text: string)
    ensures forall l :: l in MatchingLabels(table, text) <==>
      exists k :: 0 <= k < |table| && table[k].0 == l && AnyIn(table[k].1, text)
  {
    MatchedHaveEntry(table, text);
    EntriesAreMatched(table, text);
  }

  lemma {:induction false} MatchedHaveEntry(table: Table, text: string)
    ensures forall l :: l in MatchingLabels(table, text) ==>
      exists k :: 0 <= k < |table| && table[k].0 == l && AnyIn(table[k].1, text)
    decreases |table|
  {
    if table != [] {
      var init := table[..|table| - 1];
      MatchedHaveEntry(init, text);
      forall l | l in MatchingLabels(table, text)
        ensures exists k :: 0 <= k < |table| && table[k].0 == l && AnyIn(table[k].1, text)
      {
        if l in MatchingLabels(init, text) {
          var k :| 0 <= k < |init| && init[k].0 == l && AnyIn(init[k].1, text);
          assert table[k] == init[k];
        } else {
          assert table[|table| - 1].0 == l && AnyIn(table[|table| - 1].1, text);
        }
      }
    }
  }

  lemma {:induction false} EntriesAreMatched(table: Table, text: string)
    ensures forall k :: 0 <= k < |table| && AnyIn(table[k].1, text) ==> table[k].0 in MatchingLabels(table, text)
    decreases |table|
  {
    if table != [] {
      var init := table[..|table| - 1];
      EntriesAreMatched(init, text);
      forall k | 0 <= k < |table| - 1 && AnyIn(table[k].1, text)
        ensures table[k].0 in MatchingLabels(table, text)
      {
        assert init[k] == table[k];
      }
    }
  }

  lemma {:induction false} MatchingLabelsDistinct(table: Table, text: string)
    requires forall i, j :: 0 <= i < j < |table| ==> table[i].0 != table[j].0
    ensures NoDuplicates(MatchingLabels(table, text))
    decreases |table|
  {
    if table != [] {
      var init := table[..|table| - 1];
      var last := table[|table| - 1];
      assert forall i, j :: 0 <= i < j < |init| ==> init[i].0 != init[j].0 by {
        forall i, j | 0 <= i < j < |init| ensures init[i].0 != init[j].0 {
          assert init[i] == table[i] && init[j] == table[j];
        }
      }
      MatchingLabelsDistinct(init, text);
      if AnyIn(last.1, text) {
        MatchingLabelsMembers(init, text);
        assert last.0 !in MatchingLabels(init, text);
      }
    }
  }

  /** The loop of `_analyze_chunk_content` and `_identify_emotional_relevance`:
      walks the table and appends each label whose keywords hit the text. */
  method MatchLabels(table: Table, text: string) returns (labels: seq<string>)
    ensures labels == MatchingLabels(table, text)
  {
    labels := [];
    for i := 0 to |table|
      invariant labels == MatchingLabels(table[..i], text)
    {
      assert table[..i + 1][..i] == table[..i];
      var keys := table[i].1;
      var found := false;
      for j := 0 to |keys|
        invariant found <==> exists k :: 0 <= k < j && Contains(text, keys[k])
      {
        if Contains(text, keys[j]) {
          found := true;
        }
      }
      if found {
        labels := labels + [table[i].0];
      }
    }
    assert table[..|table|] == table;
  }

  /** The cycle phases a chunk is tagged with. */
  function Phases(chunk: string): seq<string>
  {
    MatchingLabels(PhaseKeywords, Lower(chunk))
  }

  /** `_identify_emotional_relevance`: the emotion labels a chunk is tagged with. */
  function Emotions(chunk: string): seq<string>
  {
    MatchingLabels(EmotionKeywords, Lower(chunk))
  }

  /** A chunk gets a phase tag exactly when its lower-cased text contains one of
      that phase's English keywords; each phase appears at most once. */
  lemma PhaseTags(chunk: string, phase: string)
    ensures phase in Phases(chunk) <==>
      exists k :: 0 <= k < |PhaseKeywords| && PhaseKeywords[k].0 == phase && AnyIn(PhaseKeywords[k].1, Lower(chunk))
    ensures NoDuplicates(Phases(chunk))
  {
    MatchingLabelsSpec(PhaseKeywords, Lower(chunk));
  }

  /** A chunk gets an emotion tag exactly when its lower-cased text contains
      one of that emotion's keywords; each emotion appears at most once. */
  lemma EmotionTags(chunk: string, emotion: string)
    ensures emotion in Emotions(chunk) <==>
      exists k :: 0 <= k < |EmotionKeywords| && EmotionKeywords[k].0 == emotion && AnyIn(EmotionKeywords[k].1, Lower(chunk))
    ensures NoDuplicates(Emotions(chunk))
  {
    MatchingLabelsSpec(EmotionKeywords, Lower(chunk));
  }

  /** `segment_mapping` of `_determine_applicable_segments`. */
  const SegmentMap: map<(string, string), seq<string>> := map[
    ("folicular", "ansiedad") := ["SEG001"],
    ("folicular", "energía") := ["SEG003"],
    ("lutea", "ansiedad") := ["SEG011"],
    ("menstrual", "tristeza") := ["SEG017"]
  ]

  predicate MapsTo(phase: string, emotion: string, segment: string)
  {
    (phase, emotion) in SegmentMap && segment in SegmentMap[(phase, emotion)]
  }

  /** `_determine_applicable_segments`: the segments some (phase, emotion) pair
      maps to, each once. The source returns `list(set(...))`, whose order
      Python leaves unspecified; the contract fixes only the elements. */
  method DetermineApplicableSegments(phases: seq<string>, emotions: seq<string>) returns (segments: seq<string>)
    ensures forall s :: s in segments <==>
      exists a, b :: 0 <= a < |phases| && 0 <= b < |emotions| && MapsTo(phases[a], emotions[b], s)
    ensures NoDuplicates(segments)
    ensures forall s :: s in segments ==> s in {"SEG001", "SEG003", "SEG011", "SEG017"}
  {
    var applicable: seq<string> := [];
    for i := 0 to |phases|
      invariant forall s :: s in applicable <==>
        exists a, b :: 0 <= a < i && 0 <= b < |emotions| && MapsTo(phases[a], emotions[b], s)
    {
      for j := 0 to |emotions|
        invariant forall s :: s in applicable <==>
          (exists a, b :: 0 <= a < i && 0 <= b < |emotions| && MapsTo(phases[a], emotions[b], s))
          || (exists b :: 0 <= b < j && MapsTo(phases[i], emotions[b], s))
      {
        var key := (phases[i], emotions[j]);
        if key in SegmentMap {
          applicable := applicable + SegmentMap[key];
        }
      }
    }
    segments := Dedup(applicable);
  }

  /** The label of the first entry with a keyword in `text`, or `fallback` when
      none has one. */
  function FirstMatch(table: Table, text: string, fallback: string): (r: string)
    ensures (r == fallback && forall k :: 0 <= k < |table| ==> !AnyIn(table[k].1, text))
      || exists k :: 0 <= k < |table| && r == table[k].0 && AnyIn(table[k].1, text)
           && forall j :: 0 <= j < k ==> !AnyIn(table[j].1, text)
    decreases |table|
  {
    if table == [] then fallback
    else if AnyIn(table[0].1, text) then table[0].0
    else
      var r := FirstMatch(table[1..], text, fallback);
      assert forall k :: 0 <= k < |table| - 1 ==> table[1..][k] == table[k + 1];
      r
  }

  /** `_classify_content_type`: the first of lesson, nutrition, exercise,
      symptoms and wellness with an indicator in the lower-cased chunk, else
      educational. */
  function ClassifyContentType(chunk: string): (r: string)
    ensures r in {"lesson", "nutrition", "exercise", "symptoms", "wellness", "educational"}
    ensures (r == "educational") == (forall k :: 0 <= k < |ContentIndicators| ==> !AnyIn(ContentIndicators[k].1, Lower(chunk)))
  {
    FirstMatch(ContentIndicators, Lower(chunk), "educational")
  }

  /** The terms that earn the medical-vocabulary bonus. */
  const MedicalTerms: seq<string> := ["hormona", "ciclo", "menstruación", "estrógeno", "progesterona"]

  /** The markers that earn the structure bonus, matched case-sensitively in
      the raw chunk. */
  const StructureMarkers: seq<string> := ["•", "-", "1.", "2.", "Primero", "Segundo"]

  /** How many of `terms` occur in `text`. */
  function CountPresent(terms: seq<string>, text: string): (n: nat)
    ensures n <= |terms|
    ensures n == 0 <==> forall k :: 0 <= k < |terms| ==> !Contains(text, terms[k])
    ensures n == |terms| <==> forall k :: 0 <= k < |terms| ==> Contains(text, terms[k])
  {
    if terms == [] then 0
    else CountPresent(terms[..|terms| - 1], text) + (if Contains(text, terms[|terms| - 1]) then 1 else 0)
  }

  /** The confidence of a chunk in tenths: base 5, plus 2 for 100 to 500
      words, plus one per medical term present (at most 3), plus 1 for a
      structure marker, capped at 10. */
  function ConfidenceTenths(chunk: string): (c: int)
    ensures 5 <= c <= 10
    ensures 100 <= |Words(chunk)| <= 500 ==> c >= 7
    ensures c == 5 <==>
      !(100 <= |Words(chunk)| <= 500) && CountPresent(MedicalTerms, Lower(chunk)) == 0 && !AnyIn(StructureMarkers, chunk)
  {
    var wordCount := |Words(chunk)|;
    var lengthBonus := if 100 <= wordCount <= 500 then 2 else 0;
    var termBonus := Min(CountPresent(MedicalTerms, Lower(chunk)), 3);
    var structureBonus := if AnyIn(StructureMarkers, chunk) then 1 else 0;
    Min(5 + lengthBonus + termBonus + structureBonus, 10)
  }

  /** `_calculate_content_confidence`, accumulating the bonuses step by step. */
  method CalculateContentConfidence(chunk: string) returns (confidence: int)
    ensures confidence == ConfidenceTenths(chunk)
  {
    confidence := 5;
    var wordCount := |Words(chunk)|;
    if 100 <= wordCount <= 500 {
      confidence := confidence + 2;
    }
    var lower := Lower(chunk);
    var termCount := 0;
    for i := 0 to |MedicalTerms|
      invariant termCount == CountPresent(MedicalTerms[..i], lower)
    {
      assert MedicalTerms[..i + 1][..i] == MedicalTerms[..i];
      if Contains(lower, MedicalTerms[i]) {
        termCount := termCount + 1;
      }
    }
    assert MedicalTerms[..|MedicalTerms|] == MedicalTerms;
    confidence := confidence + Min(termCount, 3);
    var marked := false;
    for i := 0 to |StructureMarkers|
      invariant marked <==> exists k :: 0 <= k < i && Contains(chunk, StructureMarkers[k])
    {
      if Contains(chunk, StructureMarkers[i]) {
        marked := true;
      }
    }
    if marked {
      confidence := confidence + 1;
    }
    confidence := Min(confidence, 10);
  }

  // ------------------------------------------------------------------
  // Chunk metadata and chunk records
  // ------------------------------------------------------------------

  /** A metadata value: the chunk and document metadata hold strings, integers
      and lists of strings. */
  datatype MetaValue = MStr(s: string) | MInt(i: int) | MList(items: seq<string>)

  /** A metadata dictionary as its entries in insertion order. */
  type Metadata = seq<(string, MetaValue)>

  function Keys(m: Metadata): (ks: seq<string>)
    ensures |ks| == |m|
  {
    seq(|m|, k requires 0 <= k < |m| => m[k].0)
  }

  const TagKeys: seq<string> := ["applicable_segments", "primary_topics", "emotional_relevance",
    "content_type", "urgency_level", "applicable_phases"]

  /** What `_analyze_chunk_content` promises about the metadata of `chunk`: the
      six keys in their initial order, the phase and emotion tags, the segments
      those tags map to (each once), the content type, and the two fixed
      entries. */
  ghost predicate IsChunkTags(chunk: string, meta: Metadata)
  {
    var phases := Phases(chunk);
    var emotions := Emotions(chunk);
    && Keys(meta) == TagKeys
    && meta[0].1.MList?
    && (forall s :: s in meta[0].1.items <==>
          exists a, b :: 0 <= a < |phases| && 0 <= b < |emotions| && MapsTo(phases[a], emotions[b], s))
    && NoDuplicates(meta[0].1.items)
    && meta[1].1 == MList([])
    && meta[2].1 == MList(emotions)
    && meta[3].1 == MStr(ClassifyContentType(chunk))
    && meta[4].1 == MStr("normal")
    && meta[5].1 == MList(phases)
  }

  /** `m[key] = v` for a key already present at position `i`: the keys and the
      other entries stay as they are. */
  function SetValue(m: Metadata, i: nat, v: MetaValue): (r: Metadata)
    requires i < |m|
    ensures Keys(r) == Keys(m)
    ensures r[i].1 == v
    ensures forall k :: 0 <= k < |m| && k != i ==> r[k] == m[k]
  {
    m[i := (m[i].0, v)]
  }

  /** `_analyze_chunk_content`: fills the metadata dictionary entry by entry. */
  method AnalyzeChunkContent(chunk: string) returns (meta: Metadata)
    ensures IsChunkTags(chunk, meta)
  {
    meta := [("applicable_segments", MList([])), ("primary_topics", MList([])),
      ("emotional_relevance", MList([])), ("content_type", MStr("educational")),
      ("urgency_level", MStr("normal")), ("applicable_phases", MList([]))];
    assert Keys(meta) == TagKeys;
    var lower := Lower(chunk);
    var phases := MatchLabels(PhaseKeywords, lower);
    meta := SetValue(meta, 5, MList(phases));
    var emotions := MatchLabels(EmotionKeywords, lower);
    meta := SetValue(meta, 2, MList(emotions));
    var segments := DetermineApplicableSegments(phases, emotions);
    meta := SetValue(meta, 0, MList(segments));
    meta := SetValue(meta, 3, MStr(ClassifyContentType(chunk)));
  }

  /** The document metadata gathered while extracting text. `total_pages` is
      absent when the PDF could not be opened. */
  datatype DocInfo = DocInfo(sourceFile: string, fileSize: int, extractionMethod: string, totalPages: Option<int>)

  function DocMetadata(d: DocInfo): (m: Metadata)
    ensures |m| == if d.totalPages.Some? then 4 else 3
    ensures Keys(m)[..3] == ["source_file", "file_size", "extraction_method"]
  {
    [("source_file", MStr(d.sourceFile)), ("file_size", MInt(d.fileSize)),
      ("extraction_method", MStr(d.extractionMethod))]
      + (if d.totalPages.Some? then [("total_pages", MInt(d.totalPages.value))] else [])
  }

  /** A processed chunk; the confidence is in tenths and the embedding is
      absent until one has been generated. */
  datatype ContentChunk = ContentChunk(
    chunkId: string,
    content: string,
    metadata: Metadata,
    sourceDocument: string,
    confidenceScore: int,
    processingMethod: string,
    embedding: Option<seq<real>>)

  /** The word limit `_create_intelligent_chunks` passes when splitting sections. */
  const MaxChunkWords: nat := 400

  /** The chunk texts of a list of sections, section by section. */
  function SectionChunkTexts(sections: seq<string>): seq<string>
  {
    if sections == [] then []
    else SectionChunkTexts(sections[..|sections| - 1]) + JoinEach(" ", Windows(Words(sections[|sections| - 1]), MaxChunkWords))
  }

  /** The chunk a text becomes: `hash` stands for the MD5 hex digest, of which
      the first 12 characters form the id. */
  ghost predicate IsChunkOf(c: ContentChunk, text: string, doc: DocInfo, hash: string -> string)
  {
    && c.chunkId == Take(hash(text), 12)
    && c.content == text
    && |c.metadata| == 6 + |DocMetadata(doc)|
    && IsChunkTags(text, c.metadata[..6])
    && c.metadata[6..] == DocMetadata(doc)
    && c.sourceDocument == doc.sourceFile
    && c.confidenceScore == ConfidenceTenths(text)
    && c.processingMethod == "local_extraction"
    && c.embedding == None
  }

  /** The body of the chunk loop: tags, id, merged metadata and confidence of
      one chunk text. */
  method BuildChunk(text: string, doc: DocInfo, hash: string -> string) returns (chunk: ContentChunk)
    ensures IsChunkOf(chunk, text, doc, hash)
  {
    var tags := AnalyzeChunkContent(text);
    var confidence := CalculateContentConfidence(text);
    chunk := ContentChunk(Take(hash(text), 12), text, tags + DocMetadata(doc),
      doc.sourceFile, confidence, "local_extraction", None);
    assert chunk.metadata[..6] == tags && chunk.metadata[6..] == DocMetadata(doc);
  }

  /** `chunks` are the chunks of `texts`, position by position. */
  ghost predicate ChunksOf(chunks: seq<ContentChunk>, texts: seq<string>, doc: DocInfo, hash: string -> string)
  {
    |chunks| == |texts| && forall k :: 0 <= k < |chunks| ==> IsChunkOf(chunks[k], texts[k], doc, hash)
  }

  lemma ChunksOfAppend(a: seq<ContentChunk>, ta: seq<string>, b: seq<ContentChunk>, tb: seq<string>,
                       doc: DocInfo, hash: string -> string)
    requires ChunksOf(a, ta, doc, hash) && ChunksOf(b, tb, doc, hash)
    ensures ChunksOf(a + b, ta + tb, doc, hash)
  {
    forall k | 0 <= k < |a + b| ensures IsChunkOf((a + b)[k], (ta + tb)[k], doc, hash) {
      if k >= |a| {
        assert (a + b)[k] == b[k - |a|] && (ta + tb)[k] == tb[k - |a|];
      }
    }
  }

  lemma ChunksOfSnoc(chunks: seq<ContentChunk>, texts: seq<string>, j: nat, chunk: ContentChunk,
                     doc: DocInfo, hash: string -> string)
    requires j < |texts| && ChunksOf(chunks, texts[..j], doc, hash) && IsChunkOf(chunk, texts[j], doc, hash)
    ensures ChunksOf(chunks + [chunk], texts[..j + 1], doc, hash)
  {
    ChunksOfAppend(chunks, texts[..j], [chunk], [texts[j]], doc, hash);
    assert texts[..j + 1] == texts[..j] + [texts[j]];
  }

  /** The inner loop of `_create_intelligent_chunks`: one chunk per text. */
  method BuildChunks(texts: seq<string>, doc: DocInfo, hash: string -> string) returns (chunks: seq<ContentChunk>)
    ensures ChunksOf(chunks, texts, doc, hash)
  {
    chunks := [];
    for j := 0 to |texts|
      invariant ChunksOf(chunks, texts[..j], doc, hash)
    {
      var chunk := BuildChunk(texts[j], doc, hash);
      ChunksOfSnoc(chunks, texts, j, chunk, doc, hash);
      chunks := chunks + [chunk];
    }
    assert texts[..|texts|] == texts;
  }

  lemma SectionChunkTextsSnoc(sections: seq<string>, i: nat)
    requires i < |sections|
    ensures SectionChunkTexts(sections[..i + 1])
      == SectionChunkTexts(sections[..i]) + JoinEach(" ", Windows(Words(sections[i]), MaxChunkWords))
  {
    assert sections[..i + 1][..i] == sections[..i];
  }

  /** `_create_intelligent_chunks`: one chunk per word window of every section,
      in order. The chunk and document metadata keys are disjoint, so the
      merged dictionary is the chunk entries followed by the document entries. */
  method CreateIntelligentChunks(text: string, doc: DocInfo, sim: Similarity, hash: string -> string)
    returns (chunks: seq<ContentChunk>)
    ensures ChunksOf(chunks, SectionChunkTexts(JoinEach("\n\n", Group(Paragraphs(text), sim))), doc, hash)
  {
    chunks := [];
    var sections := IdentifyDocumentSections(text, sim);
    for i := 0 to |sections|
      invariant ChunksOf(chunks, SectionChunkTexts(sections[..i]), doc, hash)
    {
      var sectionChunks := SplitSectionIntoChunks(sections[i], MaxChunkWords);
      var built := BuildChunks(sectionChunks, doc, hash);
      SectionChunkTextsSnoc(sections, i);
      ChunksOfAppend(chunks, SectionChunkTexts(sections[..i]), built, sectionChunks, doc, hash);
      chunks := chunks + built;
    }
    assert sections[..|sections|] == sections;
  }

  // ------------------------------------------------------------------
  // Preparing the batch for the vector store (_save_chunks_to_chroma)
  // ------------------------------------------------------------------

  /** The list-to-string flattening applied to every metadata value. */
  function FlattenValue(v: MetaValue): (r: MetaValue)
    ensures !r.MList?
    ensures !v.MList? ==> r == v
    ensures v.MList? ==> r.MStr? && (r.s == "" <==> (v.items == [] || Join(", ", v.items) == ""))
  {
    match v
    case MList(items) => if items != [] then MStr(Join(", ", items)) else MStr("")
    case _ => v
  }

  /** The cleaning loop: every key kept in place, lists flattened, other
      values unchanged. */
  method CleanMetadata(meta: Metadata) returns (cleaned: Metadata)
    ensures Keys(cleaned) == Keys(meta)
    ensures forall k :: 0 <= k < |cleaned| ==> cleaned[k].1 == FlattenValue(meta[k].1)
    ensures forall k :: 0 <= k < |cleaned| ==> !cleaned[k].1.MList?
  {
    cleaned := [];
    for i := 0 to |meta|
      invariant |cleaned| == i
      invariant forall k :: 0 <= k < i ==> cleaned[k] == (meta[k].0, FlattenValue(meta[k].1))
    {
      var (key, value) := meta[i];
      var flat: MetaValue;
      if value.MList? {
        if value.items != [] {
          flat := MStr(Join(", ", value.items));
        } else {
          flat := MStr("");
        }
      } else {
        flat := value;
      }
      cleaned := cleaned + [(key, flat)];
    }
  }

  /** One record handed to the vector store. */
  datatype StoreRecord = StoreRecord(document: string, metadata: Metadata, id: string, embedding: seq<real>)

  /** Python truthiness of `chunk.embedding`: both `None` and `[]` are false. */
  predicate HasEmbedding(c: ContentChunk)
  {
    c.embedding.Some? && c.embedding.value != []
  }

  /** `[chunk.embedding for chunk in chunks if chunk.embedding]`. */
  function NonEmptyEmbeddings(chunks: seq<ContentChunk>): (embs: seq<seq<real>>)
    ensures |embs| <= |chunks|
    ensures forall k :: 0 <= k < |embs| ==> embs[k] != []
  {
    if chunks == [] then []
    else
      var c := chunks[|chunks| - 1];
      NonEmptyEmbeddings(chunks[..|chunks| - 1]) + (if HasEmbedding(c) then [c.embedding.value] else [])
  }

  /** The positional zip of the chunks with a list of embeddings, keeping the
      pairs whose embedding is non-empty. */
  function ZipWithEmbeddings(chunks: seq<ContentChunk>, embs: seq<seq<real>>): seq<StoreRecord>
  {
    if chunks == [] || embs == [] then []
    else
      (if embs[0] != [] then [StoreRecord(chunks[0].content, chunks[0].metadata, chunks[0].chunkId, embs[0])] else [])
      + ZipWithEmbeddings(chunks[1..], embs[1..])
  }

  /** The selection as the source writes it: the embeddings are filtered before
      the zip, so after the first chunk without an embedding every document
      is paired with a later chunk's embedding. */
  function SelectAsWritten(chunks: seq<ContentChunk>): seq<StoreRecord>
  {
    ZipWithEmbeddings(chunks, NonEmptyEmbeddings(chunks))
  }

  lemma {:induction false} ZipLength(chunks: seq<ContentChunk>, embs: seq<seq<real>>)
    requires |embs| <= |chunks|
    requires forall k :: 0 <= k < |embs| ==> embs[k] != []
    ensures |ZipWithEmbeddings(chunks, embs)| == |embs|
    ensures forall k :: 0 <= k < |embs| ==>
      ZipWithEmbeddings(chunks, embs)[k] == StoreRecord(chunks[k].content, chunks[k].metadata, chunks[k].chunkId, embs[k])
    decreases |embs|
  {
    if chunks != [] && embs != [] {
      ZipLength(chunks[1..], embs[1..]);
    }
  }

  /** As written, the number of records is the number of non-empty embeddings
      (the zip stops at the shorter list) and the k-th record pairs the k-th
      chunk with the k-th non-empty embedding, whichever chunk that came from. */
  lemma AsWrittenPairsByPosition(chunks: seq<ContentChunk>)
    ensures var embs := NonEmptyEmbeddings(chunks);
      && |SelectAsWritten(chunks)| == |embs|
      && forall k :: 0 <= k < |embs| ==>
           SelectAsWritten(chunks)[k] == StoreRecord(chunks[k].content, chunks[k].metadata, chunks[k].chunkId, embs[k])
  {
    ZipLength(chunks, NonEmptyEmbeddings(chunks));
  }

  /** Two chunks, the first without an embedding: the source stores the first
      chunk's text and id under the second chunk's embedding, and drops the
      second chunk. */
  lemma AsWrittenMispairs()
    ensures var a := ContentChunk("a", "first", [], "doc.pdf", 5, "local_extraction", None);
      var b := ContentChunk("b", "second", [], "doc.pdf", 5, "local_extraction", Some([1.0]));
      && SelectAsWritten([a, b]) == [StoreRecord("first", [], "a", [1.0])]
      && SelectValid([a, b]) == [StoreRecord("second", [], "b", [1.0])]
  {
    var a := ContentChunk("a", "first", [], "doc.pdf", 5, "local_extraction", None);
    var b := ContentChunk("b", "second", [], "doc.pdf", 5, "local_extraction", Some([1.0]));
    assert [a, b][..1] == [a];
    assert NonEmptyEmbeddings([a, b]) == [[1.0]];
    assert [a, b][1..] == [b];
  }

  /** A chunk with its embedding, as one record of the vector store. */
  function RecordOf(c: ContentChunk): StoreRecord
    requires HasEmbedding(c)
  {
    StoreRecord(c.content, c.metadata, c.chunkId, c.embedding.value)
  }

  /** `records` holds, in order, the records of the chunks at positions `ix`. */
  predicate RecordsAt(records: seq<StoreRecord>, chunks: seq<ContentChunk>, ix: seq<nat>)
  {
    |records| == |ix| && forall k :: 0 <= k < |ix| ==>
      ix[k] < |chunks| && HasEmbedding(chunks[ix[k]]) && records[k] == RecordOf(chunks[ix[k]])
  }

  /** Positions into a prefix keep their chunks in the whole sequence, and
      one more embedded chunk extends the match. */
  lemma RecordsAtExtend(records: seq<StoreRecord>, chunks: seq<ContentChunk>, ix: seq<nat>, extra: seq<StoreRecord>, tail: seq<nat>)
    requires chunks != []
    requires RecordsAt(records, chunks[..|chunks| - 1], ix)
    requires (tail == [] && extra == [])
      || (tail == [|chunks| - 1] && HasEmbedding(chunks[|chunks| - 1]) && extra == [RecordOf(chunks[|chunks| - 1])])
    ensures RecordsAt(records + extra, chunks, ix + tail)
  {
    var front := chunks[..|chunks| - 1];
    forall k | 0 <= k < |ix|
      ensures front[ix[k]] == chunks[ix[k]]
    {
    }
  }

  /** The intended selection: each chunk that has a non-empty embedding,
      stored with its own text, metadata, id and embedding, in order. The
      k-th record is the record of the k-th embedded chunk, so every
      embedded chunk is stored exactly once, in chunk order. */
  function SelectValid(chunks: seq<ContentChunk>): (records: seq<StoreRecord>)
    ensures |records| == |NonEmptyEmbeddings(chunks)|
    ensures forall k :: 0 <= k < |records| ==> records[k].embedding == NonEmptyEmbeddings(chunks)[k]
    ensures RecordsAt(records, chunks, KeptIndices(chunks, HasEmbedding))
  {
    if chunks == [] then []
    else
      var n := |chunks| - 1;
      var c := chunks[n];
      var rest := SelectValid(chunks[..n]);
      var tail: seq<nat> := if HasEmbedding(c) then [n] else [];
      var extra := if HasEmbedding(c) then [RecordOf(c)] else [];
      assert KeptIndices(chunks, HasEmbedding) == KeptIndices(chunks[..n], HasEmbedding) + tail;
      RecordsAtExtend(rest, chunks, KeptIndices(chunks[..n], HasEmbedding), extra, tail);
      rest + extra
  }

  /** When every chunk has an embedding the source's selection is the intended
      one, so the mispairing needs a chunk whose embedding failed. */
  lemma {:induction false} SelectionsAgreeWhenAllEmbedded(chunks: seq<ContentChunk>)
    requires forall k :: 0 <= k < |chunks| ==> HasEmbedding(chunks[k])
    ensures SelectAsWritten(chunks) == SelectValid(chunks)
    decreases |chunks|
  {
    AsWrittenPairsByPosition(chunks);
    SelectValidAllEmbedded(chunks);
  }

  lemma {:induction false} SelectValidAllEmbedded(chunks: seq<ContentChunk>)
    requires forall k :: 0 <= k < |chunks| ==> HasEmbedding(chunks[k])
    ensures |SelectValid(chunks)| == |chunks|
    ensures forall k :: 0 <= k < |chunks| ==>
      HasEmbedding(chunks[k]) && SelectValid(chunks)[k] == StoreRecord(chunks[k].content, chunks[k].metadata, chunks[k].chunkId, chunks[k].embedding.value)
    decreases |chunks|
  {
    if chunks != [] {
      SelectValidAllEmbedded(chunks[..|chunks| - 1]);
    }
  }

  /** The batch written to the vector store: the intended selection, with
      every metadata dictionary cleaned. Record k comes from the k-th chunk
      that has an embedding. An empty batch stands for the
      source's "no valid chunks" warning. */
  method PrepareStoreBatch(chunks: seq<ContentChunk>) returns (batch: seq<StoreRecord>)
    ensures var ix := KeptIndices(chunks, HasEmbedding);
      |batch| == |ix| && forall k :: 0 <= k < |ix| ==>
        var c := chunks[ix[k]];
        && batch[k].document == c.content && batch[k].id == c.chunkId && batch[k].embedding == c.embedding.value
        && Keys(batch[k].metadata) == Keys(c.metadata)
        && forall e :: 0 <= e < |c.metadata| ==> batch[k].metadata[e].1 == FlattenValue(c.metadata[e].1)
    ensures |batch| == |SelectValid(chunks)|
    ensures forall k :: 0 <= k < |batch| ==>
      var r := SelectValid(chunks)[k];
      && batch[k].document == r.document && batch[k].id == r.id && batch[k].embedding == r.embedding
      && Keys(batch[k].metadata) == Keys(r.metadata)
      && forall e :: 0 <= e < |r.metadata| ==> batch[k].metadata[e].1 == FlattenValue(r.metadata[e].1)
  {
    var valid := SelectValid(chunks);
    batch := [];
    for i := 0 to |valid|
      invariant |batch| == i
      invariant forall k :: 0 <= k < i ==>
        var r := valid[k];
        && batch[k].document == r.document && batch[k].id == r.id && batch[k].embedding == r.embedding
        && Keys(batch[k].metadata) == Keys(r.metadata)
        && forall e :: 0 <= e < |r.metadata| ==> batch[k].metadata[e].1 == FlattenValue(r.metadata[e].1)
    {
      var cleaned := CleanMetadata(valid[i].metadata);
      batch := batch + [valid[i].(metadata := cleaned)];
    }
  }
}
