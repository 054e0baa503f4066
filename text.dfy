/** The Python string operations the modelled code relies on: `split()`, `join`,
    `strip()`, `lower()`, `upper()`, `title()`, the substring test `in`,
    `replace`, `split(sep)` and zero-padded decimal formatting.
    Case mapping covers ASCII and the Latin-1 letters (which include every
    accented Spanish letter); other Unicode letters are left unchanged. */
module Text {
  import opened Common

  /** The characters Python's `str.isspace` accepts, i.e. the separators of
      `str.split()` and the characters `str.strip()` removes. */
  predicate IsSpace(c: char)
  {
    ('\t' <= c <= '\r') || ('\U{001C}' <= c <= ' ') || c == '\U{0085}' || c == '\U{00A0}'
    || c == '\U{1680}' || ('\U{2000}' <= c <= '\U{200A}') || c == '\U{2028}' || c == '\U{2029}'
    || c == '\U{202F}' || c == '\U{205F}' || c == '\U{3000}'
  }

  /** Every character is whitespace (Python: `not s.strip()`). */
  predicate IsBlank(s: string)
  {
    forall i :: 0 <= i < |s| ==> IsSpace(s[i])
  }

  predicate NoSpace(s: string)
  {
    forall i :: 0 <= i < |s| ==> !IsSpace(s[i])
  }

  /** A word as `str.split()` produces it: non-empty and free of whitespace. */
  predicate IsWord(w: string)
  {
    |w| > 0 && NoSpace(w)
  }

  /** Length of the leading run of non-whitespace characters. */
  function WordLen(s: string): (n: nat)
    ensures n <= |s|
    ensures forall i :: 0 <= i < n ==> !IsSpace(s[i])
    ensures n == |s| || IsSpace(s[n])
  {
    if s == [] || IsSpace(s[0]) then 0 else 1 + WordLen(s[1..])
  }

  /** Python's `s.split()`: the maximal runs of non-whitespace characters. */
  function Words(s: string): (ws: seq<string>)
    ensures forall k :: 0 <= k < |ws| ==> IsWord(ws[k])
    decreases |s|
  {
    if s == [] then []
    else if IsSpace(s[0]) then Words(s[1..])
    else
      var n := WordLen(s);
      [s[..n]] + Words(s[n..])
  }

  /** Python's `sep.join(xs)`. */
  function Join(sep: string, xs: seq<string>): string
  {
    if xs == [] then ""
    else if |xs| == 1 then xs[0]
    else xs[0] + sep + Join(sep, xs[1..])
  }

  /** `split()` finds no word exactly when the text is blank. */
  lemma {:induction false} WordsEmptyIffBlank(s: string)
    ensures Words(s) == [] <==> IsBlank(s)
    decreases |s|
  {
    if s != [] {
      if IsSpace(s[0]) {
        WordsEmptyIffBlank(s[1..]);
        if IsBlank(s[1..]) {
          forall i | 0 <= i < |s| ensures IsSpace(s[i]) {
            if i > 0 { assert s[i] == s[1..][i - 1]; }
          }
        }
      }
    }
  }

  lemma WordLenOfWordThenSpace(w: string, t: string)
    requires NoSpace(w)
    requires t == [] || IsSpace(t[0])
    ensures WordLen(w + t) == |w|
    decreases |w|
  {
    if w != [] {
      assert (w + t)[1..] == w[1..] + t;
      WordLenOfWordThenSpace(w[1..], t);
    }
  }

  /** Splitting a space-joined list of words gives back the words:
      `' '.join(ws).split() == ws`. */
  lemma {:induction false} WordsOfJoin(ws: seq<string>)
    requires forall k :: 0 <= k < |ws| ==> IsWord(ws[k])
    ensures Words(Join(" ", ws)) == ws
    decreases |ws|
  {
    if ws == [] {
    } else if |ws| == 1 {
      var w := ws[0];
      WordLenOfWordThenSpace(w, []);
      assert w + [] == w;
      assert w[|w|..] == [];
      assert w[..|w|] == w;
    } else {
      var w, rest := ws[0], Join(" ", ws[1..]);
      var s := w + " " + rest;
      assert Join(" ", ws) == s;
      WordLenOfWordThenSpace(w, " " + rest);
      assert s == w + (" " + rest);
      assert s[..|w|] == w;
      assert s[|w|..] == " " + rest;
      assert (" " + rest)[1..] == rest;
      WordsOfJoin(ws[1..]);
      assert Words(s[|w|..]) == Words(rest);
      assert ws == [w] + ws[1..];
    }
  }

  /** A space-joined list of at least one word is not blank. */
  lemma JoinOfWordsNotBlank(ws: seq<string>)
    requires |ws| > 0
    requires forall k :: 0 <= k < |ws| ==> IsWord(ws[k])
    ensures !IsBlank(Join(" ", ws))
  {
    WordsOfJoin(ws);
    WordsEmptyIffBlank(Join(" ", ws));
  }

  function TrimStart(s: string): (r: string)
    ensures |r| <= |s| && r == s[|s| - |r|..]
    ensures r == [] || !IsSpace(r[0])
  {
    if s != [] && IsSpace(s[0]) then TrimStart(s[1..]) else s
  }

  function TrimEnd(s: string): (r: string)
    ensures |r| <= |s| && r == s[..|r|]
    ensures r == [] || !IsSpace(r[|r| - 1])
  {
    if s != [] && IsSpace(s[|s| - 1]) then TrimEnd(s[..|s| - 1]) else s
  }

  /** Python's `s.strip()`. */
  function Strip(s: string): (r: string)
    ensures r == [] || (!IsSpace(r[0]) && !IsSpace(r[|r| - 1]))
  {
    TrimEnd(TrimStart(s))
  }

  /** Python's `p in s` for strings. */
  predicate StartsWith(s: string, p: string)
  {
    |p| <= |s| && s[..|p|] == p
  }

  predicate Contains(s: string, sub: string)
    decreases |s|
  {
    StartsWith(s, sub) || (s != [] && Contains(s[1..], sub))
  }

  /** A text contains any of its own slices. */
  lemma {:induction false} ContainsSlice(s: string, i: nat, j: nat)
    requires i <= j <= |s|
    ensures Contains(s, s[i..j])
    decreases i
  {
    if i == 0 {
      assert s[..j - i] == s[i..j];
    } else {
      assert s[1..][i - 1..j - 1] == s[i..j];
      ContainsSlice(s[1..], i - 1, j - 1);
    }
  }

  /** Whoever contains `s` contains every slice of `s`. */
  lemma {:induction false} ContainsTransitive(t: string, s: string, sub: string)
    requires Contains(t, s) && Contains(s, sub)
    ensures Contains(t, sub)
    decreases |t|
  {
    if StartsWith(t, s) {
      ContainsWithin(s, sub, t);
    } else {
      ContainsTransitive(t[1..], s, sub);
    }
  }

  lemma {:induction false} ContainsWithin(s: string, sub: string, t: string)
    requires StartsWith(t, s) && Contains(s, sub)
    ensures Contains(t, sub)
    decreases |s|
  {
    if StartsWith(s, sub) {
      assert t[..|sub|] == s[..|sub|];
    } else {
      assert StartsWith(t[1..], s[1..]) by { assert t[1..][..|s| - 1] == s[1..]; }
      ContainsWithin(s[1..], sub, t[1..]);
    }
  }

  /** Python's `s.replace(pat, rep)`: every non-overlapping occurrence of `pat`,
      scanned from the left, is replaced; an empty `pat` inserts `rep` around
      every character. */
  function Replace(s: string, pat: string, rep: string): string
    decreases |s|
  {
    if pat == [] then
      (if s == [] then rep else rep + [s[0]] + Replace(s[1..], pat, rep))
    else if |s| < |pat| then s
    else if StartsWith(s, pat) then rep + Replace(s[|pat|..], pat, rep)
    else [s[0]] + Replace(s[1..], pat, rep)
  }

  /** A text without an occurrence of `pat` is left as it is. */
  lemma {:induction false} ReplaceAbsent(s: string, pat: string, rep: string)
    requires pat != [] && !Contains(s, pat)
    ensures Replace(s, pat, rep) == s
    decreases |s|
  {
    if |s| >= |pat| {
      ReplaceAbsent(s[1..], pat, rep);
      assert [s[0]] + s[1..] == s;
    }
  }

  /** After replacing an occurring `pat` by `rep`, the result contains `rep`. */
  lemma {:induction false} ReplaceIntroduces(s: string, pat: string, rep: string)
    requires pat != [] && Contains(s, pat)
    ensures Contains(Replace(s, pat, rep), rep)
    decreases |s|
  {
    if StartsWith(s, pat) {
      var r := Replace(s, pat, rep);
      assert r == rep + Replace(s[|pat|..], pat, rep);
      assert r[..|rep|] == rep;
    } else {
      assert |s| >= |pat| by {
        if |s| < |pat| { assert !Contains(s, pat) by { NotContainsShorter(s, pat); } }
      }
      ReplaceIntroduces(s[1..], pat, rep);
      var r := Replace(s, pat, rep);
      assert r == [s[0]] + Replace(s[1..], pat, rep);
      assert r[1..] == Replace(s[1..], pat, rep);
    }
  }

  /** A text that contains `sub` contains each character of `sub`. */
  lemma {:induction false} ContainsChars(s: string, sub: string, j: nat)
    requires Contains(s, sub) && j < |sub|
    ensures sub[j] in s
    decreases |s|
  {
    if StartsWith(s, sub) {
      assert s[j] == sub[j];
    } else {
      ContainsChars(s[1..], sub, j);
      var i :| 0 <= i < |s[1..]| && s[1..][i] == sub[j];
      assert s[i + 1] == sub[j];
    }
  }

  /** A string lacking one of the characters of `sub` does not contain `sub`. */
  lemma MissingChar(s: string, sub: string, j: nat)
    requires j < |sub| && sub[j] !in s
    ensures !Contains(s, sub)
  {
    if Contains(s, sub) {
      ContainsChars(s, sub, j);
    }
  }

  lemma {:induction false} NotContainsShorter(s: string, sub: string)
    requires |s| < |sub|
    ensures !Contains(s, sub)
    decreases |s|
  {
    if s != [] { NotContainsShorter(s[1..], sub); }
  }

  /** Python's `s.split(sep)` for a non-empty separator (an empty one raises):
      the pieces between non-overlapping occurrences of `sep`, scanned from the left. */
  function SplitOn(s: string, sep: string): (r: seq<string>)
    requires sep != []
    ensures |r| > 0
    decreases |s|
  {
    if s == [] then [""]
    else if StartsWith(s, sep) then [""] + SplitOn(s[|sep|..], sep)
    else
      var rest := SplitOn(s[1..], sep);
      [[s[0]] + rest[0]] + rest[1..]
  }

  lemma JoinCons(sep: string, x: string, xs: seq<string>)
    requires xs != []
    ensures Join(sep, [x] + xs) == x + sep + Join(sep, xs)
  {
    assert ([x] + xs)[1..] == xs;
  }

  /** Extending the first piece by a character extends the joined text by it. */
  lemma JoinExtendFirst(sep: string, c: char, xs: seq<string>)
    requires xs != []
    ensures Join(sep, [[c] + xs[0]] + xs[1..]) == [c] + Join(sep, xs)
  {
    if |xs| > 1 {
      JoinCons(sep, [c] + xs[0], xs[1..]);
      JoinCons(sep, xs[0], xs[1..]);
      assert xs == [xs[0]] + xs[1..];
    }
  }

  /** Splitting on a separator and joining with it again restores the text. */
  lemma {:induction false} JoinSplitOn(s: string, sep: string)
    requires sep != []
    ensures Join(sep, SplitOn(s, sep)) == s
    decreases |s|
  {
    if s == [] {
    } else if StartsWith(s, sep) {
      var rest := SplitOn(s[|sep|..], sep);
      JoinSplitOn(s[|sep|..], sep);
      JoinCons(sep, "", rest);
      assert s == s[..|sep|] + s[|sep|..];
    } else {
      var rest := SplitOn(s[1..], sep);
      JoinSplitOn(s[1..], sep);
      JoinExtendFirst(sep, s[0], rest);
      assert s == [s[0]] + s[1..];
    }
  }

  /** Lower-case mapping of one character: the ASCII and Latin-1 capitals,
      whose Python lower case is one Latin-1 character; every other
      character is kept. */
  function LowerChar(c: char): char
  {
    if 'A' <= c <= 'Z' || ('À' <= c <= 'Þ' && c != '×') then
      (c as int + 32) as char
    else c
  }

  /** Upper-case mapping of one character: the ASCII and Latin-1 small
      letters whose Python upper case is one Latin-1 character (so not 'ß',
      'ÿ' or 'µ'); every other character is kept. */
  function UpperChar(c: char): char
  {
    if 'a' <= c <= 'z' || ('à' <= c <= 'þ' && c != '÷') then
      (c as int - 32) as char
    else c
  }

  /** A character that has a case (Python's "cased" characters, restricted to
      ASCII and Latin-1 letters). */
  predicate IsCased(c: char)
  {
    'A' <= c <= 'Z' || 'a' <= c <= 'z' || c == 'ª' || c == 'µ' || c == 'º'
    || ('À' <= c <= 'ÿ' && c != '×' && c != '÷')
  }

  /** Python's `s.lower()` on text whose letters `LowerChar` covers. */
  function Lower(s: string): (r: string)
    ensures |r| == |s|
    ensures forall i :: 0 <= i < |s| ==> r[i] == LowerChar(s[i])
  {
    seq(|s|, i requires 0 <= i < |s| => LowerChar(s[i]))
  }

  /** Python's `s.upper()` on text whose letters `UpperChar` covers. */
  function Upper(s: string): (r: string)
    ensures |r| == |s|
    ensures forall i :: 0 <= i < |s| ==> r[i] == UpperChar(s[i])
  {
    seq(|s|, i requires 0 <= i < |s| => UpperChar(s[i]))
  }

  /** Python's `s.title()` on text whose letters `LowerChar` and `UpperChar`
      cover: a cased character that follows a cased character is lower-cased,
      every other cased character is upper-cased. */
  function Title(s: string): (r: string)
    ensures |r| == |s|
  {
    seq(|s|, i requires 0 <= i < |s| =>
      if i > 0 && IsCased(s[i - 1]) then LowerChar(s[i]) else UpperChar(s[i]))
  }

  /** Decimal digits of a natural number, as Python's `str(n)`. */
  function NatToString(n: nat): (r: string)
    ensures |r| > 0
    ensures forall i :: 0 <= i < |r| ==> '0' <= r[i] <= '9'
    decreases n
  {
    var d := ['0' + (n % 10) as char];
    if n < 10 then d else NatToString(n / 10) + d
  }

  /** Python's `f"{n:03d}"` for a non-negative `n`. */
  function Pad3(n: nat): (r: string)
    ensures |r| >= 3
  {
    var digits := NatToString(n);
    if |digits| >= 3 then digits else seq(3 - |digits|, _ => '0') + digits
  }

  /** Value of a decimal digit character. */
  function DigitValue(c: char): int
  {
    c as int - '0' as int
  }

  /** Below 1000 the three padded digits read back as the number itself. */
  lemma Pad3Value(n: nat)
    requires n < 1000
    ensures |Pad3(n)| == 3
    ensures 100 * DigitValue(Pad3(n)[0]) + 10 * DigitValue(Pad3(n)[1]) + DigitValue(Pad3(n)[2]) == n
  {
    if n < 10 {
      assert NatToString(n) == ['0' + n as char];
    } else if n < 100 {
      assert NatToString(n / 10) == ['0' + (n / 10) as char];
      assert NatToString(n) == ['0' + (n / 10) as char, '0' + (n % 10) as char];
    } else {
      assert NatToString(n / 100) == ['0' + (n / 100) as char];
      assert NatToString(n / 10) == ['0' + (n / 100) as char, '0' + (n / 10 % 10) as char];
      assert NatToString(n) == ['0' + (n / 100) as char, '0' + (n / 10 % 10) as char, '0' + (n % 10) as char];
    }
  }

  /** Zero-padding is injective below 1000. */
  lemma Pad3Injective(m: nat, n: nat)
    requires m < 1000 && n < 1000
    ensures Pad3(m) == Pad3(n) ==> m == n
  {
    Pad3Value(m);
    Pad3Value(n);
  }
}
