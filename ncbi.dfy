/**
 * GenBank FASTA deflines: `gi|<digits>|gb|<accession>.<version>|<description>`. A taxon label
 * of that form is replaced by the accession and the first words of the description, joined
 * by a separator; any other label is left as it is. Strings are Python 2 byte strings, so
 * the pattern's `\d`, `\w` and whitespace are ASCII classes.
 */
module Ncbi {
  import opened Wrappers

  // ---------------------------------------------------------------------------------------
  // Character classes of the pattern `^gi\|(\d+)\|gb\|([\w\d]+).(\d+)\|(.*)$`

  predicate IsDigit(c: char) { '0' <= c <= '9' }

  predicate IsWordChar(c: char) { IsDigit(c) || 'a' <= c <= 'z' || 'A' <= c <= 'Z' || c == '_' }

  /** The whitespace of `str.split()` and `str.strip()` on a byte string. */
  predicate IsSpace(c: char) {
    c == ' ' || c == '\t' || c == '\n' || c == '\r' || c == '\U{000B}' || c == '\U{000C}'
  }

  predicate AllDigits(s: string) { forall k :: 0 <= k < |s| ==> IsDigit(s[k]) }

  predicate AllWordChars(s: string) { forall k :: 0 <= k < |s| ==> IsWordChar(s[k]) }

  predicate NoNewline(s: string) { forall k :: 0 <= k < |s| ==> s[k] != '\n' }

  // ---------------------------------------------------------------------------------------
  // The groups of a match and the strings they make up

  /** The four groups of the pattern, and the character its unescaped `.` consumed. */
  datatype Defline = Defline(gi: string, accession: string, dot: char, version: string, description: string)

  /** A well-formed set of groups: digits, word characters, no line break where `.` cannot match one. */
  predicate IsDefline(d: Defline) {
    && |d.gi| > 0 && AllDigits(d.gi)
    && |d.accession| > 0 && AllWordChars(d.accession)
    && d.dot != '\n'
    && |d.version| > 0 && AllDigits(d.version)
    && NoNewline(d.description)
  }

  function Text(d: Defline): string {
    "gi|" + d.gi + "|gb|" + d.accession + [d.dot] + d.version + "|" + d.description
  }

  /** `s` is the text of the groups `d`, possibly followed by one line break, which `$` allows. */
  predicate Decomposes(s: string, d: Defline) {
    IsDefline(d) && (s == Text(d) || s == Text(d) + "\n")
  }

  // ---------------------------------------------------------------------------------------
  // The matcher, as the regular-expression engine backtracks

  /** The length of the run of digits starting at `i`. */
  function DigitRun(s: string, i: nat): (r: nat)
    requires i <= |s|
    ensures i + r <= |s| && AllDigits(s[i..i + r])
    ensures i + r < |s| ==> !IsDigit(s[i + r])
    decreases |s| - i
  {
    if i < |s| && IsDigit(s[i]) then
      var r := DigitRun(s, i + 1);
      assert s[i..i + 1 + r] == [s[i]] + s[i + 1..i + 1 + r];
      1 + r
    else 0
  }

  /** The length of the run of word characters starting at `i`. */
  function WordRun(s: string, i: nat): (r: nat)
    requires i <= |s|
    ensures i + r <= |s| && AllWordChars(s[i..i + r])
    decreases |s| - i
  {
    if i < |s| && IsWordChar(s[i]) then
      var r := WordRun(s, i + 1);
      assert s[i..i + 1 + r] == [s[i]] + s[i + 1..i + 1 + r];
      1 + r
    else 0
  }

  /** `(.*)$` from position `q`: the rest of the line, which must end the string or be followed by a final line break. */
  function RestOfLine(s: string, q: nat): Option<string>
    requires q <= |s|
  {
    var r := s[q..];
    if NoNewline(r) then Some(r)
    else if r != [] && r[|r| - 1] == '\n' && NoNewline(r[..|r| - 1]) then Some(r[..|r| - 1])
    else None
  }

  /** The match in which the accession is `s[p..p + l]`, if there is one. */
  function TryAt(s: string, gi: string, p: nat, l: nat): Option<Defline>
    requires p + l <= |s|
  {
    var c := p + l;
    if c >= |s| || s[c] == '\n' then None
    else
      var v := DigitRun(s, c + 1);
      var bar := c + 1 + v;
      if v == 0 || bar >= |s| || s[bar] != '|' then None
      else
        match RestOfLine(s, bar + 1)
        case None => None
        case Some(desc) => Some(Defline(gi, s[p..c], s[c], s[c + 1..bar], desc))
  }

  /** The greedy `[\w\d]+` gives back one character at a time until the rest of the pattern matches. */
  function Descend(s: string, gi: string, p: nat, l: nat): (r: Option<Defline>)
    requires p + l <= |s|
    ensures r.Some? ==> 0 < |r.value.accession| <= l && TryAt(s, gi, p, |r.value.accession|) == r
    decreases l
  {
    if l == 0 then None
    else
      match TryAt(s, gi, p, l)
      case Some(d) => Some(d)
      case None => Descend(s, gi, p, l - 1)
  }

  /** `GB_FASTA_DEFLINE_PATTERN.match(s)`: the groups, or `None` when the pattern does not match. */
  function MatchDefline(s: string): Option<Defline> {
    if |s| < 3 || s[..3] != "gi|" then None
    else
      var g := DigitRun(s, 3);
      var p := 3 + g + 4;
      if g == 0 || p > |s| || s[3 + g..p] != "|gb|" then None
      else Descend(s, s[3..3 + g], p, WordRun(s, p))
  }

  // ---------------------------------------------------------------------------------------
  // The matcher finds exactly the decompositions, preferring the longest accession

  /** A run of digits followed by a non-digit is the whole run `DigitRun` measures. */
  lemma {:induction false} DigitRunExact(s: string, i: nat, n: nat)
    requires i + n <= |s| && AllDigits(s[i..i + n]) && (i + n < |s| ==> !IsDigit(s[i + n]))
    ensures DigitRun(s, i) == n
    decreases n
  {
    if n > 0 {
      assert IsDigit(s[i..i + n][0]);
      assert s[i + 1..i + 1 + (n - 1)] == s[i..i + n][1..];
      DigitRunExact(s, i + 1, n - 1);
    }
  }

  /** A run of word characters followed by a non-word character is the whole run `WordRun` measures. */
  lemma {:induction false} WordRunExact(s: string, i: nat, n: nat)
    requires i + n <= |s| && AllWordChars(s[i..i + n]) && (i + n < |s| ==> !IsWordChar(s[i + n]))
    ensures WordRun(s, i) == n
    decreases n
  {
    if n > 0 {
      assert IsWordChar(s[i..i + n][0]);
      assert s[i + 1..i + 1 + (n - 1)] == s[i..i + n][1..];
      WordRunExact(s, i + 1, n - 1);
    }
  }

  /** A run of word characters is no longer than the one `WordRun` measures. */
  lemma {:induction false} WordRunCovers(s: string, i: nat, n: nat)
    requires i + n <= |s| && AllWordChars(s[i..i + n])
    ensures n <= WordRun(s, i)
    decreases n
  {
    if n > 0 {
      assert IsWordChar(s[i..i + n][0]);
      assert s[i + 1..i + 1 + (n - 1)] == s[i..i + n][1..];
      WordRunCovers(s, i + 1, n - 1);
    }
  }

  /** What is found at the offsets of the text of `d` in `s`. */
  predicate LaidOut(s: string, d: Defline) {
    var p := 3 + |d.gi| + 4; var c := p + |d.accession|; var bar := c + 1 + |d.version|;
    && IsDefline(d)
    && bar < |s| && s[..3] == "gi|" && s[3..3 + |d.gi|] == d.gi && s[3 + |d.gi|..p] == "|gb|"
    && s[p..c] == d.accession && s[c] == d.dot && s[c + 1..bar] == d.version && s[bar] == '|'
    && (s[bar + 1..] == d.description || s[bar + 1..] == d.description + "\n")
  }

  lemma TextLayout(s: string, d: Defline)
    requires Decomposes(s, d)
    ensures LaidOut(s, d)
  {
    var t := Text(d);
    var p := 3 + |d.gi| + 4;
    var c := p + |d.accession|;
    var bar := c + 1 + |d.version|;
    var mid := "gi|" + d.gi + "|gb|" + d.accession + [d.dot] + d.version + "|";
    assert t == mid + d.description;
    HeadParts(d);
    assert s[..|mid|] == mid;
    assert s[bar + 1..] == t[bar + 1..] || s[bar + 1..] == t[bar + 1..] + "\n";
  }

  /** Where the groups sit in the text before the description. */
  lemma HeadParts(d: Defline)
    ensures var p := 3 + |d.gi| + 4; var c := p + |d.accession|; var bar := c + 1 + |d.version|;
      var mid := "gi|" + d.gi + "|gb|" + d.accession + [d.dot] + d.version + "|";
      && |mid| == bar + 1
      && mid[..3] == "gi|" && mid[3..3 + |d.gi|] == d.gi && mid[3 + |d.gi|..p] == "|gb|"
      && mid[p..c] == d.accession && mid[c] == d.dot && mid[c + 1..bar] == d.version && mid[bar] == '|'
  {
    var head := "gi|" + d.gi + "|gb|";
    assert |head| == 3 + |d.gi| + 4;
  }

  /** The part after the last `|` of a decomposition is what `(.*)$` matches there. */
  lemma RestOfLineExact(s: string, q: nat, desc: string)
    requires q <= |s| && NoNewline(desc) && (s[q..] == desc || s[q..] == desc + "\n")
    ensures RestOfLine(s, q) == Some(desc)
  {
    var r := s[q..];
    if r == desc + "\n" {
      assert r[|r| - 1] == '\n';
      assert r[..|r| - 1] == desc;
    }
  }

  /** Every decomposition is the match tried at its own accession length. */
  lemma DecompositionTried(s: string, d: Defline)
    requires Decomposes(s, d)
    ensures var p := 3 + |d.gi| + 4;
      && |s| >= 3 && s[..3] == "gi|" && DigitRun(s, 3) == |d.gi| && p <= |s| && s[3 + |d.gi|..p] == "|gb|"
      && s[3..3 + |d.gi|] == d.gi
      && |d.accession| <= WordRun(s, p)
      && TryAt(s, d.gi, p, |d.accession|) == Some(d)
  {
    TextLayout(s, d);
    GiTried(s, d);
    AccessionCovered(s, d);
    TailTried(s, d);
  }

  lemma AccessionCovered(s: string, d: Defline)
    requires LaidOut(s, d)
    ensures |d.accession| <= WordRun(s, 3 + |d.gi| + 4)
  {
    WordRunCovers(s, 3 + |d.gi| + 4, |d.accession|);
  }

  lemma GiTried(s: string, d: Defline)
    requires LaidOut(s, d)
    ensures DigitRun(s, 3) == |d.gi|
  {
    var p := 3 + |d.gi| + 4;
    assert s[3 + |d.gi|] == s[3 + |d.gi|..p][0];
    DigitRunExact(s, 3, |d.gi|);
  }

  lemma TailTried(s: string, d: Defline)
    requires LaidOut(s, d)
    ensures TryAt(s, d.gi, 3 + |d.gi| + 4, |d.accession|) == Some(d)
  {
    var p := 3 + |d.gi| + 4;
    var c := p + |d.accession|;
    var bar := c + 1 + |d.version|;
    DigitRunExact(s, c + 1, |d.version|);
    RestOfLineExact(s, bar + 1, d.description);
    TryAtHit(s, d.gi, p, c, bar, d.description);
  }

  /** The match tried with the accession `s[p..c]`, when the version ends at `bar` and the description follows. */
  lemma TryAtHit(s: string, gi: string, p: nat, c: nat, bar: nat, desc: string)
    requires p <= c < bar < |s| && s[c] != '\n'
    requires DigitRun(s, c + 1) == bar - c - 1 > 0 && s[bar] == '|'
    requires RestOfLine(s, bar + 1) == Some(desc)
    ensures TryAt(s, gi, p, c - p) == Some(Defline(gi, s[p..c], s[c], s[c + 1..bar], desc))
  {
  }

  /** Whatever `Descend` returns is a decomposition. */
  lemma TriedDecomposes(s: string, gi: string, p: nat, l: nat)
    requires p == 3 + |gi| + 4 && p + l <= |s| && |gi| > 0 && AllDigits(gi)
    requires s[..3] == "gi|" && s[3..3 + |gi|] == gi && s[3 + |gi|..p] == "|gb|" && AllWordChars(s[p..p + l])
    requires l > 0 && TryAt(s, gi, p, l).Some?
    ensures Decomposes(s, TryAt(s, gi, p, l).value)
  {
    var d := TryAt(s, gi, p, l).value;
    TriedLaidOut(s, gi, p, l);
    LayoutText(s, d);
  }

  /** The groups of a successful try are found at their offsets in `s`. */
  lemma TriedLaidOut(s: string, gi: string, p: nat, l: nat)
    requires p == 3 + |gi| + 4 && p + l <= |s| && |gi| > 0 && AllDigits(gi)
    requires s[..3] == "gi|" && s[3..3 + |gi|] == gi && s[3 + |gi|..p] == "|gb|" && AllWordChars(s[p..p + l])
    requires l > 0 && TryAt(s, gi, p, l).Some?
    ensures LaidOut(s, TryAt(s, gi, p, l).value)
  {
    var d := TryAt(s, gi, p, l).value;
    var c := p + l;
    var bar := c + 1 + |d.version|;
    RestOfLineShape(s, bar + 1);
  }

  /** What `(.*)$` matched is the rest of the string, or all of it but a final line break. */
  lemma RestOfLineShape(s: string, q: nat)
    requires q <= |s| && RestOfLine(s, q).Some?
    ensures var desc := RestOfLine(s, q).value;
      NoNewline(desc) && (s[q..] == desc || s[q..] == desc + "\n")
  {
    var r := s[q..];
    if !NoNewline(r) {
      assert r == r[..|r| - 1] + "\n";
    }
  }

  /** The text up to the bar before the description. */
  lemma LayoutHead(s: string, d: Defline)
    requires var p := 3 + |d.gi| + 4; var c := p + |d.accession|; var bar := c + 1 + |d.version|;
      && bar < |s| && s[..3] == "gi|" && s[3..3 + |d.gi|] == d.gi && s[3 + |d.gi|..p] == "|gb|"
      && s[p..c] == d.accession && s[c] == d.dot && s[c + 1..bar] == d.version && s[bar] == '|'
    ensures var bar := 3 + |d.gi| + 4 + |d.accession| + 1 + |d.version|;
      s[..bar + 1] == "gi|" + d.gi + "|gb|" + d.accession + [d.dot] + d.version + "|"
  {
    var g := |d.gi|;
    var p := 3 + g + 4;
    var c := p + |d.accession|;
    var bar := c + 1 + |d.version|;
    PrefixSplit(s, 3, 3 + g);
    PrefixSplit(s, 3 + g, p);
    PrefixSplit(s, p, c);
    PrefixSplit(s, c, c + 1);
    PrefixSplit(s, c + 1, bar);
    PrefixSplit(s, bar, bar + 1);
    assert s[c..c + 1] == [s[c]] && s[bar..bar + 1] == [s[bar]];
  }

  lemma PrefixSplit(s: string, b: nat, c: nat)
    requires b <= c <= |s|
    ensures s[..c] == s[..b] + s[b..c]
  {
  }

  /** The converse of `TextLayout`: parts at their offsets make up the text. */
  lemma LayoutText(s: string, d: Defline)
    requires LaidOut(s, d)
    ensures Decomposes(s, d)
  {
    var p := 3 + |d.gi| + 4;
    var c := p + |d.accession|;
    var bar := c + 1 + |d.version|;
    var mid := "gi|" + d.gi + "|gb|" + d.accession + [d.dot] + d.version + "|";
    LayoutHead(s, d);
    assert s == s[..bar + 1] + s[bar + 1..];
    assert Text(d) == mid + d.description;
    if s[bar + 1..] != d.description {
      assert s == mid + d.description + "\n";
    }
  }

  /** Every prefix of the run of word characters holds only word characters. */
  lemma WordRunPrefix(s: string, p: nat, l: nat)
    requires p <= |s| && l <= WordRun(s, p)
    ensures AllWordChars(s[p..p + l])
  {
    assert s[p..p + l] == s[p..p + WordRun(s, p)][..l];
  }

  /** The match of `s` is a decomposition of `s`. */
  lemma MatchSound(s: string)
    requires MatchDefline(s).Some?
    ensures Decomposes(s, MatchDefline(s).value)
  {
    var g := DigitRun(s, 3);
    var p := 3 + g + 4;
    var d := MatchDefline(s).value;
    var l := |d.accession|;
    var gi := s[3..3 + g];
    assert MatchDefline(s) == Descend(s, gi, p, WordRun(s, p));
    assert TryAt(s, gi, p, l) == MatchDefline(s);
    WordRunPrefix(s, p, l);
    TriedDecomposes(s, gi, p, l);
  }

  /**
   * A string with a decomposition matches, and the match has the longest accession of all of
   * its decompositions: the groups Python's backtracking matcher reports.
   */
  lemma MatchComplete(s: string, d: Defline)
    requires Decomposes(s, d)
    ensures MatchDefline(s).Some? && |d.accession| <= |MatchDefline(s).value.accession|
  {
    DecompositionTried(s, d);
    var p := 3 + |d.gi| + 4;
    assert MatchDefline(s) == Descend(s, d.gi, p, WordRun(s, p));
    DescendReaches(s, d.gi, p, WordRun(s, p), |d.accession|);
  }

  /** Descending from `l`, the first length that matches is at least `l0` when `l0` matches. */
  lemma {:induction false} DescendReaches(s: string, gi: string, p: nat, l: nat, l0: nat)
    requires p + l <= |s| && 0 < l0 <= l && TryAt(s, gi, p, l0).Some?
    ensures Descend(s, gi, p, l).Some? && l0 <= |Descend(s, gi, p, l).value.accession|
    decreases l
  {
    if TryAt(s, gi, p, l).Some? {
      TryAtLength(s, gi, p, l);
      assert Descend(s, gi, p, l) == TryAt(s, gi, p, l);
    } else {
      DescendReaches(s, gi, p, l - 1, l0);
      assert Descend(s, gi, p, l) == Descend(s, gi, p, l - 1);
    }
  }

  /** A successful try at `l` has an accession of length `l`. */
  lemma TryAtLength(s: string, gi: string, p: nat, l: nat)
    requires p + l <= |s| && TryAt(s, gi, p, l).Some?
    ensures |TryAt(s, gi, p, l).value.accession| == l
  {
  }

  /** Two decompositions with accessions of one length are the same: the longest one is unique. */
  lemma DecompositionUnique(s: string, d: Defline, e: Defline)
    requires Decomposes(s, d) && Decomposes(s, e) && |d.accession| == |e.accession|
    ensures d == e
  {
    DecompositionTried(s, d);
    DecompositionTried(s, e);
  }

  // ---------------------------------------------------------------------------------------
  // The description's words

  /** `str.split()`: the maximal runs of non-whitespace, in order. */
  function Words(s: string): seq<string>
    decreases |s|
  {
    if s == [] then []
    else if IsSpace(s[0]) then Words(s[1..])
    else
      var n := LeadingRun(s);
      [s[..n]] + Words(s[n..])
  }

  /** The length of the run of non-whitespace `s` starts with. */
  function LeadingRun(s: string): (r: nat)
    ensures r <= |s| && forall k :: 0 <= k < r ==> !IsSpace(s[k])
    ensures s != [] && !IsSpace(s[0]) ==> r > 0
    ensures r < |s| ==> IsSpace(s[r])
  {
    if s != [] && !IsSpace(s[0]) then 1 + LeadingRun(s[1..]) else 0
  }

  /** The characters of `s` that are not whitespace, in order. */
  function NonSpace(s: string): string {
    if s == [] then [] else (if IsSpace(s[0]) then [] else [s[0]]) + NonSpace(s[1..])
  }

  function Concat(ws: seq<string>): string {
    if ws == [] then [] else ws[0] + Concat(ws[1..])
  }

  predicate SpaceFree(w: string) { forall k :: 0 <= k < |w| ==> !IsSpace(w[k]) }

  /** Every word is non-empty and holds no whitespace. */
  lemma {:induction false} WordsAreWords(s: string)
    ensures forall k :: 0 <= k < |Words(s)| ==> |Words(s)[k]| > 0 && SpaceFree(Words(s)[k])
    decreases |s|
  {
    if s != [] {
      if IsSpace(s[0]) {
        WordsAreWords(s[1..]);
      } else {
        var n := LeadingRun(s);
        WordsAreWords(s[n..]);
        var w := s[..n];
        assert SpaceFree(w) by {
          forall k | 0 <= k < |w| ensures !IsSpace(w[k]) {
            assert w[k] == s[k];
          }
        }
      }
    }
  }

  predicate AllSpace(g: string) { forall k :: 0 <= k < |g| ==> IsSpace(g[k]) }

  /** `gaps[0] + words[0] + gaps[1] + ... + words[m-1] + gaps[m]`. */
  function Interleave(gaps: seq<string>, words: seq<string>): string
    requires |gaps| == |words| + 1
  {
    if words == [] then gaps[0] else gaps[0] + words[0] + Interleave(gaps[1..], words[1..])
  }

  /** A whitespace character in front of the string joins the leading gap. */
  lemma InterleaveSpace(c: char, g: seq<string>, ws: seq<string>)
    requires |g| == |ws| + 1
    ensures Interleave([[c] + g[0]] + g[1..], ws) == [c] + Interleave(g, ws)
  {
    var gaps := [[c] + g[0]] + g[1..];
    assert gaps[1..] == g[1..];
    if ws != [] {
      assert Interleave(gaps, ws) == ([c] + g[0]) + ws[0] + Interleave(g[1..], ws[1..]);
    }
  }

  /** A word in front of the string comes after an empty leading gap. */
  lemma InterleaveWord(w: string, g: seq<string>, ws: seq<string>)
    requires |g| == |ws| + 1
    ensures Interleave([[]] + g, [w] + ws) == w + Interleave(g, ws)
  {
    assert ([[]] + g)[1..] == g && ([w] + ws)[1..] == ws;
  }

  /**
   * The words are maximal runs: the string is the words with runs of whitespace around and
   * between them, and every run between two words is non-empty.
   */
  lemma {:induction false} WordsSeparated(s: string) returns (gaps: seq<string>)
    ensures |gaps| == |Words(s)| + 1
    ensures forall k :: 0 <= k < |gaps| ==> AllSpace(gaps[k])
    ensures forall k :: 0 < k < |gaps| - 1 ==> gaps[k] != []
    ensures (gaps[0] != []) <==> (s != [] && IsSpace(s[0]))
    ensures s == Interleave(gaps, Words(s))
    decreases |s|
  {
    if s == [] {
      gaps := [[]];
    } else if IsSpace(s[0]) {
      var g := WordsSeparated(s[1..]);
      gaps := [[s[0]] + g[0]] + g[1..];
      InterleaveSpace(s[0], g, Words(s[1..]));
      assert s == [s[0]] + s[1..];
      forall k | 0 < k < |gaps| ensures gaps[k] == g[k] {
      }
    } else {
      var n := LeadingRun(s);
      var rest := s[n..];
      var g := WordsSeparated(rest);
      gaps := [[]] + g;
      InterleaveWord(s[..n], g, Words(rest));
      assert s == s[..n] + rest;
      if Words(rest) != [] {
        WordsAreWords(rest);
        assert g[0] != [];
      }
      forall k | 0 < k < |gaps| ensures gaps[k] == g[k - 1] {
      }
    }
  }

  /** The words, put back together, are the non-whitespace characters: splitting loses only whitespace. */
  lemma {:induction false} WordsKeepText(s: string)
    ensures Concat(Words(s)) == NonSpace(s)
    decreases |s|
  {
    if s != [] {
      if IsSpace(s[0]) {
        WordsKeepText(s[1..]);
      } else {
        var n := LeadingRun(s);
        WordsKeepText(s[n..]);
        var ws := Words(s);
        assert ws == [s[..n]] + Words(s[n..]);
        assert ws[1..] == Words(s[n..]);
        NonSpaceOfRun(s, n);
      }
    }
  }

  /** A leading run of `n` non-whitespace characters passes whole through `NonSpace`. */
  lemma {:induction false} NonSpaceOfRun(s: string, n: nat)
    requires n <= |s| && forall k :: 0 <= k < n ==> !IsSpace(s[k])
    ensures NonSpace(s) == s[..n] + NonSpace(s[n..])
    decreases n
  {
    if n > 0 {
      NonSpaceOfRun(s[1..], n - 1);
      assert s[1..][n - 1..] == s[n..];
      assert s[..n] == [s[0]] + s[1..][..n - 1];
      assert [s[0]] + (s[1..][..n - 1] + NonSpace(s[n..])) == ([s[0]] + s[1..][..n - 1]) + NonSpace(s[n..]);
    }
  }

  /** `str.strip()`: `w` without leading and trailing whitespace. */
  function Strip(w: string): string {
    StripRight(StripLeft(w))
  }

  function StripLeft(w: string): string {
    if w != [] && IsSpace(w[0]) then StripLeft(w[1..]) else w
  }

  function StripRight(w: string): string {
    if w != [] && IsSpace(w[|w| - 1]) then StripRight(w[..|w| - 1]) else w
  }

  /** `[s.strip() for s in ws if s]` */
  function StrippedNonEmpty(ws: seq<string>): seq<string> {
    if ws == [] then []
    else (if ws[0] != [] then [Strip(ws[0])] else []) + StrippedNonEmpty(ws[1..])
  }

  /** The comprehension over `split()`'s words changes nothing: they are non-empty and unpadded. */
  lemma {:induction false} StrippedWords(ws: seq<string>)
    requires forall k :: 0 <= k < |ws| ==> |ws[k]| > 0 && SpaceFree(ws[k])
    ensures StrippedNonEmpty(ws) == ws
  {
    if ws != [] {
      StrippedWords(ws[1..]);
      assert Strip(ws[0]) == ws[0];
    }
  }

  /** The description parts of the label. */
  function DescParts(description: string): seq<string> {
    StrippedNonEmpty(Words(description))
  }

  lemma DescPartsAreWords(description: string)
    ensures DescParts(description) == Words(description)
    ensures forall k :: 0 <= k < |DescParts(description)| ==> |DescParts(description)[k]| > 0 && SpaceFree(DescParts(description)[k])
  {
    WordsAreWords(description);
    StrippedWords(Words(description));
  }

  // ---------------------------------------------------------------------------------------
  // Slicing and joining

  /** Python's `xs[:n]`: a negative `n` counts from the end. */
  function TakePrefix<T>(xs: seq<T>, n: int): (r: seq<T>)
    ensures n >= 0 ==> |r| == if n <= |xs| then n else |xs|
    ensures n < 0 ==> |r| == if -n <= |xs| then |xs| + n else 0
    ensures r == xs[..|r|]
  {
    if n >= 0 then (if n <= |xs| then xs[..n] else xs)
    else if -n <= |xs| then xs[..|xs| + n] else []
  }

  /** `separator.join(parts)` */
  function Join(sep: string, parts: seq<string>): string {
    if parts == [] then []
    else if |parts| == 1 then parts[0]
    else parts[0] + sep + Join(sep, parts[1..])
  }

  /** The text of `s` up to the first `c`, and the lists of pieces between the `c`s (`s.split(c)`). */
  function SplitOn(s: string, c: char): (r: seq<string>)
    ensures |r| > 0
  {
    if s == [] then [[]]
    else if s[0] == c then [[]] + SplitOn(s[1..], c)
    else
      var rest := SplitOn(s[1..], c);
      [[s[0]] + rest[0]] + rest[1..]
  }

  predicate Avoids(w: string, c: char) { forall k :: 0 <= k < |w| ==> w[k] != c }

  /** Splitting a word that avoids `c`, then `c` and more, at `c`. */
  lemma {:induction false} SplitWord(w: string, c: char, tail: string)
    requires Avoids(w, c)
    ensures SplitOn(w + tail, c) == [w + SplitOn(tail, c)[0]] + SplitOn(tail, c)[1..]
    decreases |w|
  {
    if w != [] {
      assert (w + tail)[0] == w[0] && (w + tail)[1..] == w[1..] + tail;
      SplitWord(w[1..], c, tail);
      assert [w[0]] + (w[1..] + SplitOn(tail, c)[0]) == w + SplitOn(tail, c)[0];
    } else {
      assert w + tail == tail;
      assert SplitOn(tail, c)[0] == [] + SplitOn(tail, c)[0];
      assert SplitOn(tail, c) == [SplitOn(tail, c)[0]] + SplitOn(tail, c)[1..];
    }
  }

  /** Joining with a one-character separator that no part holds is undone by splitting at it. */
  lemma {:induction false} JoinSplit(c: char, parts: seq<string>)
    requires |parts| > 0 && forall k :: 0 <= k < |parts| ==> Avoids(parts[k], c)
    ensures SplitOn(Join([c], parts), c) == parts
  {
    if |parts| == 1 {
      SplitWord(parts[0], c, []);
      assert parts[0] + [] == parts[0];
    } else {
      JoinSplit(c, parts[1..]);
      var tail := [c] + Join([c], parts[1..]);
      assert Join([c], parts) == parts[0] + tail;
      SplitWord(parts[0], c, tail);
      assert tail[0] == c && tail[1..] == Join([c], parts[1..]);
      assert SplitOn(tail, c) == [[]] + parts[1..];
      assert parts[0] + [] == parts[0];
      assert parts == [parts[0]] + parts[1..];
    }
  }

  // ---------------------------------------------------------------------------------------
  // The label

  /**
   * `compose_taxon_label_from_gb_defline`: for a defline, the accession and the first `n`
   * description words joined by `sep`, the accession first or last; any other string as it is.
   */
  function ComposeLabel(s: string, n: int, sep: string, gbnumInFront: bool): string {
    match MatchDefline(s)
    case None => s
    case Some(d) =>
      var words := TakePrefix(DescParts(d.description), n);
      Join(sep, if gbnumInFront then [d.accession] + words else words + [d.accession])
  }

  /** The parts the label is joined from. */
  function LabelParts(d: Defline, n: int, gbnumInFront: bool): seq<string> {
    var words := TakePrefix(DescParts(d.description), n);
    if gbnumInFront then [d.accession] + words else words + [d.accession]
  }

  /** A string that is not a defline is its own label. */
  lemma NotDeflineUnchanged(s: string, n: int, sep: string, gbnumInFront: bool)
    requires forall d :: !Decomposes(s, d)
    ensures ComposeLabel(s, n, sep, gbnumInFront) == s
  {
    if MatchDefline(s).Some? {
      MatchSound(s);
    }
  }

  /**
   * The label of a defline: the accession first or last, then (or before it) at most `n`
   * description words, in their order; with a one-character separator that no part holds,
   * splitting the label at it gives the parts back.
   */
  lemma DeflineLabel(s: string, n: int, c: char, gbnumInFront: bool)
    requires MatchDefline(s).Some?
    ensures var d := MatchDefline(s).value; var parts := LabelParts(d, n, gbnumInFront);
      && |parts| == 1 + |TakePrefix(Words(d.description), n)|
      && (gbnumInFront ==> parts[0] == d.accession) && (!gbnumInFront ==> parts[|parts| - 1] == d.accession)
      && ((forall k :: 0 <= k < |parts| ==> Avoids(parts[k], c)) ==> SplitOn(ComposeLabel(s, n, [c], gbnumInFront), c) == parts)
  {
    var d := MatchDefline(s).value;
    DescPartsAreWords(d.description);
    if forall k :: 0 <= k < |LabelParts(d, n, gbnumInFront)| ==> Avoids(LabelParts(d, n, gbnumInFront)[k], c) {
      JoinSplit(c, LabelParts(d, n, gbnumInFront));
    }
  }

  /** `Join` of parts that start with an accession starts with that accession, then the separator. */
  lemma JoinFront(sep: string, acc: string, rest: seq<string>)
    ensures Join(sep, [acc] + rest) == if rest == [] then acc else acc + sep + Join(sep, rest)
  {
    assert ([acc] + rest)[1..] == rest;
  }

  /**
   * With the accession in front and a separator that starts with neither `i` nor `|`, the
   * label is no defline, so composing a label twice gives the label of composing once.
   */
  lemma ComposeIdempotent(s: string, n: int, sep: string)
    requires sep != [] && sep[0] != 'i' && sep[0] != '|'
    ensures ComposeLabel(ComposeLabel(s, n, sep, true), n, sep, true) == ComposeLabel(s, n, sep, true)
  {
    var t := ComposeLabel(s, n, sep, true);
    if MatchDefline(s).Some? {
      MatchSound(s);
      var d := MatchDefline(s).value;
      var words := TakePrefix(DescParts(d.description), n);
      JoinFront(sep, d.accession, words);
      if MatchDefline(t).Some? {
        MatchSound(t);
        var e := MatchDefline(t).value;
        TextLayout(t, e);
        NoDeflinePrefix(d.accession, sep, t);
        assert false;
      }
    }
  }

  /** A label that starts with a run of word characters and then such a separator does not start with `gi|`. */
  lemma NoDeflinePrefix(acc: string, sep: string, t: string)
    requires |acc| > 0 && AllWordChars(acc) && sep != [] && sep[0] != 'i' && sep[0] != '|'
    requires t == acc || (|t| >= |acc| + |sep| && t[..|acc| + |sep|] == acc + sep)
    ensures |t| < 3 || t[..3] != "gi|"
  {
    if |t| >= 3 {
      var k := if |acc| == 1 then 1 else 2;
      if t == acc {
        assert IsWordChar(t[k]);
      } else if |acc| >= 3 {
        assert t[k] == t[..|acc| + |sep|][k] == (acc + sep)[k] == acc[k];
        assert IsWordChar(t[k]);
      } else {
        assert t[k] == t[..|acc| + |sep|][k] == (acc + sep)[k] == sep[0];
      }
      assert t[k] != "gi|"[k];
      assert t[..3][k] == t[k];
    }
  }

  /** A defline whose `.` consumed a non-word character is matched with exactly its groups. */
  lemma MatchOfText(d: Defline)
    requires IsDefline(d) && !IsWordChar(d.dot)
    ensures MatchDefline(Text(d)) == Some(d)
  {
    var s := Text(d);
    assert Decomposes(s, d);
    MatchComplete(s, d);
    MatchSound(s);
    var m := MatchDefline(s).value;
    TextLayout(s, d);
    GiTried(s, d);
    TextWordRun(s, d);
    DecompositionUnique(s, d, m);
  }

  /** When `.` consumed a non-word character, the greedy accession stops right before it. */
  lemma TextWordRun(s: string, d: Defline)
    requires LaidOut(s, d) && !IsWordChar(d.dot)
    ensures WordRun(s, 3 + |d.gi| + 4) == |d.accession|
  {
    var p := 3 + |d.gi| + 4;
    WordRunExact(s, p, |d.accession|);
  }

  /** The description of the documented example, in the pieces its words are read from. */
  const ExampleDescription: string := " Homo" + (" sapiens" + (" Ache" + ExampleRest))

  const ExampleRest: string := " non-coding" + (" region" + (" T1584" + (" genomic" + " sequence")))

  /** The groups of the documented example `gi|158931046|gb|EU105975.1| Homo sapiens Ache non-coding region T1584 genomic sequence`. */
  const ExampleDefline: Defline := Defline("158931046", "EU105975", '.', "1", ExampleDescription)

  /** The documented example with the defaults: three words, `_`, accession in front. */
  lemma ComposeExample()
    ensures ComposeLabel(Text(ExampleDefline), 3, "_", true) == "EU105975_Homo_sapiens_Ache"
  {
    var d := ExampleDefline;
    assert AllDigits(d.gi) && AllWordChars(d.accession) && AllDigits(d.version);
    ExampleNoNewline();
    MatchOfText(d);
    ExampleWords();
    DescPartsAreWords(d.description);
    var words := ["Homo", "sapiens", "Ache"];
    assert ComposeLabel(Text(d), 3, "_", true) == Join("_", ["EU105975"] + words);
    JoinFront("_", "EU105975", words);
    assert Join("_", words) == "Homo" + "_" + Join("_", words[1..]);
    assert Join("_", words[1..]) == "sapiens" + "_" + "Ache";
    ExampleLabelText();
  }

  lemma ExampleLabelText()
    ensures "EU105975" + "_" + ("Homo" + "_" + ("sapiens" + "_" + "Ache")) == "EU105975_Homo_sapiens_Ache"
  {
  }

  lemma ExampleNoNewline()
    ensures NoNewline(ExampleDescription)
  {
    assert NoNewline(" genomic") && NoNewline(" sequence");
    NoNewlineConcat(" genomic", " sequence");
    assert NoNewline(" T1584");
    NoNewlineConcat(" T1584", " genomic" + " sequence");
    assert NoNewline(" region");
    NoNewlineConcat(" region", " T1584" + (" genomic" + " sequence"));
    assert NoNewline(" non-coding");
    NoNewlineConcat(" non-coding", " region" + (" T1584" + (" genomic" + " sequence")));
    assert NoNewline(" Ache");
    NoNewlineConcat(" Ache", ExampleRest);
    assert NoNewline(" sapiens");
    NoNewlineConcat(" sapiens", " Ache" + ExampleRest);
    assert NoNewline(" Homo");
    NoNewlineConcat(" Homo", " sapiens" + (" Ache" + ExampleRest));
  }

  lemma NoNewlineConcat(a: string, b: string)
    requires NoNewline(a) && NoNewline(b)
    ensures NoNewline(a + b)
  {
    forall k | 0 <= k < |a + b| ensures (a + b)[k] != '\n' {
      if k >= |a| {
        assert (a + b)[k] == b[k - |a|];
      }
    }
  }

  /** The first three words of the example's description. */
  lemma ExampleWords()
    ensures TakePrefix(Words(ExampleDescription), 3) == ["Homo", "sapiens", "Ache"]
  {
    var r2 := " Ache" + ExampleRest;
    var r1 := " sapiens" + r2;
    assert ExampleRest[0] == ' ' && r2[0] == ' ' && r1[0] == ' ';
    assert SpaceFree("Homo") && SpaceFree("sapiens") && SpaceFree("Ache");
    assert " Homo" == [' '] + "Homo" && " sapiens" == [' '] + "sapiens" && " Ache" == [' '] + "Ache";
    WordsSpaceWord(' ', "Homo", r1);
    WordsSpaceWord(' ', "sapiens", r2);
    WordsSpaceWord(' ', "Ache", ExampleRest);
  }

  /** Whitespace, a word and then whitespace or nothing: the word, then the words of the rest. */
  lemma WordsSpaceWord(sp: char, w: string, r: string)
    requires IsSpace(sp) && |w| > 0 && SpaceFree(w) && (r == [] || IsSpace(r[0]))
    ensures Words([sp] + w + r) == [w] + Words(r)
  {
    var s := [sp] + w + r;
    assert s[1..] == w + r;
    LeadingRunExact(w + r, |w|);
    assert (w + r)[..|w|] == w && (w + r)[|w|..] == r;
  }

  /** A run of `n` non-whitespace characters followed by whitespace or the end is the run `LeadingRun` measures. */
  lemma {:induction false} LeadingRunExact(s: string, n: nat)
    requires n <= |s| && (forall k :: 0 <= k < n ==> !IsSpace(s[k])) && (n < |s| ==> IsSpace(s[n]))
    ensures LeadingRun(s) == n
    decreases n
  {
    if n > 0 {
      LeadingRunExact(s[1..], n - 1);
    }
  }

  // ---------------------------------------------------------------------------------------
  // Relabelling a taxon set

  /** The position of the first taxon without a label, or the number of taxa. */
  function FirstUnlabelled(labels: seq<Option<string>>): (r: nat)
    ensures r <= |labels| && (forall k :: 0 <= k < r ==> labels[k].Some?) && (r < |labels| ==> labels[r].None?)
  {
    if labels == [] then 0 else if labels[0].None? then 0 else 1 + FirstUnlabelled(labels[1..])
  }

  /** The labels after relabelling: composed up to the first missing label, which raises, and unchanged from there. */
  function Relabelled(labels: seq<Option<string>>, n: int, sep: string, gbnumInFront: bool): (r: seq<Option<string>>)
    ensures |r| == |labels|
  {
    var stop := FirstUnlabelled(labels);
    seq(|labels|, k requires 0 <= k < |labels| =>
      if k < stop then Some(ComposeLabel(labels[k].value, n, sep, gbnumInFront)) else labels[k])
  }

  /**
   * `relabel_taxa_from_defline`: replaces every taxon's label by the label composed from it,
   * in order. A taxon without a label makes the matcher raise; the taxa after it keep theirs.
   */
  method RelabelTaxaFromDefline(labels: array<Option<string>>, n: int, sep: string, gbnumInFront: bool) returns (ok: bool)
    modifies labels
    ensures labels[..] == Relabelled(old(labels[..]), n, sep, gbnumInFront)
    ensures ok <==> forall k :: 0 <= k < |old(labels[..])| ==> old(labels[..])[k].Some?
  {
    ghost var before := labels[..];
    for k := 0 to labels.Length
      invariant forall j :: 0 <= j < k ==> before[j].Some? && labels[j] == Some(ComposeLabel(before[j].value, n, sep, gbnumInFront))
      invariant forall j :: k <= j < labels.Length ==> labels[j] == before[j]
    {
      if labels[k].None? {
        RelabelledAt(before, labels[..], k, n, sep, gbnumInFront);
        return false;
      }
      labels[k] := Some(ComposeLabel(labels[k].value, n, sep, gbnumInFront));
    }
    RelabelledAt(before, labels[..], labels.Length, n, sep, gbnumInFront);
    ok := true;
  }

  /** Labels composed before the first missing one at `k` (or the end), and unchanged from there, are the relabelled ones. */
  lemma RelabelledAt(before: seq<Option<string>>, after: seq<Option<string>>, k: nat, n: int, sep: string, gbnumInFront: bool)
    requires |after| == |before| && k <= |before| && (k < |before| ==> before[k].None?)
    requires forall j :: 0 <= j < k ==> before[j].Some? && after[j] == Some(ComposeLabel(before[j].value, n, sep, gbnumInFront))
    requires forall j :: k <= j < |before| ==> after[j] == before[j]
    ensures after == Relabelled(before, n, sep, gbnumInFront)
  {
    FirstUnlabelledAt(before, k);
  }

  /** The first missing label is at `k` when all before it are present and `k` is missing or the end. */
  lemma {:induction false} FirstUnlabelledAt(labels: seq<Option<string>>, k: nat)
    requires k <= |labels| && (forall j :: 0 <= j < k ==> labels[j].Some?) && (k < |labels| ==> labels[k].None?)
    ensures FirstUnlabelled(labels) == k
  {
    if k > 0 {
      FirstUnlabelledAt(labels[1..], k - 1);
    }
  }

  /**
   * Relabelling twice, with the accession in front, changes nothing the second time, also
   * when a taxon without a label stops both passes at the same place.
   */
  lemma RelabelIdempotent(labels: seq<Option<string>>, n: int, sep: string)
    requires sep != [] && sep[0] != 'i' && sep[0] != '|'
    ensures Relabelled(Relabelled(labels, n, sep, true), n, sep, true) == Relabelled(labels, n, sep, true)
  {
    var once := Relabelled(labels, n, sep, true);
    var stop := FirstUnlabelled(labels);
    FirstUnlabelledAt(once, stop);
    forall k | 0 <= k < |labels|
      ensures Relabelled(once, n, sep, true)[k] == once[k]
    {
      if k < stop {
        ComposeIdempotent(labels[k].value, n, sep);
      }
    }
  }
}
