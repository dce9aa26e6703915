/**
 * The text heuristics of the PDF summariser: sentence splitting, fixed-size word chunks,
 * keyword extraction by frequency, keyword scoring of sentences, the top-scored summary and
 * the question-answering ranking. The regular-expression tokeniser and the accent-stripping
 * `normalizeText` are inputs: the tokens it finds, and a normalising function on strings.
 */
module PdfSummarizer {
  import opened Seqs
  import opened Text

  const MinWordLength: nat := 4
  const MaxKeywords: nat := 12
  const MaxSummarySentences: nat := 6
  const MaxAnswers: nat := 5
  const DefaultMaxWords: nat := 180

  // ---------------------------------------------------------------------------------------------
  // Sentences
  // ---------------------------------------------------------------------------------------------

  predicate IsStop(c: char) {
    c == '.' || c == '!' || c == '?'
  }

  /** `(?<=[.!?])\s+` can start at `p`: a stop character before it and whitespace at it. */
  predicate BreakAt(s: string, p: int) {
    0 < p < |s| && IsStop(s[p - 1]) && IsSpace(s[p])
  }

  /** The first index from `p` on where a sentence break starts, or `|s|`. */
  function NextBreak(s: string, p: nat): (q: nat)
    requires p <= |s|
    ensures p <= q <= |s|
    ensures q < |s| ==> BreakAt(s, q)
    ensures forall r :: p <= r < q ==> !BreakAt(s, r)
    decreases |s| - p
  {
    if p == |s| || BreakAt(s, p) then p else NextBreak(s, p + 1)
  }

  /** `s.split(/(?<=[.!?])\s+/)`: cut at each whitespace run that follows a stop; the run is dropped. */
  function SplitAfterStops(s: string): (pieces: seq<string>)
    ensures pieces != []
    decreases |s|
  {
    var p := NextBreak(s, 1 - (if s == [] then 1 else 0));
    if p >= |s| then [s]
    else
      var rest := TrimStart(s[p..]);
      TrimStartShrinks(s[p..]);
      [s[..p]] + SplitAfterStops(rest)
  }

  /** `splitIntoSentences`: collapse whitespace, trim, and split after the stops; nothing for blank text. */
  function SplitIntoSentences(text: string): seq<string> {
    var cleaned := Normalize(text);
    if cleaned == [] then [] else SplitAfterStops(cleaned)
  }

  /** Every whitespace character is a single space between two non-space characters. */
  predicate SingleSpaced(s: string) {
    forall i :: 0 <= i < |s| && IsSpace(s[i]) ==>
      s[i] == ' ' && 0 < i < |s| - 1 && !IsSpace(s[i - 1]) && !IsSpace(s[i + 1])
  }

  lemma {:induction false} JoinSingleSpaced(ws: seq<string>)
    requires forall i :: 0 <= i < |ws| ==> IsWord(ws[i])
    ensures SingleSpaced(Join(ws, " "))
    ensures ws != [] ==> Join(ws, " ") != [] && !IsSpace(Join(ws, " ")[0]) && !IsSpace(Join(ws, " ")[|Join(ws, " ")| - 1])
  {
    if |ws| > 1 {
      JoinSingleSpaced(ws[1..]);
      var w := ws[0];
      var t := Join(ws[1..], " ");
      var s := w + " " + t;
      assert Join(ws, " ") == s;
      assert IsWord(w);
      forall i | 0 <= i < |w| ensures !IsSpace(s[i]) {
        assert s[i] == w[i];
      }
      forall i | 0 <= i < |s| && IsSpace(s[i])
        ensures s[i] == ' ' && 0 < i < |s| - 1 && !IsSpace(s[i - 1]) && !IsSpace(s[i + 1])
      {
        if i > |w| {
          assert s[i] == t[i - |w| - 1];
          var k := i - |w| - 1;
          assert k > 0 && k < |t| - 1;
          assert s[i - 1] == t[k - 1] && s[i + 1] == t[k + 1];
        } else if i == |w| {
          assert s[i - 1] == w[|w| - 1];
          assert s[i + 1] == t[0];
        }
      }
      assert s[0] == w[0];
      assert s[|s| - 1] == t[|t| - 1];
    } else if |ws| == 1 {
      assert IsWord(ws[0]);
    }
  }

  /** Text with collapsed whitespace is single-spaced. */
  lemma NormalizeSingleSpaced(text: string)
    ensures SingleSpaced(Normalize(text))
  {
    JoinSingleSpaced(Words(text));
  }

  /** A suffix of single-spaced text that starts on a non-space character is single-spaced. */
  lemma SingleSpacedSuffix(s: string, k: nat)
    requires SingleSpaced(s) && k <= |s|
    requires k < |s| ==> !IsSpace(s[k])
    ensures SingleSpaced(s[k..])
  {
    var r := s[k..];
    forall i | 0 <= i < |r| && IsSpace(r[i])
      ensures r[i] == ' ' && 0 < i < |r| - 1 && !IsSpace(r[i - 1]) && !IsSpace(r[i + 1])
    {
      assert r[i] == s[k + i];
      if i > 0 {
        assert r[i - 1] == s[k + i - 1];
      }
      if i + 1 < |r| {
        assert r[i + 1] == s[k + i + 1];
      }
    }
  }

  /** On single-spaced text every piece is followed by exactly one space: joining with spaces restores the text. */
  lemma {:induction false} SplitJoin(s: string)
    requires SingleSpaced(s)
    ensures Join(SplitAfterStops(s), " ") == s
    decreases |s|
  {
    var p := NextBreak(s, 1 - (if s == [] then 1 else 0));
    if p < |s| {
      assert s[p] == ' ' && p + 1 < |s| && !IsSpace(s[p + 1]);
      TrimStartShrinks(s[p..]);
      assert s[p..][1..] == s[p + 1..];
      var rest := TrimStart(s[p..]);
      assert rest == s[p + 1..];
      SingleSpacedSuffix(s, p + 1);
      SplitJoin(rest);
      JoinCons(s[..p], SplitAfterStops(rest), " ");
      assert s == s[..p] + " " + rest;
    }
  }

  /**
   * Blank text has no sentences; otherwise joining the sentences with single spaces gives the
   * text with its whitespace runs collapsed and its ends trimmed.
   */
  lemma SentencesSpec(text: string)
    ensures SplitIntoSentences(text) == [] <==> IsBlank(text)
    ensures !IsBlank(text) ==> Join(SplitIntoSentences(text), " ") == Normalize(text)
  {
    WordsEmptyIffBlank(text);
    JoinEmpty(Words(text));
    NormalizeSingleSpaced(text);
    if Normalize(text) != [] {
      SplitJoin(Normalize(text));
    }
  }

  // ---------------------------------------------------------------------------------------------
  // Chunks
  // ---------------------------------------------------------------------------------------------

  /** Where the chunk that starts at word `i` ends: `i + k`, or the end of the list. */
  function ChunkEnd(ws: seq<string>, k: nat, i: nat): nat {
    if i + k < |ws| then i + k else |ws|
  }

  /** The words of consecutive chunks from word `i` on: `words.slice(i, i + maxWords)` for i, i + maxWords, ... */
  function ChunkWords(ws: seq<string>, k: nat, i: nat): seq<seq<string>>
    requires k > 0
    decreases |ws| - i
  {
    if i >= |ws| then [] else [ws[i..ChunkEnd(ws, k, i)]] + ChunkWords(ws, k, i + k)
  }

  /** The chunks as text from word `i` on: each chunk's words joined with single spaces. */
  function ChunkTexts(ws: seq<string>, k: nat, i: nat): seq<string>
    requires k > 0
    decreases |ws| - i
  {
    if i >= |ws| then [] else [Join(ws[i..ChunkEnd(ws, k, i)], " ")] + ChunkTexts(ws, k, i + k)
  }

  /** `splitIntoChunks`: the counted loop that pushes one joined slice of words per step. */
  method SplitIntoChunks(text: string, maxWords: nat) returns (chunks: seq<string>)
    requires maxWords > 0
    ensures chunks == ChunkTexts(Words(text), maxWords, 0)
  {
    var words := Words(text);
    chunks := [];
    var i := 0;
    while i < |words|
      invariant chunks + ChunkTexts(words, maxWords, i) == ChunkTexts(words, maxWords, 0)
      decreases |words| - i
    {
      ChunkStep(words, maxWords, i, chunks);
      chunks := chunks + [Join(words[i..if i + maxWords < |words| then i + maxWords else |words|], " ")];
      i := i + maxWords;
    }
  }

  /**
   * `splitIntoChunks(text)` as the upload handler calls it, with the default of 180 words per
   * chunk: the chunk count it reports is zero exactly for blank text.
   */
  method SplitIntoDefaultChunks(text: string) returns (chunks: seq<string>)
    ensures chunks == ChunkTexts(Words(text), DefaultMaxWords, 0)
    ensures chunks == [] <==> IsBlank(text)
  {
    chunks := SplitIntoChunks(text, DefaultMaxWords);
    WordsEmptyIffBlank(text);
  }

  /** One step of the loop: pushing the chunk at `i` and moving on to `i + k` keeps the invariant. */
  lemma ChunkStep(ws: seq<string>, k: nat, i: nat, done: seq<string>)
    requires k > 0 && i < |ws|
    requires done + ChunkTexts(ws, k, i) == ChunkTexts(ws, k, 0)
    ensures (done + [Join(ws[i..if i + k < |ws| then i + k else |ws|], " ")]) + ChunkTexts(ws, k, i + k) == ChunkTexts(ws, k, 0)
  {
    var chunk := Join(ws[i..ChunkEnd(ws, k, i)], " ");
    var later := ChunkTexts(ws, k, i + k);
    assert ChunkTexts(ws, k, i) == [chunk] + later;
    assert done + ([chunk] + later) == (done + [chunk]) + later;
  }

  /** There is one text per chunk: the chunk's words joined with single spaces. */
  lemma {:induction false} ChunkTextsJoin(ws: seq<string>, k: nat, i: nat)
    requires k > 0
    ensures |ChunkTexts(ws, k, i)| == |ChunkWords(ws, k, i)|
    ensures forall j :: 0 <= j < |ChunkTexts(ws, k, i)| ==> ChunkTexts(ws, k, i)[j] == Join(ChunkWords(ws, k, i)[j], " ")
    decreases |ws| - i
  {
    if i < |ws| {
      ChunkTextsJoin(ws, k, i + k);
      var ts := ChunkTexts(ws, k, i);
      var cw := ChunkWords(ws, k, i);
      forall j | 1 <= j < |ts| ensures ts[j] == Join(cw[j], " ") {
        assert ts[j] == ChunkTexts(ws, k, i + k)[j - 1];
        assert cw[j] == ChunkWords(ws, k, i + k)[j - 1];
      }
    }
  }

  /** The concatenation of a sequence of word lists. */
  function Flatten(xss: seq<seq<string>>): seq<string> {
    if xss == [] then [] else xss[0] + Flatten(xss[1..])
  }

  /** Concatenating the chunks' words gives back the words from `i` on: no word is lost, repeated or moved. */
  lemma {:induction false} ChunkWordsFlatten(ws: seq<string>, k: nat, i: nat)
    requires k > 0 && i <= |ws|
    ensures Flatten(ChunkWords(ws, k, i)) == ws[i..]
    decreases |ws| - i
  {
    if i < |ws| {
      var end := ChunkEnd(ws, k, i);
      var cw := ChunkWords(ws, k, i);
      assert cw[0] == ws[i..end] && cw[1..] == ChunkWords(ws, k, i + k);
      if i + k < |ws| {
        ChunkWordsFlatten(ws, k, i + k);
      } else {
        assert ws[end..] == [];
      }
      assert ws[i..] == ws[i..end] + ws[end..];
    }
  }

  /** Every chunk but the last has exactly `k` words and the last has between 1 and `k`. */
  lemma {:induction false} ChunkWordsSizes(ws: seq<string>, k: nat, i: nat)
    requires k > 0
    ensures forall j :: 0 <= j < |ChunkWords(ws, k, i)| - 1 ==> |ChunkWords(ws, k, i)[j]| == k
    ensures ChunkWords(ws, k, i) != [] ==> 1 <= |ChunkWords(ws, k, i)[|ChunkWords(ws, k, i)| - 1]| <= k
    decreases |ws| - i
  {
    if i < |ws| {
      var rest := ChunkWords(ws, k, i + k);
      ChunkWordsSizes(ws, k, i + k);
      var cw := ChunkWords(ws, k, i);
      assert cw == [ws[i..ChunkEnd(ws, k, i)]] + rest;
      if rest == [] {
        assert |cw[0]| <= k;
      }
      forall j | 0 <= j < |cw| - 1 ensures |cw[j]| == k {
        if j > 0 {
          assert cw[j] == rest[j - 1];
        } else {
          assert rest != [];
        }
      }
    }
  }

  /** Every word of every chunk is a word (non-empty, without whitespace). */
  lemma {:induction false} ChunkWordsAreWords(ws: seq<string>, k: nat, i: nat)
    requires k > 0
    requires forall j :: 0 <= j < |ws| ==> IsWord(ws[j])
    ensures forall c, j :: 0 <= c < |ChunkWords(ws, k, i)| && 0 <= j < |ChunkWords(ws, k, i)[c]| ==>
      IsWord(ChunkWords(ws, k, i)[c][j])
    decreases |ws| - i
  {
    if i < |ws| {
      ChunkWordsAreWords(ws, k, i + k);
      var cw := ChunkWords(ws, k, i);
      forall c, j | 0 <= c < |cw| && 0 <= j < |cw[c]| ensures IsWord(cw[c][j]) {
        if c == 0 {
          assert cw[0][j] == ws[i + j];
        } else {
          assert cw[c] == ChunkWords(ws, k, i + k)[c - 1];
        }
      }
    }
  }

  /** A chunk's words, read back from its text, are exactly the words that went into it. */
  lemma ChunkTextWords(text: string, k: nat, c: nat)
    requires k > 0 && c < |ChunkWords(Words(text), k, 0)|
    ensures c < |ChunkTexts(Words(text), k, 0)| && Words(ChunkTexts(Words(text), k, 0)[c]) == ChunkWords(Words(text), k, 0)[c]
  {
    ChunkTextsJoin(Words(text), k, 0);
    ChunkWordsAreWords(Words(text), k, 0);
    WordsOfJoin(ChunkWords(Words(text), k, 0)[c]);
  }

  // ---------------------------------------------------------------------------------------------
  // Keywords
  // ---------------------------------------------------------------------------------------------

  /** A token long enough to be counted as a keyword candidate. */
  predicate Counted(t: string) {
    |t| >= MinWordLength
  }

  /** How often `w` occurs in `ts`. */
  function Occurrences(ts: seq<string>, w: string): nat
    decreases |ts|
  {
    if ts == [] then 0
    else Occurrences(ts[..|ts| - 1], w) + (if ts[|ts| - 1] == w then 1 else 0)
  }

  lemma OccurrencesSnoc(ts: seq<string>, t: string, w: string)
    ensures Occurrences(ts + [t], w) == Occurrences(ts, w) + (if t == w then 1 else 0)
  {
    assert (ts + [t])[..|ts|] == ts;
  }

  lemma {:induction false} OccurrencesAbsent(ts: seq<string>, w: string)
    requires w !in ts
    ensures Occurrences(ts, w) == 0
    decreases |ts|
  {
    if ts != [] {
      assert ts == ts[..|ts| - 1] + [ts[|ts| - 1]];
      OccurrencesAbsent(ts[..|ts| - 1], w);
    }
  }

  /** The counted tokens, each once, in order of first occurrence: the key order of the frequency `Map`. */
  function FirstSeen(ts: seq<string>): (r: seq<string>)
    ensures Distinct(r)
    ensures forall i :: 0 <= i < |r| ==> Counted(r[i]) && r[i] in ts
    ensures forall w :: w in ts && Counted(w) ==> w in r
    decreases |ts|
  {
    if ts == [] then []
    else
      var seen := FirstSeen(ts[..|ts| - 1]);
      var t := ts[|ts| - 1];
      assert ts == ts[..|ts| - 1] + [t];
      if !Counted(t) || t in seen then seen else seen + [t]
  }

  /** A `[word, count]` entry of the frequency map. */
  datatype Tally = Tally(word: string, count: nat)

  /** `[...freq.entries()]` once every token has been counted. */
  function Tallies(ts: seq<string>): (r: seq<Tally>)
    ensures |r| == |FirstSeen(ts)|
    ensures forall i :: 0 <= i < |r| ==> r[i] == Tally(FirstSeen(ts)[i], Occurrences(ts, FirstSeen(ts)[i]))
  {
    var seen := FirstSeen(ts);
    seq(|seen|, i requires 0 <= i < |seen| => Tally(seen[i], Occurrences(ts, seen[i])))
  }

  /** `sort((a, b) => b[1] - a[1])`: the stable sort by decreasing count. */
  function RankTallies(entries: seq<Tally>): (r: seq<Tally>)
    ensures |r| == |entries| && multiset(r) == multiset(entries)
    ensures forall i, j :: 0 <= i < j < |r| ==> r[i].count >= r[j].count
  {
    var key: Tally -> int := (e: Tally) => 0 - e.count;
    SortBySpec(entries, key);
    SortBy(entries, key)
  }

  /** `extractKeywords` as a value: the words of the first `MaxKeywords` ranked entries. */
  function TopKeywords(ts: seq<string>): seq<string> {
    var ranked := RankTallies(Tallies(ts));
    var n := if |ranked| < MaxKeywords then |ranked| else MaxKeywords;
    seq(n, i requires 0 <= i < n => ranked[i].word)
  }

  /**
   * `extractKeywords`: the `forEach` over the tokens fills the frequency map (a new word goes
   * to the end of the key order, a known one keeps its place), then the entries are ranked.
   * `tokens` is what the regular expression finds in the normalised text.
   */
  method ExtractKeywords(tokens: seq<string>) returns (keywords: seq<string>)
    ensures keywords == TopKeywords(tokens)
  {
    var freq, order := CountTokens(tokens);
    var entries := seq(|order|, j requires 0 <= j < |order| => Tally(order[j], freq[order[j]]));
    forall j | 0 <= j < |order| ensures entries[j] == Tallies(tokens)[j] {
      assert order[j] in order;
    }
    assert entries == Tallies(tokens);
    var ranked := RankTallies(entries);
    var n := if |ranked| < MaxKeywords then |ranked| else MaxKeywords;
    keywords := seq(n, j requires 0 <= j < n => ranked[j].word);
  }

  /**
   * The counting loop of `extractKeywords`: `freq` maps each counted token to its number of
   * occurrences and `order` lists the counted tokens in order of first appearance.
   */
  method CountTokens(tokens: seq<string>) returns (freq: map<string, nat>, order: seq<string>)
    ensures order == FirstSeen(tokens)
    ensures forall w :: w in freq <==> w in order
    ensures forall w :: w in freq ==> freq[w] == Occurrences(tokens, w)
  {
    freq := map[];
    order := [];
    for i := 0 to |tokens|
      invariant order == FirstSeen(tokens[..i])
      invariant forall w :: w in freq <==> w in order
      invariant forall w :: w in freq ==> freq[w] == Occurrences(tokens[..i], w)
    {
      var token := tokens[i];
      assert tokens[..i + 1] == tokens[..i] + [token];
      forall w ensures Occurrences(tokens[..i + 1], w) == Occurrences(tokens[..i], w) + (if token == w then 1 else 0) {
        OccurrencesSnoc(tokens[..i], token, w);
      }
      if |token| >= MinWordLength {
        if token !in freq {
          OccurrencesAbsent(tokens[..i], token);
          order := order + [token];
          freq := freq[token := 1];
        } else {
          freq := freq[token := freq[token] + 1];
        }
      } else {
        assert token !in order;
      }
    }
    assert tokens[..|tokens|] == tokens;
  }

  /** Every ranked entry is the tally of one counted token. */
  lemma RankedTally(ts: seq<string>, i: nat)
    requires i < |RankTallies(Tallies(ts))|
    ensures var e := RankTallies(Tallies(ts))[i];
      e.word in FirstSeen(ts) && e.count == Occurrences(ts, e.word)
  {
    var ranked := RankTallies(Tallies(ts));
    assert ranked[i] in multiset(Tallies(ts));
  }

  /** At most `MaxKeywords` keywords, all counted tokens of the text, in non-increasing order of frequency. */
  lemma KeywordsRanked(ts: seq<string>)
    ensures |TopKeywords(ts)| <= MaxKeywords
    ensures forall i :: 0 <= i < |TopKeywords(ts)| ==> Counted(TopKeywords(ts)[i]) && TopKeywords(ts)[i] in ts
    ensures forall i, j :: 0 <= i < j < |TopKeywords(ts)| ==>
      Occurrences(ts, TopKeywords(ts)[i]) >= Occurrences(ts, TopKeywords(ts)[j])
  {
    var ranked := RankTallies(Tallies(ts));
    forall i | 0 <= i < |ranked| ensures ranked[i].word in FirstSeen(ts) && ranked[i].count == Occurrences(ts, ranked[i].word) {
      RankedTally(ts, i);
    }
  }

  /** No keyword is listed twice. */
  lemma KeywordsDistinct(ts: seq<string>)
    ensures Distinct(TopKeywords(ts))
  {
    var tallies := Tallies(ts);
    var ranked := RankTallies(tallies);
    var kw := TopKeywords(ts);
    PermutationDistinct(tallies, ranked);
    forall i, j | 0 <= i < j < |kw| ensures kw[i] != kw[j] {
      RankedTally(ts, i);
      RankedTally(ts, j);
      assert ranked[i] != ranked[j];
    }
  }

  /**
   * A counted token of the text is left out only when the list is full, and then no keyword
   * occurs less often than it.
   */
  lemma KeywordsTop(ts: seq<string>, w: string)
    requires w in ts && Counted(w) && w !in TopKeywords(ts)
    ensures |TopKeywords(ts)| == MaxKeywords
    ensures forall i :: 0 <= i < MaxKeywords ==> Occurrences(ts, TopKeywords(ts)[i]) >= Occurrences(ts, w)
  {
    var tallies := Tallies(ts);
    var ranked := RankTallies(tallies);
    var kw := TopKeywords(ts);
    var seen := FirstSeen(ts);
    var q :| 0 <= q < |seen| && seen[q] == w;
    assert tallies[q] in multiset(ranked);
    var p :| 0 <= p < |ranked| && ranked[p] == tallies[q];
    assert forall i :: 0 <= i < |kw| ==> kw[i] == ranked[i].word;
    forall i | 0 <= i < MaxKeywords ensures Occurrences(ts, kw[i]) >= Occurrences(ts, w) {
      RankedTally(ts, i);
    }
  }

  // ---------------------------------------------------------------------------------------------
  // Scoring by contained words
  // ---------------------------------------------------------------------------------------------

  /** The number of words of `ws` that `s` contains as substrings. */
  function Hits(s: string, ws: seq<string>): (n: nat)
    ensures n <= |ws|
    ensures n > 0 <==> exists i :: 0 <= i < |ws| && Includes(s, ws[i])
  {
    var hit := Filter(ws, (w: string) => Includes(s, w));
    assert hit != [] ==> hit[0] in ws && Includes(s, hit[0]);
    |hit|
  }

  /** The counter loop shared by `scoreSentence` and `findAnswers`: one point per contained word. */
  method CountIncluded(normalized: string, ws: seq<string>) returns (n: nat)
    ensures n == Hits(normalized, ws)
  {
    var contains := (w: string) => Includes(normalized, w);
    n := 0;
    for i := 0 to |ws|
      invariant n == |Filter(ws[..i], contains)|
    {
      assert ws[..i + 1] == ws[..i] + [ws[i]];
      FilterAppend(ws[..i], [ws[i]], contains);
      if Includes(normalized, ws[i]) {
        n := n + 1;
      }
    }
    assert ws[..|ws|] == ws;
  }

  /** `scoreSentence`: the number of keywords the normalised sentence contains. */
  method ScoreSentence(sentence: string, keywords: seq<string>, norm: string -> string) returns (score: nat)
    ensures score == Hits(norm(sentence), keywords)
    ensures score <= |keywords|
  {
    score := CountIncluded(norm(sentence), keywords);
  }

  // ---------------------------------------------------------------------------------------------
  // Summary
  // ---------------------------------------------------------------------------------------------

  /** A sentence with its keyword score. */
  datatype Scored = Scored(sentence: string, score: nat)

  /** `sentences.map(sentence => ({ sentence, score: scoreSentence(sentence, keywords) }))`. */
  function ScoreAll(sentences: seq<string>, keywords: seq<string>, norm: string -> string): (r: seq<Scored>)
    ensures |r| == |sentences|
    ensures forall i :: 0 <= i < |r| ==> r[i] == Scored(sentences[i], Hits(norm(sentences[i]), keywords))
  {
    seq(|sentences|, i requires 0 <= i < |sentences| => Scored(sentences[i], Hits(norm(sentences[i]), keywords)))
  }

  /** `sort((a, b) => b.score - a.score)`: the stable sort by decreasing score. */
  function RankScored(items: seq<Scored>): (r: seq<Scored>)
    ensures |r| == |items| && multiset(r) == multiset(items)
    ensures forall i, j :: 0 <= i < j < |r| ==> r[i].score >= r[j].score
  {
    var key: Scored -> int := (e: Scored) => 0 - e.score;
    SortBySpec(items, key);
    SortBy(items, key)
  }

  /** The scored sentences `summarizeText` keeps: the first `min(6, n)` of the ranking. */
  function SummaryPicks(sentences: seq<string>, keywords: seq<string>, norm: string -> string): seq<Scored> {
    var ranked := RankScored(ScoreAll(sentences, keywords, norm));
    ranked[..if |sentences| < MaxSummarySentences then |sentences| else MaxSummarySentences]
  }

  /** The `sentences.map(...)` of `summarizeText`: each sentence with its score, in order. */
  method ScoreSentences(sentences: seq<string>, keywords: seq<string>, norm: string -> string) returns (scored: seq<Scored>)
    ensures scored == ScoreAll(sentences, keywords, norm)
  {
    scored := [];
    for i := 0 to |sentences|
      invariant |scored| == i
      invariant forall j :: 0 <= j < i ==> scored[j] == Scored(sentences[j], Hits(norm(sentences[j]), keywords))
    {
      var score := ScoreSentence(sentences[i], keywords, norm);
      scored := scored + [Scored(sentences[i], score)];
    }
  }

  /** The summary of a list of sentences: the picked sentences, trimmed. */
  function Summary(sentences: seq<string>, keywords: seq<string>, norm: string -> string): seq<string> {
    var picks := SummaryPicks(sentences, keywords, norm);
    seq(|picks|, i requires 0 <= i < |picks| => Trim(picks[i].sentence))
  }

  /**
   * `summarizeText`: no sentences give no summary; otherwise the keywords are extracted, each
   * sentence is scored and the ranking is cut. `tokens` are the regular-expression tokens of
   * the normalised text and `norm` is `normalizeText`.
   */
  method Summarize(text: string, tokens: seq<string>, norm: string -> string) returns (summary: seq<string>)
    ensures summary == Summary(SplitIntoSentences(text), TopKeywords(tokens), norm)
  {
    var sentences := SplitIntoSentences(text);
    if |sentences| == 0 {
      return [];
    }
    var keywords := ExtractKeywords(tokens);
    var scored := ScoreSentences(sentences, keywords, norm);
    var ranked := RankScored(scored);
    var picks := ranked[..if |sentences| < MaxSummarySentences then |sentences| else MaxSummarySentences];
    summary := seq(|picks|, i requires 0 <= i < |picks| => Trim(picks[i].sentence));
  }

  /** The summary has `min(6, n)` entries for `n` sentences. */
  lemma SummaryLength(sentences: seq<string>, keywords: seq<string>, norm: string -> string)
    ensures |Summary(sentences, keywords, norm)| ==
      (if |sentences| < MaxSummarySentences then |sentences| else MaxSummarySentences)
  {
    assert |RankScored(ScoreAll(sentences, keywords, norm))| == |sentences|;
  }

  /**
   * The picks are different scored sentences of the input, each carrying that sentence's own
   * score, in non-increasing score order.
   */
  lemma SummaryPicksSpec(sentences: seq<string>, keywords: seq<string>, norm: string -> string)
    ensures multiset(SummaryPicks(sentences, keywords, norm)) <= multiset(ScoreAll(sentences, keywords, norm))
    ensures forall i, j :: 0 <= i < j < |SummaryPicks(sentences, keywords, norm)| ==>
      SummaryPicks(sentences, keywords, norm)[i].score >= SummaryPicks(sentences, keywords, norm)[j].score
  {
    var ranked := RankScored(ScoreAll(sentences, keywords, norm));
    SplitMultiset(ranked, |SummaryPicks(sentences, keywords, norm)|);
  }

  /** No sentence left out of the summary scores higher than a picked one. */
  lemma SummaryTop(sentences: seq<string>, keywords: seq<string>, norm: string -> string, x: Scored, i: nat)
    requires x in multiset(ScoreAll(sentences, keywords, norm)) - multiset(SummaryPicks(sentences, keywords, norm))
    requires i < |SummaryPicks(sentences, keywords, norm)|
    ensures SummaryPicks(sentences, keywords, norm)[i].score >= x.score
  {
    var ranked := RankScored(ScoreAll(sentences, keywords, norm));
    var j := LeftOutIsLater(ranked, |SummaryPicks(sentences, keywords, norm)|, x);
  }

  /** The summary of a text is empty exactly when the text is blank. */
  lemma SummaryEmptyIffBlank(text: string, keywords: seq<string>, norm: string -> string)
    ensures Summary(SplitIntoSentences(text), keywords, norm) == [] <==> IsBlank(text)
  {
    SentencesSpec(text);
    SummaryLength(SplitIntoSentences(text), keywords, norm);
  }

  /** `buildSummaryText`: the summary sentences joined with single spaces. */
  function BuildSummaryText(sentences: seq<string>): (text: string)
    ensures forall i :: 0 <= i < |sentences| ==> Includes(text, sentences[i])
  {
    JoinIncludes(sentences, " ");
    Join(sentences, " ")
  }

  /** Each joined element occurs in the joined text. */
  lemma {:induction false} JoinIncludes(xs: seq<string>, sep: string)
    ensures forall i :: 0 <= i < |xs| ==> Includes(Join(xs, sep), xs[i])
  {
    if |xs| > 1 {
      JoinIncludes(xs[1..], sep);
      var rest := Join(xs[1..], sep);
      var s := Join(xs, sep);
      assert s == xs[0] + sep + rest;
      assert OccursAt(s, xs[0], 0);
      forall i | 1 <= i < |xs| ensures Includes(s, xs[i]) {
        assert xs[i] == xs[1..][i - 1];
        var k :| 0 <= k <= |rest| - |xs[i]| && OccursAt(rest, xs[i], k);
        var off := |xs[0]| + |sep|;
        assert s[off + k..off + k + |xs[i]|] == rest[k..k + |xs[i]|];
        assert OccursAt(s, xs[i], off + k);
      }
    } else if |xs| == 1 {
      assert OccursAt(xs[0], xs[0], 0);
    }
  }

  // ---------------------------------------------------------------------------------------------
  // Question answering
  // ---------------------------------------------------------------------------------------------

  /** A candidate answer: a trimmed sentence and the number of question words it contains. */
  datatype QAResult = QAResult(answer: string, relevance: nat)

  /**
   * `normalizeText(question).split(/\s+/).filter(w => w.length > 3)`: the empty pieces that
   * `split` yields at the ends are too short to pass the filter, so the words suffice.
   */
  function QuestionWords(normalizedQuestion: string): (qw: seq<string>)
    ensures forall i :: 0 <= i < |qw| ==> |qw[i]| > 3 && qw[i] in Words(normalizedQuestion)
  {
    Filter(Words(normalizedQuestion), (w: string) => |w| > 3)
  }

  /** `sentences.map(...)`: each trimmed sentence with the number of question words its normalised text contains. */
  function Relevances(sentences: seq<string>, qw: seq<string>, norm: string -> string): (r: seq<QAResult>)
    ensures |r| == |sentences|
    ensures forall i :: 0 <= i < |r| ==> r[i] == QAResult(Trim(sentences[i]), Hits(norm(sentences[i]), qw))
  {
    seq(|sentences|, i requires 0 <= i < |sentences| => QAResult(Trim(sentences[i]), Hits(norm(sentences[i]), qw)))
  }

  lemma RelevancesSnoc(sentences: seq<string>, s: string, qw: seq<string>, norm: string -> string)
    ensures Relevances(sentences + [s], qw, norm) == Relevances(sentences, qw, norm) + [QAResult(Trim(s), Hits(norm(s), qw))]
  {
  }

  /** `.filter(item => item.relevance > 0)`. */
  function Relevant(items: seq<QAResult>): seq<QAResult> {
    Filter(items, (r: QAResult) => r.relevance > 0)
  }

  /** `sort((a, b) => b.relevance - a.relevance)`: the stable sort by decreasing relevance. */
  function RankAnswers(items: seq<QAResult>): (r: seq<QAResult>)
    ensures |r| == |items| && multiset(r) == multiset(items)
    ensures forall i, j :: 0 <= i < j < |r| ==> r[i].relevance >= r[j].relevance
  {
    var key: QAResult -> int := (e: QAResult) => 0 - e.relevance;
    SortBySpec(items, key);
    SortBy(items, key)
  }

  /** `.filter(...).sort(...).slice(0, 5)`: the first five of the ranked relevant items. */
  function TopAnswers(items: seq<QAResult>): seq<QAResult> {
    var ranked := RankAnswers(Relevant(items));
    ranked[..if |ranked| < MaxAnswers then |ranked| else MaxAnswers]
  }

  /** `findAnswers` on the sentences of the text. */
  function Answers(sentences: seq<string>, qw: seq<string>, norm: string -> string): seq<QAResult> {
    TopAnswers(Relevances(sentences, qw, norm))
  }

  /** `findAnswers`: scores every sentence with the counter loop, keeps the relevant ones and ranks them. */
  method FindAnswers(question: string, text: string, norm: string -> string) returns (answers: seq<QAResult>)
    ensures answers == Answers(SplitIntoSentences(text), QuestionWords(norm(question)), norm)
  {
    var qw := QuestionWords(norm(question));
    var sentences := SplitIntoSentences(text);
    var scored := ScoreAnswers(sentences, qw, norm);
    var ranked := RankAnswers(Relevant(scored));
    answers := ranked[..if |ranked| < MaxAnswers then |ranked| else MaxAnswers];
  }

  /** The `sentences.map(...)` of `findAnswers`: each trimmed sentence with its counter-loop relevance. */
  method ScoreAnswers(sentences: seq<string>, qw: seq<string>, norm: string -> string) returns (scored: seq<QAResult>)
    ensures scored == Relevances(sentences, qw, norm)
  {
    scored := [];
    for i := 0 to |sentences|
      invariant |scored| == i
      invariant forall k :: 0 <= k < i ==> scored[k] == QAResult(Trim(sentences[k]), Hits(norm(sentences[k]), qw))
    {
      var relevance := CountIncluded(norm(sentences[i]), qw);
      scored := scored + [QAResult(Trim(sentences[i]), relevance)];
    }
  }

  /** At most five answers, as many as there are relevant items up to five, each a different item. */
  lemma TopAnswersCount(items: seq<QAResult>)
    ensures var m := |Relevant(items)|;
      |TopAnswers(items)| == (if m < MaxAnswers then m else MaxAnswers)
    ensures multiset(TopAnswers(items)) <= multiset(Relevant(items)) <= multiset(items)
  {
    FilterMultiset(items, (r: QAResult) => r.relevance > 0);
    var ranked := RankAnswers(Relevant(items));
    SplitMultiset(ranked, |TopAnswers(items)|);
  }

  /** Every answer has a positive relevance, and relevance never increases along the list. */
  lemma TopAnswersOrder(items: seq<QAResult>)
    ensures forall i :: 0 <= i < |TopAnswers(items)| ==> TopAnswers(items)[i].relevance > 0
    ensures forall i, j :: 0 <= i < j < |TopAnswers(items)| ==>
      TopAnswers(items)[i].relevance >= TopAnswers(items)[j].relevance
  {
    var relevant := Relevant(items);
    var ranked := RankAnswers(relevant);
    var answers := TopAnswers(items);
    forall i | 0 <= i < |answers| ensures answers[i].relevance > 0 {
      assert answers[i] == ranked[i];
      assert ranked[i] in multiset(relevant);
    }
  }

  /** No relevant item left out of the answers is more relevant than a picked one. */
  lemma TopAnswersTop(items: seq<QAResult>, x: QAResult, i: nat)
    requires x in multiset(Relevant(items)) - multiset(TopAnswers(items))
    requires i < |TopAnswers(items)|
    ensures TopAnswers(items)[i].relevance >= x.relevance
  {
    var ranked := RankAnswers(Relevant(items));
    var j := LeftOutIsLater(ranked, |TopAnswers(items)|, x);
  }

  /**
   * Every answer is a trimmed sentence of the text paired with its own relevance, which lies
   * between 1 and the number of question words.
   */
  lemma AnswersSpec(sentences: seq<string>, qw: seq<string>, norm: string -> string)
    ensures multiset(Answers(sentences, qw, norm)) <= multiset(Relevances(sentences, qw, norm))
    ensures forall i :: 0 <= i < |Answers(sentences, qw, norm)| ==>
      1 <= Answers(sentences, qw, norm)[i].relevance <= |qw|
  {
    var all := Relevances(sentences, qw, norm);
    var answers := TopAnswers(all);
    TopAnswersCount(all);
    TopAnswersOrder(all);
    forall i | 0 <= i < |answers| ensures answers[i].relevance <= |qw| {
      assert answers[i] in multiset(all);
    }
  }
}
