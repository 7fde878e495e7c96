/** Searching the bundled documents: the best line of each, in a fixed order. */
module Search {
  import opened Order
  import opened Text
  import opened Wrappers

  const CONTEXT_LINES := 2

  datatype Hit = Hit(slug: string, snippet: string, startLine: int, endLine: int, score: int)

  /** A catalog entry; its content is None when it cannot be read. */
  datatype Document = Document(slug: string, content: Option<string>)

  // ---------------------------------------------------------------------------
  // Scoring one line
  // ---------------------------------------------------------------------------

  predicate Contains(s: string, part: string) {
    part <= s || (s != "" && Contains(s[1..], part))
  }

  /** The non-blank start of `s`. */
  function Word(s: string): (w: string)
    ensures w <= s
  {
    if s == "" || IsSpace(s[0]) then "" else [s[0]] + Word(s[1..])
  }

  lemma {:induction false} TrimLeftShortens(s: string)
    ensures |TrimLeft(s)| <= |s|
  {
    if s != "" && IsSpace(s[0]) {
      TrimLeftShortens(s[1..]);
    }
  }

  /** The words of `s`. */
  function Fields(s: string): seq<string>
    decreases |s|
  {
    TrimLeftShortens(s);
    TrimLeftFacts(s);
    var t := TrimLeft(s);
    if t == "" then [] else [Word(t)] + Fields(t[|Word(t)|..])
  }

  function Score(lowerLine: string, lowerQuery: string, queryTokens: seq<string>): int {
    if Contains(lowerLine, lowerQuery) then 2
    else if exists t :: t in queryTokens && t in Fields(lowerLine) then 1
    else 0
  }

  method ScoreMatch(lowerLine: string, lowerQuery: string, queryTokens: seq<string>) returns (score: int)
    ensures score == Score(lowerLine, lowerQuery, queryTokens)
  {
    if Contains(lowerLine, lowerQuery) {
      return 2;
    }
    var lineTokens := Fields(lowerLine);
    var lineSet: set<string> := {};
    for i := 0 to |lineTokens|
      invariant lineSet == set t | t in lineTokens[..i]
    {
      lineSet := lineSet + {lineTokens[i]};
    }
    assert lineTokens[..|lineTokens|] == lineTokens;
    for i := 0 to |queryTokens|
      invariant forall t :: t in queryTokens[..i] ==> t !in lineSet
    {
      if queryTokens[i] in lineSet {
        return 1;
      }
    }
    assert queryTokens[..|queryTokens|] == queryTokens;
    return 0;
  }

  // ---------------------------------------------------------------------------
  // All hits
  // ---------------------------------------------------------------------------

  function Max(a: int, b: int): int {
    if a < b then b else a
  }

  function Min(a: int, b: int): int {
    if a < b then a else b
  }

  function HitAt(slug: string, lines: seq<string>, i: nat, score: int): Hit
    requires i < |lines|
  {
    var start := Max(i - CONTEXT_LINES, 0);
    var end := Min(i + CONTEXT_LINES, |lines| - 1);
    Hit(slug, Join(lines[start..end + 1], '\n'), start + 1, end + 1, score)
  }

  /** The hits on the first `n` lines, in order. */
  function DocumentHits(slug: string, lines: seq<string>, lowerQuery: string, queryTokens: seq<string>, n: nat): seq<Hit>
    requires n <= |lines|
  {
    if n == 0 then []
    else
      var score := Score(Lower(lines[n - 1]), lowerQuery, queryTokens);
      DocumentHits(slug, lines, lowerQuery, queryTokens, n - 1) + if score == 0 then [] else [HitAt(slug, lines, n - 1, score)]
  }

  function AllHits(docs: seq<Document>, query: string, n: nat): seq<Hit>
    requires n <= |docs|
  {
    if n == 0 then []
    else
      var lines := Split(docs[n - 1].content.GetOr(""), '\n');
      AllHits(docs, query, n - 1) + DocumentHits(docs[n - 1].slug, lines, Lower(query), Fields(Lower(query)), |lines|)
  }

  lemma SplitSlice(lines: seq<string>, a: nat, b: nat)
    requires a < b <= |lines| && forall i :: 0 <= i < |lines| ==> '\n' !in lines[i]
    ensures Split(Join(lines[a..b], '\n'), '\n') == lines[a..b]
  {
    SplitJoin(lines[a..b], '\n');
  }

  /** The snippet of a hit is exactly the lines from startLine to endLine. */
  lemma SnippetIsItsLines(slug: string, content: string, i: nat, score: int)
    requires i < |Split(content, '\n')|
    ensures var lines := Split(content, '\n');
            var h := HitAt(slug, lines, i, score);
            1 <= h.startLine <= h.endLine <= |lines| && Split(h.snippet, '\n') == lines[h.startLine - 1..h.endLine]
  {
    JoinSplit(content, '\n');
    SnippetOf(slug, Split(content, '\n'), i, score);
  }

  lemma SnippetOf(slug: string, lines: seq<string>, i: nat, score: int)
    requires i < |lines| && forall j :: 0 <= j < |lines| ==> '\n' !in lines[j]
    ensures var h := HitAt(slug, lines, i, score);
            1 <= h.startLine <= h.endLine <= |lines| && Split(h.snippet, '\n') == lines[h.startLine - 1..h.endLine]
  {
    var h := HitAt(slug, lines, i, score);
    SplitSlice(lines, h.startLine - 1, h.endLine);
  }

  /** The line hit is among them, with two lines of context on either side as far as there are any. */
  lemma SnippetShowsHit(slug: string, lines: seq<string>, i: nat, score: int)
    requires i < |lines|
    ensures var h := HitAt(slug, lines, i, score);
            && 1 <= h.startLine <= i + 1 <= h.endLine <= |lines|
            && lines[h.startLine - 1..h.endLine][i - (h.startLine - 1)] == lines[i]
            && (h.startLine == 1 || h.startLine == i + 1 - 2)
            && (h.endLine == |lines| || h.endLine == i + 1 + 2)
            && h.slug == slug && h.score == score
  {
  }

  lemma {:induction false} DocumentHitOrigin(slug: string, lines: seq<string>, lowerQuery: string, queryTokens: seq<string>, n: nat, h: Hit)
    returns (i: nat)
    requires n <= |lines| && h in DocumentHits(slug, lines, lowerQuery, queryTokens, n)
    ensures i < |lines| && Score(Lower(lines[i]), lowerQuery, queryTokens) > 0
    ensures h == HitAt(slug, lines, i, Score(Lower(lines[i]), lowerQuery, queryTokens))
  {
    if h in DocumentHits(slug, lines, lowerQuery, queryTokens, n - 1) {
      i := DocumentHitOrigin(slug, lines, lowerQuery, queryTokens, n - 1, h);
    } else {
      i := n - 1;
    }
  }

  /** Every hit comes from a line of one of the documents, with that line's score. */
  lemma {:induction false} HitOrigin(docs: seq<Document>, query: string, n: nat, h: Hit) returns (k: nat, i: nat)
    requires n <= |docs| && h in AllHits(docs, query, n)
    ensures k < n && i < |Split(docs[k].content.GetOr(""), '\n')|
    ensures var lines := Split(docs[k].content.GetOr(""), '\n');
            var score := Score(Lower(lines[i]), Lower(query), Fields(Lower(query)));
            score > 0 && h == HitAt(docs[k].slug, lines, i, score)
  {
    if h in AllHits(docs, query, n - 1) {
      k, i := HitOrigin(docs, query, n - 1, h);
    } else {
      k := n - 1;
      var lines := Split(docs[k].content.GetOr(""), '\n');
      i := DocumentHitOrigin(docs[k].slug, lines, Lower(query), Fields(Lower(query)), |lines|, h);
    }
  }

  /** Occurrence, as usually defined. */
  lemma {:induction false} ContainsIff(s: string, part: string)
    ensures Contains(s, part) <==> exists before, after :: s == before + part + after
  {
    if s != "" {
      ContainsIff(s[1..], part);
    }
    forall before, after | s == before + part + after ensures Contains(s, part) {
      if before != "" {
        assert s[1..] == before[1..] + part + after;
      }
    }
    if part <= s {
      assert s == "" + part + s[|part|..];
    } else if Contains(s, part) {
      var before, after :| s[1..] == before + part + after;
      assert s == ([s[0]] + before) + part + after;
    }
  }

  /** And nothing is left out: every line that scores has its hit. */
  lemma {:induction false} DocumentHitListed(slug: string, lines: seq<string>, lowerQuery: string, queryTokens: seq<string>, n: nat, i: nat)
    requires i < n <= |lines| && Score(Lower(lines[i]), lowerQuery, queryTokens) > 0
    ensures HitAt(slug, lines, i, Score(Lower(lines[i]), lowerQuery, queryTokens)) in DocumentHits(slug, lines, lowerQuery, queryTokens, n)
  {
    if i < n - 1 {
      DocumentHitListed(slug, lines, lowerQuery, queryTokens, n - 1, i);
    }
  }

  lemma {:induction false} HitsKept(docs: seq<Document>, query: string, k: nat, n: nat, h: Hit)
    requires k < n <= |docs|
    requires h in DocumentHits(docs[k].slug, Split(docs[k].content.GetOr(""), '\n'), Lower(query), Fields(Lower(query)),
                               |Split(docs[k].content.GetOr(""), '\n')|)
    ensures h in AllHits(docs, query, n)
  {
    if k < n - 1 {
      HitsKept(docs, query, k, n - 1, h);
    }
  }

  lemma HitListed(docs: seq<Document>, query: string, n: nat, k: nat, lines: seq<string>, i: nat)
    requires k < n <= |docs| && lines == Split(docs[k].content.GetOr(""), '\n') && i < |lines|
    requires Score(Lower(lines[i]), Lower(query), Fields(Lower(query))) > 0
    ensures HitAt(docs[k].slug, lines, i, Score(Lower(lines[i]), Lower(query), Fields(Lower(query)))) in AllHits(docs, query, n)
  {
    DocumentHitListed(docs[k].slug, lines, Lower(query), Fields(Lower(query)), |lines|, i);
    HitsKept(docs, query, k, n, HitAt(docs[k].slug, lines, i, Score(Lower(lines[i]), Lower(query), Fields(Lower(query)))));
  }

  /** The lines of a document that score. */
  ghost function Scoring(lines: seq<string>, lowerQuery: string, queryTokens: seq<string>, n: nat): set<nat>
    requires n <= |lines|
  {
    set i: nat | i < n && Score(Lower(lines[i]), lowerQuery, queryTokens) > 0
  }

  lemma OneMore(more: set<nat>, fewer: set<nat>, n: nat, new_: bool)
    requires n !in fewer && forall i :: i in more <==> i in fewer || (i == n && new_)
    ensures |more| == |fewer| + if new_ then 1 else 0
  {
    assert more == fewer + if new_ then {n} else {};
  }

  /** Each of them once. */
  lemma {:induction false} OneHitALine(slug: string, lines: seq<string>, lowerQuery: string, queryTokens: seq<string>, n: nat)
    requires n <= |lines|
    ensures |DocumentHits(slug, lines, lowerQuery, queryTokens, n)| == |Scoring(lines, lowerQuery, queryTokens, n)|
  {
    if n == 0 {
      assert Scoring(lines, lowerQuery, queryTokens, 0) == {};
    } else {
      OneHitALine(slug, lines, lowerQuery, queryTokens, n - 1);
      OneMore(Scoring(lines, lowerQuery, queryTokens, n), Scoring(lines, lowerQuery, queryTokens, n - 1), n - 1,
              Score(Lower(lines[n - 1]), lowerQuery, queryTokens) > 0);
    }
  }

  // ---------------------------------------------------------------------------
  // Words
  // ---------------------------------------------------------------------------

  /** A word of `s`: a run of characters other than white space that is no part of a longer one. */
  ghost predicate IsWordOf(t: string, s: string) {
    exists i, j :: WordAt(s, i, j) && s[i..j] == t
  }

  predicate WordAt(s: string, i: int, j: int) {
    && 0 <= i < j <= |s|
    && (forall k :: i <= k < j ==> !IsSpace(s[k]))
    && (i == 0 || IsSpace(s[i - 1])) && (j == |s| || IsSpace(s[j]))
  }

  lemma {:induction false} WordEnds(s: string)
    ensures forall k :: 0 <= k < |Word(s)| ==> !IsSpace(s[k])
    ensures |Word(s)| == |s| || IsSpace(s[|Word(s)|])
  {
    if s != "" && !IsSpace(s[0]) {
      WordEnds(s[1..]);
      assert Word(s) == [s[0]] + Word(s[1..]);
    }
  }

  lemma SliceMoves(front: string, s: string, i: int, j: int)
    requires 0 <= i <= j <= |s|
    ensures s[i..j] == (front + s)[i + |front|..j + |front|]
  {
    assert forall k :: 0 <= k < |s| ==> s[k] == (front + s)[k + |front|];
  }

  /** Behind a prefix the words are at their old places. */
  lemma WordMoves(front: string, s: string, i: int, j: int)
    requires 0 <= i < j <= |s| && (i > 0 || front == "" || IsSpace(front[|front| - 1]))
    ensures WordAt(s, i, j) <==> WordAt(front + s, i + |front|, j + |front|)
    ensures s[i..j] == (front + s)[i + |front|..j + |front|]
  {
    var u, n := front + s, |front|;
    SliceMoves(front, s, i, j);
    assert (forall k :: i <= k < j ==> !IsSpace(s[k])) <==> (forall k :: i + n <= k < j + n ==> !IsSpace(u[k])) by {
      forall k | i + n <= k < j + n ensures u[k] == s[k - n] {
      }
      forall k | i <= k < j ensures s[k] == u[k + n] {
      }
    }
    assert i + n == 0 || IsSpace(u[i + n - 1]) <==> i == 0 || IsSpace(s[i - 1]);
    assert j < |s| ==> s[j] == u[j + n];
  }

  /** White space in front changes no word. */
  lemma WordShift(c: char, s: string, t: string)
    requires IsSpace(c)
    ensures IsWordOf(t, [c] + s) <==> IsWordOf(t, s)
  {
    if i, j :| WordAt([c] + s, i, j) && ([c] + s)[i..j] == t {
      assert ([c] + s)[0] == c;
      WordMoves([c], s, i - 1, j - 1);
    }
    if i, j :| WordAt(s, i, j) && s[i..j] == t {
      WordMoves([c], s, i, j);
    }
  }

  lemma {:induction false} WordsTrimLeft(s: string, t: string)
    ensures IsWordOf(t, TrimLeft(s)) <==> IsWordOf(t, s)
  {
    if s != "" && IsSpace(s[0]) {
      WordsTrimLeft(s[1..], t);
      assert s == [s[0]] + s[1..];
      WordShift(s[0], s[1..], t);
    }
  }

  /** No word but the first begins inside it. */
  lemma LaterWord(s: string, n: nat, i: int, j: int)
    requires n <= |s| && (forall k :: 0 <= k < n ==> !IsSpace(s[k])) && (n == |s| || IsSpace(s[n]))
    requires WordAt(s, i, j)
    ensures (i == 0 && j == n) || i > n
  {
  }

  lemma FirstOrLater(s: string, n: nat, t: string)
    requires n <= |s| && (forall k :: 0 <= k < n ==> !IsSpace(s[k])) && (n == |s| || IsSpace(s[n]))
    requires IsWordOf(t, s)
    ensures t == s[..n] || IsWordOf(t, s[n..])
  {
    var i, j :| WordAt(s, i, j) && s[i..j] == t;
    LaterWord(s, n, i, j);
    if i > n {
      assert s == s[..n] + s[n..];
      WordMoves(s[..n], s[n..], i - n, j - n);
    }
  }

  lemma LaterIsWord(s: string, n: nat, t: string)
    requires n <= |s| && (n == |s| || IsSpace(s[n])) && IsWordOf(t, s[n..])
    ensures IsWordOf(t, s)
  {
    var i, j :| WordAt(s[n..], i, j) && s[n..][i..j] == t;
    assert s == s[..n] + s[n..] && s[n..][0] == s[n];
    WordMoves(s[..n], s[n..], i, j);
  }

  /** The first word, and the words of what follows it. */
  lemma WordsSplit(s: string, t: string)
    requires s != "" && !IsSpace(s[0])
    ensures Word(s) != ""
    ensures IsWordOf(t, s) <==> t == Word(s) || IsWordOf(t, s[|Word(s)|..])
  {
    var n := |Word(s)|;
    WordEnds(s);
    assert s[..n] == Word(s) == s[0..n];
    assert WordAt(s, 0, n);
    if IsWordOf(t, s) {
      FirstOrLater(s, n, t);
    }
    if IsWordOf(t, s[n..]) {
      LaterIsWord(s, n, t);
    }
  }

  /** Fields are the words. */
  lemma {:induction false} FieldsAreWords(s: string, t: string)
    ensures t in Fields(s) <==> IsWordOf(t, s)
    decreases |s|
  {
    TrimLeftShortens(s);
    TrimLeftFacts(s);
    WordsTrimLeft(s, t);
    var u := TrimLeft(s);
    if u != "" {
      WordsSplit(u, t);
      FieldsAreWords(u[|Word(u)|..], t);
    }
  }

  /** What a line scores: 2 when the query occurs in it, otherwise 1 when one of the query's words is a word of it. */
  lemma ScoreMeans(line: string, query: string)
    ensures var score := Score(Lower(line), Lower(query), Fields(Lower(query)));
            && score in {0, 1, 2}
            && (score == 2 <==> exists before, after :: Lower(line) == before + Lower(query) + after)
            && (score >= 1 <==>
                  || (exists before, after :: Lower(line) == before + Lower(query) + after)
                  || exists t :: IsWordOf(t, Lower(query)) && IsWordOf(t, Lower(line)))
  {
    ContainsIff(Lower(line), Lower(query));
    forall t ensures t in Fields(Lower(query)) <==> IsWordOf(t, Lower(query)) {
      FieldsAreWords(Lower(query), t);
    }
    forall t ensures t in Fields(Lower(line)) <==> IsWordOf(t, Lower(line)) {
      FieldsAreWords(Lower(line), t);
    }
  }

  // ---------------------------------------------------------------------------
  // The best hit of each document
  // ---------------------------------------------------------------------------

  /** `h` is the first of the highest-scoring hits in its document. */
  ghost predicate IsBest(h: Hit, hits: seq<Hit>) {
    exists i :: 0 <= i < |hits| && BestAt(hits, i) && hits[i] == h
  }

  ghost predicate BestAt(hits: seq<Hit>, i: nat)
    requires i < |hits|
  {
    && (forall j :: 0 <= j < i && hits[j].slug == hits[i].slug ==> hits[j].score < hits[i].score)
    && (forall j :: i < j < |hits| && hits[j].slug == hits[i].slug ==> hits[j].score <= hits[i].score)
  }

  /** The map holds the best hit so far for each document with one. */
  ghost predicate Tracks(best: map<string, Hit>, hits: seq<Hit>) {
    && (forall s :: s in best ==> best[s].slug == s && IsBest(best[s], hits))
    && (forall h :: h in hits ==> h.slug in best && h.score <= best[h.slug].score)
  }

  function Improve(best: map<string, Hit>, h: Hit): map<string, Hit> {
    if h.slug in best && h.score <= best[h.slug].score then best else best[h.slug := h]
  }

  lemma StaysBest(h: Hit, hits: seq<Hit>, next: Hit)
    requires IsBest(h, hits) && (next.slug == h.slug ==> next.score <= h.score)
    ensures IsBest(h, hits + [next])
  {
    var i :| 0 <= i < |hits| && BestAt(hits, i) && hits[i] == h;
    assert BestAt(hits + [next], i);
  }

  lemma BecomesBest(hits: seq<Hit>, next: Hit)
    requires forall h :: h in hits && h.slug == next.slug ==> h.score < next.score
    ensures IsBest(next, hits + [next])
  {
    var all := hits + [next];
    forall j | 0 <= j < |hits| && all[j].slug == next.slug ensures all[j].score < next.score {
      assert hits[j] in hits;
    }
    assert BestAt(all, |hits|);
  }

  lemma TracksNext(best: map<string, Hit>, hits: seq<Hit>, next: Hit)
    requires Tracks(best, hits)
    ensures Tracks(Improve(best, next), hits + [next])
  {
    var improved := Improve(best, next);
    forall s | s in improved ensures improved[s].slug == s && IsBest(improved[s], hits + [next]) {
      if s in best && improved[s] == best[s] {
        StaysBest(best[s], hits, next);
      } else {
        BecomesBest(hits, next);
      }
    }
  }

  /** Only the tracked hits are best. */
  lemma TrackedIffBest(best: map<string, Hit>, hits: seq<Hit>, h: Hit)
    requires Tracks(best, hits)
    ensures IsBest(h, hits) <==> h.slug in best && best[h.slug] == h
  {
  }

  // ---------------------------------------------------------------------------
  // The answer
  // ---------------------------------------------------------------------------

  /** Higher score first, then by slug. */
  predicate Outranks(a: Hit, b: Hit) {
    a.score > b.score || (a.score == b.score && LexLess(a.slug, b.slug))
  }

  lemma OutranksIsOrder()
    ensures forall x, y :: Outranks(x, y) ==> !Outranks(y, x)
    ensures forall x, y, z :: Outranks(x, y) && Outranks(y, z) ==> Outranks(x, z)
    ensures forall x: Hit, y: Hit :: x.slug != y.slug ==> Outranks(x, y) || Outranks(y, x)
  {
    forall x, y | Outranks(x, y) ensures !Outranks(y, x) {
      LexTrichotomy(x.slug, y.slug);
    }
    forall x, y, z | Outranks(x, y) && Outranks(y, z) ensures Outranks(x, z) {
      if x.score == y.score == z.score {
        LexTransitive(x.slug, y.slug, z.slug);
      }
    }
    forall x: Hit, y: Hit | x.slug != y.slug ensures Outranks(x, y) || Outranks(y, x) {
      LexTrichotomy(x.slug, y.slug);
    }
  }

  lemma OutranksIsWeakOrder()
    ensures StrictWeakOrder(Outranks)
  {
    OutranksIsOrder();
    forall x: Hit, y: Hit, z: Hit | !Outranks(x, y) && !Outranks(y, z) ensures !Outranks(x, z) {
      LexTrichotomy(x.slug, y.slug);
      LexTrichotomy(y.slug, z.slug);
      if x.score == y.score == z.score && LexLess(y.slug, x.slug) && LexLess(z.slug, y.slug) {
        LexTransitive(z.slug, y.slug, x.slug);
      }
      LexTrichotomy(x.slug, z.slug);
    }
  }

  /** The deduplicated answer: strictly ordered, one best hit for each document that has one. */
  ghost predicate IsAnswer(r: seq<Hit>, hits: seq<Hit>) {
    Ascending(Outranks, r) && forall h :: h in r <==> IsBest(h, hits)
  }

  /** The answer does not depend on the order in which the map was walked: there is only one. */
  lemma AnswerIsUnique(r: seq<Hit>, t: seq<Hit>, hits: seq<Hit>)
    requires IsAnswer(r, hits) && IsAnswer(t, hits)
    ensures r == t
  {
    OutranksIsOrder();
    AscendingUnique(Outranks, r, t);
  }

  /** The map after all of these hits. */
  function Improved(hits: seq<Hit>): map<string, Hit> {
    if hits == [] then map[] else Improve(Improved(hits[..|hits| - 1]), hits[|hits| - 1])
  }

  lemma {:induction false} ImprovedTracks(hits: seq<Hit>)
    ensures Tracks(Improved(hits), hits)
  {
    if hits == [] {
      assert Improved(hits) == map[];
    } else {
      var front, last := hits[..|hits| - 1], hits[|hits| - 1];
      ImprovedTracks(front);
      TracksNext(Improved(front), front, last);
      assert hits == front + [last];
    }
  }

  /** What the answer to a search means in terms of the documents: better scores come first and equal ones by slug, no
      document appears twice, and wherever a line scores, its document appears with at least that score. */
  lemma AnswerMeans(docs: seq<Document>, query: string, r: seq<Hit>, k: nat, i: nat)
    requires IsAnswer(r, AllHits(docs, query, |docs|))
    requires k < |docs| && i < |Split(docs[k].content.GetOr(""), '\n')|
    ensures forall x, y :: 0 <= x < y < |r| ==>
              && r[x].score >= r[y].score && (r[x].score == r[y].score ==> LexLess(r[x].slug, r[y].slug))
              && r[x].slug != r[y].slug
    ensures var score := Score(Lower(Split(docs[k].content.GetOr(""), '\n')[i]), Lower(query), Fields(Lower(query)));
            score > 0 ==> exists h :: h in r && h.slug == docs[k].slug && h.score >= score
  {
    var hits := AllHits(docs, query, |docs|);
    ImprovedTracks(hits);
    forall x, y | 0 <= x < y < |r| ensures r[x].slug != r[y].slug {
      assert Outranks(r[x], r[y]) && r[x] in r && r[y] in r;
      TrackedIffBest(Improved(hits), hits, r[x]);
      TrackedIffBest(Improved(hits), hits, r[y]);
      LexTrichotomy(r[x].slug, r[y].slug);
    }
    var score := Score(Lower(Split(docs[k].content.GetOr(""), '\n')[i]), Lower(query), Fields(Lower(query)));
    if score > 0 {
      HitListed(docs, query, |docs|, k, Split(docs[k].content.GetOr(""), '\n'), i);
      var h := Improved(hits)[docs[k].slug];
      TrackedIffBest(Improved(hits), hits, h);
      assert h in r;
    }
  }

  /** Collects the map's hits in whatever order it offers and sorts them. */
  method Rank(best: map<string, Hit>) returns (r: seq<Hit>)
    requires forall s :: s in best ==> best[s].slug == s
    ensures Ascending(Outranks, r)
    ensures forall h: Hit :: h in r <==> h.slug in best && best[h.slug] == h
  {
    var results: seq<Hit> := [];
    var rest := best.Keys;
    while rest != {}
      invariant rest <= best.Keys
      invariant forall i, j :: 0 <= i < j < |results| ==> results[i].slug != results[j].slug
      invariant forall h: Hit :: h in results <==> h.slug in best && h.slug !in rest && best[h.slug] == h
    {
      var s :| s in rest;
      rest := rest - {s};
      results := results + [best[s]];
    }
    OutranksIsOrder();
    StableSortAscends(Outranks, results);
    StableSortElements(Outranks, results);
    r := StableSort(Outranks, results);
    forall h: Hit ensures h in r <==> h in results {
      assert h in multiset(r) <==> h in multiset(results);
    }
  }

  /** What the search has gathered: the best hit for each slug, or simply every hit. */
  ghost predicate Gathered(dedup: bool, bestPerSlug: map<string, Hit>, allResults: seq<Hit>, hits: seq<Hit>) {
    if dedup then Tracks(bestPerSlug, hits) else allResults == hits
  }

  method SearchLines(slug: string, lines: seq<string>, lowerQuery: string, queryTokens: seq<string>, dedup: bool,
                     best: map<string, Hit>, all: seq<Hit>, ghost hits: seq<Hit>)
    returns (bestPerSlug: map<string, Hit>, allResults: seq<Hit>)
    requires Gathered(dedup, best, all, hits)
    ensures Gathered(dedup, bestPerSlug, allResults, hits + DocumentHits(slug, lines, lowerQuery, queryTokens, |lines|))
  {
    bestPerSlug, allResults := best, all;
    assert hits + [] == hits;
    for i := 0 to |lines|
      invariant Gathered(dedup, bestPerSlug, allResults, hits + DocumentHits(slug, lines, lowerQuery, queryTokens, i))
    {
      ghost var before := DocumentHits(slug, lines, lowerQuery, queryTokens, i);
      var score := ScoreMatch(Lower(lines[i]), lowerQuery, queryTokens);
      if score == 0 {
        assert hits + (before + []) == hits + before;
        continue;
      }
      var r := HitAt(slug, lines, i, score);
      assert hits + (before + [r]) == (hits + before) + [r];
      if dedup {
        TracksNext(bestPerSlug, hits + before, r);
        if slug !in bestPerSlug || score > bestPerSlug[slug].score {
          bestPerSlug := bestPerSlug[slug := r];
        }
      } else {
        allResults := allResults + [r];
      }
    }
  }

  method Finish(dedup: bool, bestPerSlug: map<string, Hit>, allResults: seq<Hit>, ghost hits: seq<Hit>) returns (results: seq<Hit>)
    requires Gathered(dedup, bestPerSlug, allResults, hits)
    ensures if dedup then IsAnswer(results, hits) else Sorted(Outranks, results) && multiset(results) == multiset(hits)
  {
    if dedup {
      results := Rank(bestPerSlug);
      forall h: Hit ensures h in results <==> IsBest(h, hits) {
        TrackedIffBest(bestPerSlug, hits, h);
      }
    } else {
      OutranksIsWeakOrder();
      StableSortSorted(Outranks, allResults);
      StableSortElements(Outranks, allResults);
      results := StableSort(Outranks, allResults);
    }
  }

  ghost predicate Readable(docs: seq<Document>) {
    forall d :: d in docs ==> d.content.Some?
  }

  /** None when the catalog or one of its documents cannot be read. */
  method SearchAll(catalog: Option<seq<Document>>, query: string, dedup: bool) returns (r: Option<seq<Hit>>)
    ensures r.Some? <==> catalog.Some? && Readable(catalog.value)
    ensures r.Some? && dedup ==> IsAnswer(r.value, AllHits(catalog.value, query, |catalog.value|))
    ensures r.Some? && !dedup ==> forall i, j :: 0 <= i < j < |r.value| ==> r.value[i].score >= r.value[j].score
    ensures r.Some? && !dedup ==>
      Sorted(Outranks, r.value) && multiset(r.value) == multiset(AllHits(catalog.value, query, |catalog.value|))
  {
    if catalog.None? {
      return None;
    }
    var docs := catalog.value;
    var lowerQuery := Lower(query);
    var queryTokens := Fields(lowerQuery);
    var bestPerSlug: map<string, Hit> := map[];
    var allResults: seq<Hit> := [];
    for n := 0 to |docs|
      invariant Readable(docs[..n])
      invariant Gathered(dedup, bestPerSlug, allResults, AllHits(docs, query, n))
    {
      if docs[n].content.None? {
        assert docs[n] in docs;
        return None;
      }
      var lines := Split(docs[n].content.value, '\n');
      bestPerSlug, allResults :=
        SearchLines(docs[n].slug, lines, lowerQuery, queryTokens, dedup, bestPerSlug, allResults, AllHits(docs, query, n));
    }
    assert docs[..|docs|] == docs;
    var results := Finish(dedup, bestPerSlug, allResults, AllHits(docs, query, |docs|));
    r := Some(results);
  }

  /** A blank query finds nothing. */
  method Search(catalog: Option<seq<Document>>, query: string) returns (r: Option<seq<Hit>>)
    ensures Trim(query) == "" ==> r == Some([])
    ensures Trim(query) != "" ==> (r.Some? <==> catalog.Some? && Readable(catalog.value))
    ensures Trim(query) != "" && r.Some? ==> IsAnswer(r.value, AllHits(catalog.value, Trim(query), |catalog.value|))
  {
    var trimmed := Trim(query);
    if trimmed == "" {
      return Some([]);
    }
    r := SearchAll(catalog, trimmed, true);
  }
}
