/**
 * Semantic search over a project's embedded chunks: an indexed
 * nearest-neighbour query, a full-scan fallback ranked by cosine distance,
 * the conversion of distances to similarities with a threshold filter, and
 * the reduction of hits to the files they come from.
 *
 * Numbers are reals. The square root is a parameter `sqrt` of the scorer,
 * so nothing here depends on how it is computed; where a property needs
 * something of it, the lemma says what.
 */
module VectorSearch {
  import opened Wrappers
  import opened OrderedSet
  import opened Sequences

  type Vector = seq<real>

  /** A row of `vector_chunks` whose embedding is not null, decoded to numbers. */
  datatype Chunk = Chunk(id: string, relpath: string, chunk: string, embedding: Vector)

  /** A ranked row: what the native index returns, and what the fallback builds. */
  datatype Candidate = Candidate(id: string, relpath: string, chunk: string, distance: real)

  datatype SearchResult = SearchResult(relpath: string, chunk: string, similarity: real, chunkId: string)

  /** The outcome of the native index query: its rows, or the error it threw. */
  datatype IndexedQuery = IndexedOk(rows: seq<Candidate>) | IndexedFailed(cause: string)

  /** The outcome of the full-scan query over `vector_chunks`. */
  datatype ScanQuery = ScanOk(chunks: seq<Chunk>) | ScanFailed(cause: string)

  /** What the project's database answers to the two queries of one search. */
  datatype Store = Store(indexed: IndexedQuery, scan: ScanQuery)

  /** `limit` and `similarityThreshold` as the caller passed them (possibly undefined). */
  datatype SearchOptions = SearchOptions(limit: Option<int>, similarityThreshold: Option<real>)

  const DefaultLimit: int := 10
  const DefaultThreshold: real := 0.7
  const DimensionMismatch := "Vectors must have the same length"
  const SearchFailedPrefix := "Vector search failed: "

  function Limit(o: SearchOptions): int {
    o.limit.GetOr(DefaultLimit)
  }

  function Threshold(o: SearchOptions): real {
    o.similarityThreshold.GetOr(DefaultThreshold)
  }

  // ---------------------------------------------------------------------
  // Cosine similarity

  /** The sum of `a[i] * b[i]`, accumulated from the first index up. */
  function Dot(a: Vector, b: Vector): real
    requires |a| == |b|
    decreases |a|
  {
    if |a| == 0 then 0.0 else Dot(a[..|a| - 1], b[..|b| - 1]) + a[|a| - 1] * b[|b| - 1]
  }

  predicate IsZero(v: Vector) {
    forall k :: 0 <= k < |v| ==> v[k] == 0.0
  }

  /** The final step `dotProduct / (normA * normB)`. */
  function Ratio(dotProduct: real, normA: real, normB: real): real
    requires normA != 0.0 && normB != 0.0
  {
    dotProduct / (normA * normB)
  }

  /** The value `cosineSimilarity(a, b)` returns or the error it throws. */
  function Cosine(a: Vector, b: Vector, sqrt: real -> real): (r: Result<real, string>)
    ensures r.Err? <==> |a| != |b|
    ensures r.Err? ==> r.error == DimensionMismatch
  {
    if |a| != |b| then Err(DimensionMismatch)
    else
      var normA, normB := sqrt(Dot(a, a)), sqrt(Dot(b, b));
      if normA == 0.0 || normB == 0.0 then Ok(0.0) else Ok(Ratio(Dot(a, b), normA, normB))
  }

  /** The scorer: a length guard, one accumulation loop, then the zero-norm rule. */
  method CosineSimilarity(a: Vector, b: Vector, sqrt: real -> real) returns (r: Result<real, string>)
    ensures r == Cosine(a, b, sqrt)
  {
    if |a| != |b| {
      return Err(DimensionMismatch);
    }
    var dotProduct, normA, normB := 0.0, 0.0, 0.0;
    for i := 0 to |a|
      invariant dotProduct == Dot(a[..i], b[..i])
      invariant normA == Dot(a[..i], a[..i])
      invariant normB == Dot(b[..i], b[..i])
    {
      assert a[..i + 1][..i] == a[..i] && b[..i + 1][..i] == b[..i];
      dotProduct := dotProduct + a[i] * b[i];
      normA := normA + a[i] * a[i];
      normB := normB + b[i] * b[i];
    }
    assert a[..|a|] == a && b[..|b|] == b;
    normA := sqrt(normA);
    normB := sqrt(normB);
    if normA == 0.0 || normB == 0.0 {
      return Ok(0.0);
    }
    return Ok(Ratio(dotProduct, normA, normB));
  }

  lemma {:induction false} DotSymmetric(a: Vector, b: Vector)
    requires |a| == |b|
    ensures Dot(a, b) == Dot(b, a)
    decreases |a|
  {
    if |a| > 0 {
      DotSymmetric(a[..|a| - 1], b[..|b| - 1]);
    }
  }

  /** Swapping the arguments gives the same similarity, or the same error. */
  lemma CosineSymmetric(a: Vector, b: Vector, sqrt: real -> real)
    ensures Cosine(a, b, sqrt) == Cosine(b, a, sqrt)
  {
    if |a| == |b| {
      DotSymmetric(a, b);
    }
  }

  /** A zero vector has a zero dot product with every vector of its length, itself included. */
  lemma {:induction false} ZeroDot(a: Vector, b: Vector)
    requires |a| == |b|
    requires IsZero(a)
    ensures Dot(a, b) == 0.0
    decreases |a|
  {
    if |a| > 0 {
      var init := a[..|a| - 1];
      assert IsZero(init) by {
        assert forall k :: 0 <= k < |init| ==> init[k] == a[k];
      }
      ZeroDot(init, b[..|b| - 1]);
    }
  }

  /** With a square root that maps 0 to 0, a zero vector on either side scores exactly 0. */
  lemma ZeroVectorScoresZero(a: Vector, b: Vector, sqrt: real -> real)
    requires |a| == |b|
    requires sqrt(0.0) == 0.0
    requires IsZero(a) || IsZero(b)
    ensures Cosine(a, b, sqrt) == Ok(0.0)
  {
    if IsZero(a) {
      ZeroDot(a, a);
    } else {
      ZeroDot(b, b);
    }
  }

  // ---------------------------------------------------------------------
  // Fallback ranking

  /** `allChunks.map(...)`: each chunk with `distance = 1 - cosineSimilarity(query, embedding)`. */
  function ScoreChunks(query: Vector, chunks: seq<Chunk>, sqrt: real -> real): (r: Result<seq<Candidate>, string>)
    ensures r.Err? <==> exists k :: 0 <= k < |chunks| && |chunks[k].embedding| != |query|
    ensures r.Err? ==> r.error == DimensionMismatch
    ensures r.Ok? ==> |r.value| == |chunks|
    ensures r.Ok? ==> forall k :: 0 <= k < |chunks| ==>
              r.value[k] == Candidate(chunks[k].id, chunks[k].relpath, chunks[k].chunk,
                                      1.0 - Cosine(query, chunks[k].embedding, sqrt).value)
    decreases |chunks|
  {
    if chunks == [] then Ok([])
    else
      var c := chunks[0];
      assert forall k :: 1 <= k < |chunks| ==> chunks[k] == chunks[1..][k - 1];
      match Cosine(query, c.embedding, sqrt)
      case Err(e) => Err(e)
      case Ok(similarity) =>
        match ScoreChunks(query, chunks[1..], sqrt)
        case Err(e) => Err(e)
        case Ok(rest) => Ok([Candidate(c.id, c.relpath, c.chunk, 1.0 - similarity)] + rest)
  }

  predicate SortedByDistance(s: seq<Candidate>) {
    forall i, j :: 0 <= i < j < |s| ==> s[i].distance <= s[j].distance
  }

  /** The candidates of `s` that lie at distance `d`, in their order in `s`. */
  function AtDistance(s: seq<Candidate>, d: real): seq<Candidate>
    decreases |s|
  {
    if s == [] then [] else (if s[0].distance == d then [s[0]] else []) + AtDistance(s[1..], d)
  }

  lemma {:induction false} AtDistanceMembers(s: seq<Candidate>, d: real)
    ensures forall x :: x in AtDistance(s, d) ==> x in s && x.distance == d
    decreases |s|
  {
    if s != [] {
      AtDistanceMembers(s[1..], d);
    }
  }

  /** Puts `c` before the first candidate that is not closer than it. */
  function Insert(c: Candidate, s: seq<Candidate>): seq<Candidate>
    decreases |s|
  {
    if s == [] || c.distance <= s[0].distance then [c] + s else [s[0]] + Insert(c, s[1..])
  }

  lemma AtDistanceCons(x: Candidate, s: seq<Candidate>, d: real)
    ensures AtDistance([x] + s, d) == (if x.distance == d then [x] else []) + AtDistance(s, d)
  {
    assert ([x] + s)[1..] == s;
  }

  /** Inserting keeps every candidate and adds `c`. */
  lemma {:induction false} InsertMultiset(c: Candidate, s: seq<Candidate>)
    ensures multiset(Insert(c, s)) == multiset(s) + multiset{c}
    decreases |s|
  {
    if s != [] && c.distance > s[0].distance {
      InsertMultiset(c, s[1..]);
      assert s == [s[0]] + s[1..];
    }
  }

  /** A candidate no farther than every candidate of a sorted list can go in front of it. */
  lemma SortedCons(x: Candidate, s: seq<Candidate>)
    requires SortedByDistance(s)
    requires forall y :: y in s ==> x.distance <= y.distance
    ensures SortedByDistance([x] + s)
  {
    var r := [x] + s;
    forall i, j | 0 <= i < j < |r|
      ensures r[i].distance <= r[j].distance
    {
      assert r[j] == s[j - 1];
      if i > 0 {
        assert r[i] == s[i - 1];
      }
    }
  }

  /** Inserting into a sorted list keeps it sorted. */
  lemma {:induction false} InsertSorted(c: Candidate, s: seq<Candidate>)
    requires SortedByDistance(s)
    ensures SortedByDistance(Insert(c, s))
    decreases |s|
  {
    if s == [] || c.distance <= s[0].distance {
      forall y | y in s
        ensures c.distance <= y.distance
      {
        var k :| 0 <= k < |s| && s[k] == y;
        assert s[0].distance <= s[k].distance;
      }
      SortedCons(c, s);
    } else {
      var tail := s[1..];
      var rest := Insert(c, tail);
      assert SortedByDistance(tail) by {
        forall i, j | 0 <= i < j < |tail|
          ensures tail[i].distance <= tail[j].distance
        {
          assert tail[i] == s[i + 1] && tail[j] == s[j + 1];
        }
      }
      InsertSorted(c, tail);
      InsertMultiset(c, tail);
      forall y | y in rest
        ensures s[0].distance <= y.distance
      {
        assert y in multiset(rest);
        if y != c {
          assert y in multiset(tail);
          var k :| 0 <= k < |tail| && tail[k] == y;
          assert s[k + 1] == y;
        }
      }
      SortedCons(s[0], rest);
    }
  }

  /** Inserting puts `c` before the candidates at its own distance and moves no other. */
  lemma {:induction false} InsertAtDistance(c: Candidate, s: seq<Candidate>, d: real)
    ensures AtDistance(Insert(c, s), d) == AtDistance([c] + s, d)
    decreases |s|
  {
    if s != [] && c.distance > s[0].distance {
      var rest := Insert(c, s[1..]);
      InsertAtDistance(c, s[1..], d);
      assert s == [s[0]] + s[1..];
      AtDistanceCons(s[0], rest, d);
      AtDistanceCons(c, s[1..], d);
      AtDistanceCons(c, s, d);
      AtDistanceCons(s[0], s[1..], d);
    }
  }

  /**
   * `withSimilarity.sort((a, b) => a.distance - b.distance)`: JavaScript's
   * sort is stable, so candidates at equal distance keep their scan order.
   */
  function SortByDistance(s: seq<Candidate>): (r: seq<Candidate>)
    ensures SortedByDistance(r)
    ensures multiset(r) == multiset(s)
    ensures forall d :: AtDistance(r, d) == AtDistance(s, d)
    decreases |s|
  {
    if s == [] then []
    else
      var rest := SortByDistance(s[1..]);
      InsertSorted(s[0], rest);
      InsertMultiset(s[0], rest);
      InsertKeepsAgreement(s[0], rest, s[1..]);
      assert s == [s[0]] + s[1..];
      Insert(s[0], rest)
  }

  /** Inserting `x` into a list that agrees with `tail` at every distance agrees with `[x] + tail`. */
  lemma InsertKeepsAgreement(x: Candidate, rest: seq<Candidate>, tail: seq<Candidate>)
    requires forall d :: AtDistance(rest, d) == AtDistance(tail, d)
    ensures forall d :: AtDistance(Insert(x, rest), d) == AtDistance([x] + tail, d)
  {
    forall d
      ensures AtDistance(Insert(x, rest), d) == AtDistance([x] + tail, d)
    {
      InsertAtDistance(x, rest, d);
      AtDistanceCons(x, rest, d);
      AtDistanceCons(x, tail, d);
    }
  }

  /** A sequence that agrees at every distance with the empty sequence is empty. */
  lemma AgreeingEmpty(a: seq<Candidate>, b: seq<Candidate>)
    requires forall d :: AtDistance(a, d) == AtDistance(b, d)
    ensures a == [] ==> b == []
  {
    if b != [] {
      assert AtDistance(b, b[0].distance) != [];
    }
  }

  /** Two non-empty sorted sequences that agree at every distance start with the same candidate. */
  lemma SortedAgreeingHeads(a: seq<Candidate>, b: seq<Candidate>)
    requires SortedByDistance(a) && SortedByDistance(b)
    requires forall d :: AtDistance(a, d) == AtDistance(b, d)
    requires a != [] && b != []
    ensures a[0] == b[0]
  {
    var da, db := a[0].distance, b[0].distance;
    AtDistanceMembers(a, db);
    AtDistanceMembers(b, da);
    assert AtDistance(a, da)[0] == a[0];
    assert AtDistance(b, db)[0] == b[0];
    var x := AtDistance(b, da)[0];
    var i :| 0 <= i < |b| && b[i] == x;
    var y := AtDistance(a, db)[0];
    var j :| 0 <= j < |a| && a[j] == y;
    assert db <= da && da <= db;
  }

  /** Sequences with the same head that agree at every distance agree after the head too. */
  lemma AgreeingTails(a: seq<Candidate>, b: seq<Candidate>)
    requires forall d :: AtDistance(a, d) == AtDistance(b, d)
    requires a != [] && b != [] && a[0] == b[0]
    ensures forall d :: AtDistance(a[1..], d) == AtDistance(b[1..], d)
  {
    forall d
      ensures AtDistance(a[1..], d) == AtDistance(b[1..], d)
    {
      var p := if a[0].distance == d then [a[0]] else [];
      assert AtDistance(a, d) == p + AtDistance(a[1..], d);
      assert AtDistance(b, d) == p + AtDistance(b[1..], d);
      assert (p + AtDistance(a[1..], d))[|p|..] == AtDistance(a[1..], d);
      assert (p + AtDistance(b[1..], d))[|p|..] == AtDistance(b[1..], d);
    }
  }

  lemma SortedTail(a: seq<Candidate>)
    requires SortedByDistance(a) && a != []
    ensures SortedByDistance(a[1..])
  {
    assert forall i :: 0 <= i < |a| - 1 ==> a[1..][i] == a[i + 1];
  }

  /** Two sorted sequences that agree at every distance are equal. */
  lemma {:induction false} SortedStableUnique(a: seq<Candidate>, b: seq<Candidate>)
    requires SortedByDistance(a) && SortedByDistance(b)
    requires forall d :: AtDistance(a, d) == AtDistance(b, d)
    ensures a == b
    decreases |a|
  {
    if a == [] || b == [] {
      AgreeingEmpty(a, b);
      AgreeingEmpty(b, a);
    } else {
      SortedAgreeingHeads(a, b);
      AgreeingTails(a, b);
      SortedTail(a);
      SortedTail(b);
      SortedStableUnique(a[1..], b[1..]);
      assert a == [a[0]] + a[1..] && b == [b[0]] + b[1..];
    }
  }

  /**
   * Any stable ascending-by-distance ordering of `s` (sorted, and at each
   * distance the candidates in their order in `s`) is `SortByDistance(s)`:
   * the model does not depend on which stable sort the runtime uses.
   */
  lemma StableSortIsUnique(s: seq<Candidate>, r: seq<Candidate>)
    requires SortedByDistance(r)
    requires forall d :: AtDistance(r, d) == AtDistance(s, d)
    ensures r == SortByDistance(s)
  {
    SortedStableUnique(r, SortByDistance(s));
  }

  /** Where `s.slice(0, end)` stops: a negative end counts back from the length. */
  function SliceEnd(length: nat, end: int): (r: nat)
    ensures r <= length
    ensures 0 <= end <= length ==> r == end
    ensures end < 0 && -end <= length ==> r + -end == length
  {
    if end < 0 then (if length + end < 0 then 0 else length + end)
    else if end > length then length
    else end
  }

  /** `s.slice(0, end)` */
  function Slice<T>(s: seq<T>, end: int): (r: seq<T>)
    ensures |r| <= |s| && r == s[..|r|]
    ensures end >= 0 ==> |r| == if end < |s| then end else |s|
  {
    s[..SliceEnd(|s|, end)]
  }

  /** The fallback's candidate list: score every chunk, sort ascending by distance, keep `limit`. */
  function FallbackCandidates(query: Vector, chunks: seq<Chunk>, limit: int, sqrt: real -> real): (r: Result<seq<Candidate>, string>)
    ensures r.Err? <==> exists k :: 0 <= k < |chunks| && |chunks[k].embedding| != |query|
    ensures r.Ok? ==> SortedByDistance(r.value) && |r.value| <= |chunks|
    ensures r.Ok? && limit >= 0 ==> |r.value| <= limit
  {
    match ScoreChunks(query, chunks, sqrt)
    case Err(e) => Err(e)
    case Ok(scored) =>
      var sorted := SortByDistance(scored);
      assert |sorted| == |multiset(sorted)| == |multiset(scored)| == |scored|;
      Ok(Slice(sorted, limit))
  }

  /**
   * The candidate list of one search: the index's rows when its query
   * succeeds; after ANY error from it, the fallback scan.
   */
  function Candidates(query: Vector, store: Store, limit: int, sqrt: real -> real): (r: Result<seq<Candidate>, string>)
    ensures store.indexed.IndexedOk? ==> r == Ok(store.indexed.rows)
    ensures r.Err? <==> store.indexed.IndexedFailed? &&
                        (store.scan.ScanFailed? ||
                         exists k :: 0 <= k < |store.scan.chunks| && |store.scan.chunks[k].embedding| != |query|)
    ensures r.Err? && store.scan.ScanFailed? ==> r == Err(store.scan.cause)
  {
    match store.indexed
    case IndexedOk(rows) => Ok(rows)
    case IndexedFailed(_) =>
      match store.scan
      case ScanFailed(e) => Err(e)
      case ScanOk(chunks) => FallbackCandidates(query, chunks, limit, sqrt)
  }

  /** The fallback's candidates are the first `limit` of a stable ascending sort of every scanned chunk. */
  lemma FallbackIsStableSortPrefix(query: Vector, chunks: seq<Chunk>, limit: int, sqrt: real -> real)
    requires forall k :: 0 <= k < |chunks| ==> |chunks[k].embedding| == |query|
    ensures ScoreChunks(query, chunks, sqrt).Ok?
    ensures var scored := ScoreChunks(query, chunks, sqrt).value;
            var r := FallbackCandidates(query, chunks, limit, sqrt);
            && r.Ok?
            && SortedByDistance(r.value)
            && r.value == SortByDistance(scored)[..|r.value|]
            && multiset(r.value) <= multiset(scored)
            && (limit >= 0 ==> |r.value| == if limit < |chunks| then limit else |chunks|)
  {
    var scored := ScoreChunks(query, chunks, sqrt).value;
    var sorted := SortByDistance(scored);
    assert |sorted| == |multiset(sorted)| == |multiset(scored)| == |scored| == |chunks|;
    var n := SliceEnd(|sorted|, limit);
    assert FallbackCandidates(query, chunks, limit, sqrt) == Ok(sorted[..n]);
    assert sorted == sorted[..n] + sorted[n..];
    assert multiset(sorted) == multiset(sorted[..n]) + multiset(sorted[n..]);
  }

  // ---------------------------------------------------------------------
  // Similarity and threshold

  /** `similarity: 1 - result.distance` */
  function ToSearchResult(c: Candidate): (r: SearchResult)
    ensures r.similarity + c.distance == 1.0
  {
    SearchResult(c.relpath, c.chunk, 1.0 - c.distance, c.id)
  }

  /** `results.map(...)` */
  function Converted(cands: seq<Candidate>): (r: seq<SearchResult>)
    ensures |r| == |cands|
    ensures forall k :: 0 <= k < |cands| ==>
              && r[k].similarity + cands[k].distance == 1.0
              && r[k].relpath == cands[k].relpath && r[k].chunk == cands[k].chunk && r[k].chunkId == cands[k].id
  {
    seq(|cands|, k requires 0 <= k < |cands| => ToSearchResult(cands[k]))
  }

  /** `.filter(result => result.similarity >= similarityThreshold)` */
  function AboveThreshold(rs: seq<SearchResult>, threshold: real): (r: seq<SearchResult>)
    ensures IsSubsequence(r, rs)
    ensures forall x :: x in r ==> x in rs && x.similarity >= threshold
    ensures forall k :: 0 <= k < |rs| && rs[k].similarity >= threshold ==> rs[k] in r
    ensures forall x :: multiset(r)[x] == if x.similarity >= threshold then multiset(rs)[x] else 0
  {
    Filter(rs, (x: SearchResult) => x.similarity >= threshold)
  }

  predicate RankedBySimilarity(rs: seq<SearchResult>) {
    forall i, j :: 0 <= i < j < |rs| ==> rs[i].similarity >= rs[j].similarity
  }

  lemma {:induction false} SubsequenceKeepsRanking(a: seq<SearchResult>, b: seq<SearchResult>)
    requires IsSubsequence(a, b) && RankedBySimilarity(b)
    ensures RankedBySimilarity(a)
    decreases |b|
  {
    if a != [] {
      if a[0] == b[0] && IsSubsequence(a[1..], b[1..]) {
        SubsequenceKeepsRanking(a[1..], b[1..]);
        SubsequenceElements(a[1..], b[1..]);
        forall j | 1 <= j < |a|
          ensures a[0].similarity >= a[j].similarity
        {
          assert a[j] in a[1..];
        }
      } else {
        SubsequenceKeepsRanking(a, b[1..]);
      }
    }
  }

  lemma ConvertedRanking(cands: seq<Candidate>)
    requires SortedByDistance(cands)
    ensures RankedBySimilarity(Converted(cands))
  {
  }

  // ---------------------------------------------------------------------
  // The search

  /**
   * `searchVectors`. The query embedding and the database handle are
   * obtained outside the `try`, so their errors reach the caller unchanged;
   * any error inside it is re-thrown with the `Vector search failed: ` prefix.
   */
  function SearchVectors(queryEmbedding: Result<Vector, string>, database: Result<Store, string>,
                         opts: SearchOptions, sqrt: real -> real): (r: Result<seq<SearchResult>, string>)
    ensures queryEmbedding.Err? ==> r == Err(queryEmbedding.error)
    ensures queryEmbedding.Ok? && database.Err? ==> r == Err(database.error)
    ensures r.Ok? ==> forall x :: x in r.value ==> x.similarity >= Threshold(opts)
  {
    match queryEmbedding
    case Err(e) => Err(e)
    case Ok(query) =>
      match database
      case Err(e) => Err(e)
      case Ok(store) =>
        match Candidates(query, store, Limit(opts), sqrt)
        case Err(e) => Err(SearchFailedPrefix + e)
        case Ok(cands) => Ok(AboveThreshold(Converted(cands), Threshold(opts)))
  }

  /**
   * How a search fails: embedding and database errors pass through as they
   * are; otherwise it fails only when the index query failed AND the scan
   * failed or some stored embedding has the wrong length, with a wrapped message.
   */
  lemma SearchErrors(queryEmbedding: Result<Vector, string>, database: Result<Store, string>,
                     opts: SearchOptions, sqrt: real -> real)
    ensures queryEmbedding.Err? ==> SearchVectors(queryEmbedding, database, opts, sqrt) == Err(queryEmbedding.error)
    ensures queryEmbedding.Ok? && database.Err? ==>
              SearchVectors(queryEmbedding, database, opts, sqrt) == Err(database.error)
    ensures queryEmbedding.Ok? && database.Ok? ==>
              var st := database.value;
              var r := SearchVectors(queryEmbedding, database, opts, sqrt);
              && (r.Err? <==> st.indexed.IndexedFailed? &&
                               (st.scan.ScanFailed? ||
                                exists k :: 0 <= k < |st.scan.chunks| &&
                                            |st.scan.chunks[k].embedding| != |queryEmbedding.value|))
              && (r.Err? && st.scan.ScanFailed? ==> r.error == SearchFailedPrefix + st.scan.cause)
              && (r.Err? && st.scan.ScanOk? ==> r.error == SearchFailedPrefix + DimensionMismatch)
  {
  }

  /**
   * Every result passed the threshold and carries `1 - distance` of a
   * candidate; the results keep the candidates' order.
   */
  lemma ResultsMeetThreshold(queryEmbedding: Result<Vector, string>, database: Result<Store, string>,
                             opts: SearchOptions, sqrt: real -> real)
    requires SearchVectors(queryEmbedding, database, opts, sqrt).Ok?
    ensures queryEmbedding.Ok? && database.Ok?
    ensures var cands := Candidates(queryEmbedding.value, database.value, Limit(opts), sqrt);
            var rs := SearchVectors(queryEmbedding, database, opts, sqrt).value;
            && cands.Ok?
            && IsSubsequence(rs, Converted(cands.value))
            && |rs| <= |cands.value|
            && (forall x :: x in rs ==> x.similarity >= Threshold(opts))
            && (forall x :: x in rs ==> exists c :: c in cands.value && x == ToSearchResult(c))
  {
    var cands := Candidates(queryEmbedding.value, database.value, Limit(opts), sqrt).value;
    var rs := SearchVectors(queryEmbedding, database, opts, sqrt).value;
    SubsequenceElements(rs, Converted(cands));
    forall x | x in rs
      ensures exists c :: c in cands && x == ToSearchResult(c)
    {
      var k :| 0 <= k < |cands| && Converted(cands)[k] == x;
      assert cands[k] in cands;
    }
  }

  /**
   * On the fallback path the results are ranked by non-increasing
   * similarity, are at most `limit`, and are what the sorted, truncated
   * candidate list gives after the threshold.
   */
  lemma FallbackResultsRanked(query: Vector, store: Store, opts: SearchOptions, sqrt: real -> real)
    requires store.indexed.IndexedFailed? && store.scan.ScanOk?
    requires forall k :: 0 <= k < |store.scan.chunks| ==> |store.scan.chunks[k].embedding| == |query|
    ensures var r := SearchVectors(Ok(query), Ok(store), opts, sqrt);
            && r.Ok?
            && RankedBySimilarity(r.value)
            && (Limit(opts) >= 0 ==> |r.value| <= Limit(opts))
  {
    FallbackIsStableSortPrefix(query, store.scan.chunks, Limit(opts), sqrt);
    var cands := FallbackCandidates(query, store.scan.chunks, Limit(opts), sqrt).value;
    ConvertedRanking(cands);
    var rs := AboveThreshold(Converted(cands), Threshold(opts));
    SubsequenceKeepsRanking(rs, Converted(cands));
    SubsequenceElements(rs, Converted(cands));
  }

  /**
   * On the indexed path the same holds whenever the index keeps its
   * promise (`ORDER BY vs.distance LIMIT ?`).
   */
  lemma IndexedResultsRanked(query: Vector, store: Store, opts: SearchOptions, sqrt: real -> real)
    requires store.indexed.IndexedOk?
    requires SortedByDistance(store.indexed.rows)
    requires Limit(opts) >= 0 ==> |store.indexed.rows| <= Limit(opts)
    ensures var r := SearchVectors(Ok(query), Ok(store), opts, sqrt);
            && r.Ok?
            && RankedBySimilarity(r.value)
            && (Limit(opts) >= 0 ==> |r.value| <= Limit(opts))
  {
    var cands := store.indexed.rows;
    ConvertedRanking(cands);
    var rs := AboveThreshold(Converted(cands), Threshold(opts));
    SubsequenceKeepsRanking(rs, Converted(cands));
    SubsequenceElements(rs, Converted(cands));
  }

  /** No candidate at or above the threshold gives an empty list, not an error. */
  lemma NoMatchIsEmpty(query: Vector, store: Store, opts: SearchOptions, sqrt: real -> real)
    requires Candidates(query, store, Limit(opts), sqrt).Ok?
    requires forall c :: c in Candidates(query, store, Limit(opts), sqrt).value ==> 1.0 - c.distance < Threshold(opts)
    ensures SearchVectors(Ok(query), Ok(store), opts, sqrt) == Ok([])
  {
  }

  /**
   * A failed index query, whatever its error, gives the same results as
   * running the fallback scan from the start.
   */
  lemma IndexFailureFallsBack(query: Vector, scan: ScanQuery, cause: string, opts: SearchOptions, sqrt: real -> real)
    requires scan.ScanOk?
    ensures SearchVectors(Ok(query), Ok(Store(IndexedFailed(cause), scan)), opts, sqrt) ==
            match FallbackCandidates(query, scan.chunks, Limit(opts), sqrt)
            case Err(e) => Err(SearchFailedPrefix + e)
            case Ok(cands) => Ok(AboveThreshold(Converted(cands), Threshold(opts)))
  {
  }

  // ---------------------------------------------------------------------
  // Related files

  function Relpaths(rs: seq<SearchResult>): (r: seq<string>)
    ensures |r| == |rs|
  {
    seq(|rs|, k requires 0 <= k < |rs| => rs[k].relpath)
  }

  lemma RelpathsSnoc(rs: seq<SearchResult>, i: nat)
    requires i < |rs|
    ensures Relpaths(rs[..i + 1]) == Relpaths(rs[..i]) + [rs[i].relpath]
  {
  }

  /** The `forEach` of `getRelatedFiles`: each result's `relpath` added to the set. */
  method AddRelpaths(filePaths: seq<string>, results: seq<SearchResult>) returns (r: seq<string>)
    ensures r == AddAll(filePaths, Relpaths(results))
  {
    r := filePaths;
    for i := 0 to |results|
      invariant r == AddAll(filePaths, Relpaths(results[..i]))
    {
      RelpathsSnoc(results, i);
      AddAllSnoc(filePaths, Relpaths(results[..i]), results[i].relpath);
      r := Add(r, results[i].relpath);
    }
    assert results[..|results|] == results;
  }

  /** `getRelatedFiles`: the search, then each result's `relpath` added to a `Set`. */
  method GetRelatedFiles(queryEmbedding: Result<Vector, string>, database: Result<Store, string>,
                         opts: SearchOptions, sqrt: real -> real)
    returns (r: Result<seq<string>, string>)
    ensures var search := SearchVectors(queryEmbedding, database, opts, sqrt);
            && (search.Err? ==> r == Err(search.error))
            && (search.Ok? ==> r == Ok(Dedup(Relpaths(search.value))))
  {
    var search := SearchVectors(queryEmbedding, database, opts, sqrt);
    if search.Err? {
      return Err(search.error);
    }
    var filePaths := AddRelpaths([], search.value);
    return Ok(filePaths);
  }

  /** The related files are the results' paths, each exactly once, in first-occurrence order. */
  lemma RelatedFilesAreDistinct(results: seq<SearchResult>)
    ensures var files := Dedup(Relpaths(results));
            && NoDuplicates(files)
            && (forall p :: p in files <==> p in Relpaths(results))
            && (forall p :: p in files <==> exists x :: x in results && x.relpath == p)
            && (forall i, j :: 0 <= i < j < |files| ==>
                  FirstIndex(Relpaths(results), files[i]) < FirstIndex(Relpaths(results), files[j]))
  {
    var paths := Relpaths(results);
    DedupNoDuplicates(paths);
    DedupElements(paths);
    DedupFirstOccurrenceOrder(paths);
    forall p
      ensures p in paths <==> exists x :: x in results && x.relpath == p
    {
      if p in paths {
        var k :| 0 <= k < |paths| && paths[k] == p;
        assert results[k] in results;
      }
      if x :| x in results && x.relpath == p {
        var k :| 0 <= k < |results| && results[k] == x;
        assert paths[k] == p;
      }
    }
  }
}
