/** Ranking and search: the score formula, the order, the ambiguity gate, and
    the same answer from every vector backend. */
module Search {
  import opened Common
  import opened Vectors
  import opened VectorIndex
  import opened Retrieval

  // ------------------------------------------------------------------
  // The score
  // ------------------------------------------------------------------

  datatype Kind = State | Insight | Event | Untyped

  datatype RankingConfig = RankingConfig(
    ftsWeight: real, jaccardWeight: real, denseWeight: real,
    trustWeight: real, kindWeight: real, recencyWeight: real,
    stateScore: real, insightScore: real, untypedScore: real, eventScore: real,
    scoreFloor: real, ambiguityMargin: real)

  predicate InUnit(x: real) {
    0.0 <= x <= 1.0
  }

  function Abs(x: real): real {
    if x < 0.0 then -x else x
  }

  function Larger(x: real, y: real): real {
    if x >= y then x else y
  }

  /** Close up to a relative difference of one in a billion. */
  predicate IsClose(x: real, y: real) {
    Abs(x - y) <= 0.000000001 * Larger(Abs(x), Abs(y))
  }

  function RelevanceSum(c: RankingConfig): real {
    c.ftsWeight + c.jaccardWeight + c.denseWeight
  }

  /** What the configuration and the retriever's own overrides must satisfy; the
      relevance weights sum to 1 only up to a tolerance. */
  predicate ValidConfig(c: RankingConfig) {
    && c.ftsWeight >= 0.0 && c.jaccardWeight >= 0.0 && c.denseWeight >= 0.0
    && c.trustWeight >= 0.0 && c.kindWeight >= 0.0 && c.recencyWeight >= 0.0
    && IsClose(RelevanceSum(c), 1.0)
    && c.trustWeight + c.kindWeight + c.recencyWeight < 1.0
    && InUnit(c.stateScore) && InUnit(c.insightScore) && InUnit(c.untypedScore) && InUnit(c.eventScore)
    && InUnit(c.scoreFloor) && InUnit(c.ambiguityMargin)
  }

  /** An eligible fact as the ranking sees it: its tokens, its rank in the text
      search if any, and its recency, an exponential decay. */
  datatype Candidate = Candidate(factId: FactId, tokens: set<string>, ftsRank: Option<nat>, trust: real, kind: Kind, recency: real)

  function Jaccard(a: set<string>, b: set<string>): real {
    if a == {} || b == {} then 0.0 else |a * b| as real / |a + b| as real
  }

  function FtsScore(c: Candidate): real {
    if c.ftsRank.Some? then 1.0 / (c.ftsRank.value as real + 1.0) else 0.0
  }

  function Clamp(x: real): real {
    if x > 1.0 then 1.0 else if x > 0.0 then x else 0.0
  }

  function KindScore(cfg: RankingConfig, k: Kind): real {
    match k
    case State => cfg.stateScore
    case Insight => cfg.insightScore
    case Event => cfg.eventScore
    case Untyped => cfg.untypedScore
  }

  function RelevanceWeight(cfg: RankingConfig): real {
    1.0 - cfg.trustWeight - cfg.kindWeight - cfg.recencyWeight
  }

  function Relevance(cfg: RankingConfig, queryTokens: set<string>, c: Candidate, dense: real): real {
    cfg.ftsWeight * FtsScore(c) + cfg.jaccardWeight * Jaccard(queryTokens, c.tokens) + cfg.denseWeight * dense
  }

  function Score(cfg: RankingConfig, queryTokens: set<string>, c: Candidate, dense: real): real {
    RelevanceWeight(cfg) * Relevance(cfg, queryTokens, c, dense)
    + cfg.trustWeight * Clamp(c.trust) + cfg.kindWeight * KindScore(cfg, c.kind) + cfg.recencyWeight * c.recency
  }

  lemma JaccardInUnit(a: set<string>, b: set<string>)
    ensures InUnit(Jaccard(a, b))
  {
    if a != {} && b != {} {
      assert a + b == a + (b - a);
      assert a * b <= a;
      SubsetSize(a * b, a + b);
      assert |a + b| > 0;
      RatioInUnit(|a * b| as real, |a + b| as real);
    }
  }

  lemma RatioInUnit(x: real, y: real)
    requires 0.0 <= x <= y && y > 0.0
    ensures InUnit(x / y)
  {
  }

  /** A convex combination of three numbers of the unit interval stays in it. */
  lemma Convex(u: real, v: real, w: real, x: real, y: real, z: real)
    requires u >= 0.0 && v >= 0.0 && w >= 0.0 && InUnit(x) && InUnit(y) && InUnit(z)
    ensures 0.0 <= u * x + v * y + w * z <= u + v + w
  {
    Share(u, x);
    Share(v, y);
    Share(w, z);
    AddShares(u * x, v * y, w * z, u, v, w);
  }

  lemma AddShares(a: real, b: real, c: real, u: real, v: real, w: real)
    requires 0.0 <= a <= u && 0.0 <= b <= v && 0.0 <= c <= w
    ensures 0.0 <= a + b + c <= u + v + w
  {
  }

  lemma Share(u: real, x: real)
    requires u >= 0.0 && InUnit(x)
    ensures 0.0 <= u * x <= u
  {
  }

  lemma RelevanceBound(cfg: RankingConfig, queryTokens: set<string>, c: Candidate, dense: real)
    requires ValidConfig(cfg) && InUnit(dense)
    ensures 0.0 <= Relevance(cfg, queryTokens, c, dense) <= RelevanceSum(cfg)
  {
    hide Jaccard, FtsScore, IsClose;
    JaccardInUnit(queryTokens, c.tokens);
    FtsInUnit(c);
    Convex(cfg.ftsWeight, cfg.jaccardWeight, cfg.denseWeight, FtsScore(c), Jaccard(queryTokens, c.tokens), dense);
  }

  function Priors(cfg: RankingConfig, c: Candidate): real {
    cfg.trustWeight * Clamp(c.trust) + cfg.kindWeight * KindScore(cfg, c.kind) + cfg.recencyWeight * c.recency
  }

  /** The best of the four kind scores. */
  function BestKind(cfg: RankingConfig): (k: Kind)
    ensures forall other :: KindScore(cfg, other) <= KindScore(cfg, k)
  {
    var a := if cfg.stateScore >= cfg.insightScore then State else Insight;
    var b := if cfg.eventScore >= cfg.untypedScore then Event else Untyped;
    if KindScore(cfg, a) >= KindScore(cfg, b) then a else b
  }

  function PriorsMax(cfg: RankingConfig): real {
    cfg.trustWeight + cfg.kindWeight * KindScore(cfg, BestKind(cfg)) + cfg.recencyWeight
  }

  lemma PriorsBound(cfg: RankingConfig, c: Candidate)
    requires ValidConfig(cfg) && InUnit(c.recency)
    ensures 0.0 <= Priors(cfg, c) <= PriorsMax(cfg) <= cfg.trustWeight + cfg.kindWeight + cfg.recencyWeight
  {
    hide IsClose, BestKind, Clamp, KindScore, RelevanceSum;
    UnitScores(cfg, c);
    PriorsMix(cfg.trustWeight, cfg.kindWeight, cfg.recencyWeight, Clamp(c.trust), KindScore(cfg, c.kind),
              KindScore(cfg, BestKind(cfg)), c.recency);
  }

  lemma UnitScores(cfg: RankingConfig, c: Candidate)
    requires ValidConfig(cfg)
    ensures InUnit(Clamp(c.trust)) && InUnit(KindScore(cfg, c.kind)) && InUnit(KindScore(cfg, BestKind(cfg)))
  {
    hide IsClose, BestKind;
  }

  lemma PriorsMix(u: real, v: real, w: real, x: real, y: real, best: real, z: real)
    requires u >= 0.0 && v >= 0.0 && w >= 0.0 && InUnit(x) && InUnit(z) && 0.0 <= y <= best <= 1.0
    ensures 0.0 <= u * x + v * y + w * z <= u + v * best + w <= u + v + w
  {
    Share(u, x);
    Share(v, y);
    Share(v, best);
    Share(w, z);
    Scale(v, y, best);
    AddShares(u * x, v * y, w * z, u, v * best, w);
    AddShares(u, v * best, w, u, v, w);
  }

  lemma Scale(w: real, x: real, y: real)
    requires w >= 0.0 && x <= y
    ensures w * x <= w * y
  {
  }

  /** The best score any candidate can have. */
  function ScoreBound(cfg: RankingConfig): real {
    RelevanceWeight(cfg) * RelevanceSum(cfg) + PriorsMax(cfg)
  }

  /** Every score lies between 0 and the bound. */
  lemma ScoreWithinBound(cfg: RankingConfig, queryTokens: set<string>, c: Candidate, dense: real)
    requires ValidConfig(cfg) && InUnit(dense) && InUnit(c.recency)
    ensures 0.0 <= Score(cfg, queryTokens, c, dense) <= ScoreBound(cfg)
  {
    RelevanceBound(cfg, queryTokens, c, dense);
    PriorsBound(cfg, c);
    var relevance := Relevance(cfg, queryTokens, c, dense);
    assert RelevanceWeight(cfg) > 0.0;
    ScoreSplits(cfg, queryTokens, c, dense);
    hide *;
    Scale(RelevanceWeight(cfg), 0.0, relevance);
    Scale(RelevanceWeight(cfg), relevance, RelevanceSum(cfg));
    BoundSplits(cfg);
  }

  lemma BoundSplits(cfg: RankingConfig)
    ensures ScoreBound(cfg) == RelevanceWeight(cfg) * RelevanceSum(cfg) + PriorsMax(cfg)
  {
    hide RelevanceWeight, RelevanceSum, PriorsMax;
  }

  /** A candidate that matches in every respect reaches the bound. */
  function BestCandidate(cfg: RankingConfig): Candidate {
    Candidate(0, {"x"}, Some(0), 1.0, BestKind(cfg), 1.0)
  }

  lemma BoundIsReached(cfg: RankingConfig)
    ensures Score(cfg, {"x"}, BestCandidate(cfg), 1.0) == ScoreBound(cfg)
  {
    hide BestKind;
    var c := BestCandidate(cfg);
    assert {"x"} * {"x"} == {"x"} && {"x"} + {"x"} == {"x"};
    assert Jaccard({"x"}, c.tokens) == 1.0;
    assert FtsScore(c) == 1.0;
    assert Relevance(cfg, {"x"}, c, 1.0) == RelevanceSum(cfg);
  }

  ghost predicate ScoresInUnit(cfg: RankingConfig) {
    forall queryTokens, c: Candidate, dense {:trigger Score(cfg, queryTokens, c, dense)} ::
      InUnit(dense) && InUnit(c.recency) ==> InUnit(Score(cfg, queryTokens, c, dense))
  }

  /** All scores lie in the unit interval exactly if the bound does. */
  lemma ScoresInUnitIff(cfg: RankingConfig)
    requires ValidConfig(cfg)
    ensures ScoresInUnit(cfg) <==> ScoreBound(cfg) <= 1.0
  {
    hide Score, ScoreBound, ValidConfig;
    BoundIsReached(cfg);
    forall queryTokens, c: Candidate, dense | InUnit(dense) && InUnit(c.recency)
      ensures 0.0 <= Score(cfg, queryTokens, c, dense) <= ScoreBound(cfg)
    {
      ScoreWithinBound(cfg, queryTokens, c, dense);
    }
    assert InUnit(1.0) && InUnit(BestCandidate(cfg).recency);
  }

  /** The bound is at most 1 whenever the relevance weights sum to at most 1, and
      the tolerance lets it exceed 1 by little more than one in a billion. */
  lemma BoundNearOne(cfg: RankingConfig)
    requires ValidConfig(cfg)
    ensures RelevanceSum(cfg) <= 1.0 ==> ScoreBound(cfg) <= 1.0
    ensures ScoreBound(cfg) <= 1.0000000011
  {
    var w := RelevanceWeight(cfg);
    assert 0.0 < w <= 1.0 && RelevanceSum(cfg) <= 1.0000000011;
    PriorsBound(cfg, BestCandidate(cfg));
    BoundSplits(cfg);
    assert PriorsMax(cfg) <= 1.0 - w;
    hide *;
    Mix(w, RelevanceSum(cfg), PriorsMax(cfg), 1.0000000011);
    if RelevanceSum(cfg) <= 1.0 {
      Mix(w, RelevanceSum(cfg), PriorsMax(cfg), 1.0);
    }
  }

  lemma Mix(w: real, x: real, p: real, most: real)
    requires 0.0 < w <= 1.0 && p <= 1.0 - w && x <= most && most >= 1.0
    ensures w * x + p <= most
  {
    Scale(w, x, most);
    Remainder(w, most);
  }

  lemma Remainder(w: real, most: real)
    requires w <= 1.0 && most >= 1.0
    ensures w * most + (1.0 - w) <= most
  {
    Scale(1.0 - w, 0.0, most - 1.0);
    assert (1.0 - w) * (most - 1.0) == most - w * most - (1.0 - w);
  }

  /** Weights the source accepts although their sum exceeds 1, and a score above 1. */
  lemma ScoreAboveOne() returns (cfg: RankingConfig)
    ensures ValidConfig(cfg) && Score(cfg, {}, Candidate(0, {}, Some(0), 0.0, Event, 0.0), 0.0) > 1.0
  {
    cfg := RankingConfig(1.0000000005, 0.0, 0.0, 0.0, 0.0, 0.0, 1.0, 0.75, 0.5, 0.25, 0.12, 0.005);
  }

  lemma ScoreSplits(cfg: RankingConfig, queryTokens: set<string>, c: Candidate, dense: real)
    ensures Score(cfg, queryTokens, c, dense) == RelevanceWeight(cfg) * Relevance(cfg, queryTokens, c, dense) + Priors(cfg, c)
  {
    hide Relevance, Jaccard, FtsScore, Clamp, KindScore, RelevanceWeight;
  }

  lemma FtsInUnit(c: Candidate)
    ensures InUnit(FtsScore(c))
  {
    if c.ftsRank.Some? {
      RatioInUnit(1.0, c.ftsRank.value as real + 1.0);
    }
  }

  // ------------------------------------------------------------------
  // Ranking
  // ------------------------------------------------------------------

  datatype Hit = Hit(score: real, trust: real, factId: FactId)

  /** Higher score first, then higher trust, then the smaller id. */
  predicate Ahead(a: Hit, b: Hit) {
    a.score > b.score || (a.score == b.score && (a.trust > b.trust || (a.trust == b.trust && a.factId <= b.factId)))
  }

  function InsertHit(hits: seq<Hit>, h: Hit): seq<Hit> {
    if hits == [] then [h]
    else if Ahead(hits[|hits| - 1], h) then hits + [h]
    else InsertHit(hits[..|hits| - 1], h) + [hits[|hits| - 1]]
  }

  ghost predicate Ordered(hits: seq<Hit>) {
    forall i, j :: 0 <= i < j < |hits| ==> Ahead(hits[i], hits[j])
  }

  lemma {:induction false} InsertKeepsOrder(hits: seq<Hit>, h: Hit)
    requires Ordered(hits)
    ensures Ordered(InsertHit(hits, h)) && multiset(InsertHit(hits, h)) == multiset(hits) + multiset{h}
    ensures forall x :: x in InsertHit(hits, h) <==> x in hits || x == h
  {
    hide Ahead;
    if hits != [] {
      var n := |hits| - 1;
      var init, last := hits[..n], hits[n];
      assert hits == init + [last];
      AheadIsTotal(last, h, h);
      if Ahead(last, h) {
        forall i | 0 <= i < n
          ensures Ahead(hits[i], h)
        {
          AheadIsTotal(hits[i], last, h);
        }
      } else {
        InsertKeepsOrder(init, h);
        var out := InsertHit(init, h);
        forall i | 0 <= i < |out|
          ensures Ahead(out[i], last)
        {
          assert out[i] in out;
          if out[i] in init {
            var j :| 0 <= j < |init| && init[j] == out[i];
            assert hits[j] == out[i] && hits[n] == last;
          }
        }
      }
    }
  }

  lemma AheadIsTotal(a: Hit, b: Hit, c: Hit)
    ensures Ahead(a, b) || Ahead(b, a)
    ensures Ahead(a, b) && Ahead(b, c) ==> Ahead(a, c)
  {
  }

  /** The hits of the candidates that reach the floor, best first. */
  function RankedHits(cfg: RankingConfig, queryTokens: set<string>, candidates: seq<Candidate>, dense: Scores): seq<Hit>
    requires forall k :: 0 <= k < |candidates| ==> candidates[k].factId in dense
  {
    if candidates == [] then []
    else
      var n := |candidates| - 1;
      var c := candidates[n];
      var earlier := RankedHits(cfg, queryTokens, candidates[..n], dense);
      var score := Score(cfg, queryTokens, c, dense[c.factId]);
      if score < cfg.scoreFloor then earlier else InsertHit(earlier, Hit(score, c.trust, c.factId))
  }

  predicate Ambiguous(cfg: RankingConfig, hits: seq<Hit>) {
    |hits| > 1 && hits[0].score - hits[1].score < cfg.ambiguityMargin
  }

  /** A near-tie at the top answers nothing. */
  function Answer(cfg: RankingConfig, hits: seq<Hit>, limit: nat): seq<Hit> {
    if Ambiguous(cfg, hits) then [] else if |hits| <= limit then hits else hits[..limit]
  }

  ghost predicate DenseInUnit(dense: Scores) {
    forall id :: id in dense ==> InUnit(dense[id])
  }

  /** The ranked hits are ordered, each is a candidate with its score, and each
      candidate that reaches the floor is among them. */
  lemma {:induction false} RankedHitsAreRight(cfg: RankingConfig, queryTokens: set<string>, candidates: seq<Candidate>, dense: Scores)
    requires ValidConfig(cfg) && DenseInUnit(dense)
    requires forall k :: 0 <= k < |candidates| ==> candidates[k].factId in dense && InUnit(candidates[k].recency)
    ensures var hits := RankedHits(cfg, queryTokens, candidates, dense);
            && Ordered(hits)
            && (forall h :: h in hits ==> cfg.scoreFloor <= h.score <= ScoreBound(cfg))
            && (forall h :: h in hits <==> IsHit(cfg, queryTokens, candidates, dense, h))
  {
    hide Score, ScoreBound, ValidConfig, Ahead, IsHit;
    if candidates != [] {
      var n := |candidates| - 1;
      var c := candidates[n];
      RankedHitsAreRight(cfg, queryTokens, candidates[..n], dense);
      var earlier := RankedHits(cfg, queryTokens, candidates[..n], dense);
      var score := Score(cfg, queryTokens, c, dense[c.factId]);
      ScoreWithinBound(cfg, queryTokens, c, dense[c.factId]);
      InsertKeepsOrder(earlier, Hit(score, c.trust, c.factId));
      forall h
        ensures IsHit(cfg, queryTokens, candidates, dense, h) <==>
                IsHit(cfg, queryTokens, candidates[..n], dense, h) || (score >= cfg.scoreFloor && h == Hit(score, c.trust, c.factId))
      {
        OneMoreCandidate(cfg, queryTokens, candidates, dense, h);
      }
    } else {
      forall h
        ensures !IsHit(cfg, queryTokens, candidates, dense, h)
      {
        NoCandidate(cfg, queryTokens, candidates, dense, h);
      }
    }
  }

  ghost predicate IsHit(cfg: RankingConfig, queryTokens: set<string>, candidates: seq<Candidate>, dense: Scores, h: Hit)
    requires forall k :: 0 <= k < |candidates| ==> candidates[k].factId in dense
  {
    exists k :: 0 <= k < |candidates| && HitOf(cfg, queryTokens, candidates[k], dense[candidates[k].factId], h)
  }

  ghost predicate HitOf(cfg: RankingConfig, queryTokens: set<string>, c: Candidate, dense: real, h: Hit) {
    h == Hit(Score(cfg, queryTokens, c, dense), c.trust, c.factId) && h.score >= cfg.scoreFloor
  }

  lemma NoCandidate(cfg: RankingConfig, queryTokens: set<string>, candidates: seq<Candidate>, dense: Scores, h: Hit)
    requires candidates == []
    ensures !IsHit(cfg, queryTokens, candidates, dense, h)
  {
  }

  lemma OneMoreCandidate(cfg: RankingConfig, queryTokens: set<string>, candidates: seq<Candidate>, dense: Scores, h: Hit)
    requires candidates != [] && forall k :: 0 <= k < |candidates| ==> candidates[k].factId in dense
    ensures var n := |candidates| - 1;
            IsHit(cfg, queryTokens, candidates, dense, h) <==>
              IsHit(cfg, queryTokens, candidates[..n], dense, h) || HitOf(cfg, queryTokens, candidates[n], dense[candidates[n].factId], h)
  {
    hide HitOf;
    var n := |candidates| - 1;
    var init := candidates[..n];
    assert forall k :: 0 <= k < n ==> init[k] == candidates[k];
    if IsHit(cfg, queryTokens, init, dense, h) {
      var k :| 0 <= k < |init| && HitOf(cfg, queryTokens, init[k], dense[init[k].factId], h);
      assert HitOf(cfg, queryTokens, candidates[k], dense[candidates[k].factId], h);
    }
    if IsHit(cfg, queryTokens, candidates, dense, h) {
      var k :| 0 <= k < |candidates| && HitOf(cfg, queryTokens, candidates[k], dense[candidates[k].factId], h);
      assert k < n ==> HitOf(cfg, queryTokens, init[k], dense[init[k].factId], h);
    }
  }

  /** Every answer is ordered, scores between the floor and the bound, and if it
      names a fact while another one is ranked, the margin to that one is kept. */
  lemma AnswerIsSound(cfg: RankingConfig, queryTokens: set<string>, candidates: seq<Candidate>, dense: Scores, limit: nat)
    requires ValidConfig(cfg) && DenseInUnit(dense)
    requires forall k :: 0 <= k < |candidates| ==> candidates[k].factId in dense && InUnit(candidates[k].recency)
    ensures var hits := RankedHits(cfg, queryTokens, candidates, dense);
            var answer := Answer(cfg, hits, limit);
            && |answer| <= limit && answer <= hits && Ordered(answer)
            && (forall k :: 0 <= k < |answer| ==> cfg.scoreFloor <= answer[k].score <= ScoreBound(cfg))
            && (answer != [] && |hits| > 1 ==> hits[0].score - hits[1].score >= cfg.ambiguityMargin)
            && (answer == [] <==> hits == [] || limit == 0 || Ambiguous(cfg, hits))
  {
    hide Score, ScoreBound, ValidConfig, IsHit;
    RankedHitsAreRight(cfg, queryTokens, candidates, dense);
    var hits := RankedHits(cfg, queryTokens, candidates, dense);
    assert forall k :: 0 <= k < |hits| ==> hits[k] in hits;
  }

  /** What a caller may rely on: ordered hits of the candidates, none left out
      but behind the last one, and a clear lead of the first. */
  ghost predicate SoundAnswer(cfg: RankingConfig, queryTokens: set<string>, candidates: seq<Candidate>, dense: Scores, limit: nat, answer: seq<Hit>)
    requires forall k :: 0 <= k < |candidates| ==> candidates[k].factId in dense
  {
    && |answer| <= limit && Ordered(answer)
    && (forall h :: h in answer ==> IsHit(cfg, queryTokens, candidates, dense, h) && cfg.scoreFloor <= h.score <= ScoreBound(cfg))
    && (answer != [] ==> forall h :: IsHit(cfg, queryTokens, candidates, dense, h) ==>
          && (h in answer || (|answer| == limit && Ahead(answer[|answer| - 1], h)))
          && (h == answer[0] || answer[0].score - h.score >= cfg.ambiguityMargin))
    && (answer == [] && limit > 0 ==>
          || (forall h :: !IsHit(cfg, queryTokens, candidates, dense, h))
          || Ambiguous(cfg, RankedHits(cfg, queryTokens, candidates, dense)))
  }

  lemma AnswerMeetsCaller(cfg: RankingConfig, queryTokens: set<string>, candidates: seq<Candidate>, dense: Scores, limit: nat)
    requires ValidConfig(cfg) && DenseInUnit(dense)
    requires forall k :: 0 <= k < |candidates| ==> candidates[k].factId in dense && InUnit(candidates[k].recency)
    ensures SoundAnswer(cfg, queryTokens, candidates, dense, limit, Answer(cfg, RankedHits(cfg, queryTokens, candidates, dense), limit))
  {
    hide Score, ScoreBound, ValidConfig, IsHit, DenseInUnit, RankedHits;
    RankedHitsAreRight(cfg, queryTokens, candidates, dense);
    AnswerIsSound(cfg, queryTokens, candidates, dense, limit);
    var hits := RankedHits(cfg, queryTokens, candidates, dense);
    var answer := Answer(cfg, hits, limit);
    assert forall k :: 0 <= k < |answer| ==> answer[k] == hits[k];
    if answer != [] {
      forall h | IsHit(cfg, queryTokens, candidates, dense, h)
        ensures h in answer || (|answer| == limit && Ahead(answer[|answer| - 1], h))
        ensures h == answer[0] || answer[0].score - h.score >= cfg.ambiguityMargin
      {
        assert h in hits;
        var i :| 0 <= i < |hits| && hits[i] == h;
        assert i < |answer| ==> answer[i] == h;
        assert i > 1 ==> Ahead(hits[1], hits[i]);
      }
    }
    assert |hits| > 0 ==> hits[0] in hits;
  }

  // ------------------------------------------------------------------
  // The same answer from every backend
  // ------------------------------------------------------------------

  datatype Failure = LoadFailed | DimensionMismatch

  function FactIds(candidates: seq<Candidate>): seq<FactId> {
    seq(|candidates|, k requires 0 <= k < |candidates| => candidates[k].factId)
  }

  lemma ScoresCover(candidates: seq<Candidate>, dense: Scores)
    requires forall id :: id in FactIds(candidates) ==> id in dense
    ensures forall k :: 0 <= k < |candidates| ==> candidates[k].factId in dense
  {
    forall k | 0 <= k < |candidates|
      ensures candidates[k].factId in dense
    {
      assert FactIds(candidates)[k] in FactIds(candidates);
    }
  }

  /** Dense scores from the canonical vectors. */
  ghost function BruteScores(db: Db, identity: Identity, dims: nat, queued: set<FactId>, query: Vec, ids: seq<FactId>): Scores {
    map id | id in ids :: BruteScore(db, identity, dims, queued, query, id)
  }

  /** The answer by brute force, the definition the index has to meet. */
  ghost function BruteAnswer(cfg: RankingConfig, db: Db, identity: Identity, dims: nat, queued: set<FactId>,
                             query: Vec, queryTokens: set<string>, candidates: seq<Candidate>, limit: nat): Result<seq<Hit>, Failure>
  {
    if candidates == [] || limit == 0 then Ok([])
    else if !Distinct(FactIds(candidates)) || !CanLoad(db, identity, dims, queued, FactIds(candidates)) then Err(LoadFailed)
    else if |query.values| != dims then Err(DimensionMismatch)
    else
      var dense := BruteScores(db, identity, dims, queued, query, FactIds(candidates));
      ScoresCover(candidates, dense);
      Ok(Answer(cfg, RankedHits(cfg, queryTokens, candidates, dense), limit))
  }

  /** A valid configuration, real vectors, and recencies as the decay gives them. */
  ghost predicate SoundInput(cfg: RankingConfig, db: Db, query: Vec, candidates: seq<Candidate>) {
    && ValidConfig(cfg) && IsVec(query)
    && (forall i :: 0 <= i < |db.rows| ==> IsVec(db.rows[i].vec))
    && (forall k :: 0 <= k < |candidates| ==> InUnit(candidates[k].recency))
  }

  /** The answer is sound for the cosine scores of the canonical vectors. */
  ghost predicate SoundFor(cfg: RankingConfig, db: Db, identity: Identity, dims: nat, queued: set<FactId>, query: Vec,
                           queryTokens: set<string>, candidates: seq<Candidate>, limit: nat, answer: seq<Hit>)
  {
    var dense := BruteScores(db, identity, dims, queued, query, FactIds(candidates));
    ScoresCover(candidates, dense);
    SoundAnswer(cfg, queryTokens, candidates, dense, limit, answer)
  }

  lemma BruteAnswerIsSound(cfg: RankingConfig, db: Db, identity: Identity, dims: nat, queued: set<FactId>, query: Vec,
                           queryTokens: set<string>, candidates: seq<Candidate>, limit: nat)
    requires SoundInput(cfg, db, query, candidates)
    requires BruteAnswer(cfg, db, identity, dims, queued, query, queryTokens, candidates, limit).Ok?
    ensures SoundFor(cfg, db, identity, dims, queued, query, queryTokens, candidates, limit,
                     BruteAnswer(cfg, db, identity, dims, queued, query, queryTokens, candidates, limit).value)
  {
    hide ValidConfig, IsHit, RankedHits, Answer, BruteScore, CanLoad, Ambiguous, ScoreBound, IsVec;
    var dense := BruteScores(db, identity, dims, queued, query, FactIds(candidates));
    ScoresCover(candidates, dense);
    BruteScoresInUnit(db, identity, dims, queued, query, FactIds(candidates));
    AnswerMeetsCaller(cfg, queryTokens, candidates, dense, limit);
    if candidates == [] {
      forall h
        ensures !IsHit(cfg, queryTokens, candidates, dense, h)
      {
        NoCandidate(cfg, queryTokens, candidates, dense, h);
      }
    }
  }

  /** Loads every candidate's vector, or fails, and scores them. */
  method BruteDense(db: Db, identity: Identity, dims: nat, queued: set<FactId>, query: Vec, ids: seq<FactId>)
    returns (r: Result<Scores, Failure>)
    ensures r.Ok? <==> Distinct(ids) && CanLoad(db, identity, dims, queued, ids) && |query.values| == dims
    ensures r.Ok? ==> r.value == BruteScores(db, identity, dims, queued, query, ids)
    ensures r == Err(DimensionMismatch) <==> Distinct(ids) && CanLoad(db, identity, dims, queued, ids) && |query.values| != dims
  {
    if !Distinct(ids) {
      return Err(LoadFailed);
    }
    hide Document, BruteScore;
    var dense: Scores := map[];
    for i := 0 to |ids|
      invariant CanLoad(db, identity, dims, queued, ids[..i])
      invariant dense == BruteScores(db, identity, dims, queued, query, ids[..i])
    {
      assert ids[..i + 1] == ids[..i] + [ids[i]];
      if Document(db, identity, dims, queued, ids[i]).None? {
        return Err(LoadFailed);
      }
      dense := dense[ids[i] := BruteScore(db, identity, dims, queued, query, ids[i])];
    }
    assert ids[..|ids|] == ids;
    r := if |query.values| != dims then Err(DimensionMismatch) else Ok(dense);
  }

  /** Searches with the index while it answers, and with the canonical vectors
      from the first failure on. */
  method HybridSearch(cfg: RankingConfig, db: Db, index: Option<Handle>, identity: Identity, dims: nat, queued: set<FactId>,
                      query: Vec, queryTokens: set<string>, candidates: seq<Candidate>, limit: nat)
    returns (r: Result<seq<Hit>, Failure>, remaining: Option<Handle>)
    requires index.Some? ==>
               Sync(db) && Current(db, index.value) && index.value.identity == identity && index.value.dims == dims
    ensures r == BruteAnswer(cfg, db, identity, dims, queued, query, queryTokens, candidates, limit)
    ensures SoundInput(cfg, db, query, candidates) && r.Ok? ==>
              SoundFor(cfg, db, identity, dims, queued, query, queryTokens, candidates, limit, r.value)
    ensures remaining == index || remaining == None
  {
    hide SoundInput, SoundFor, ValidConfig;
    if SoundInput(cfg, db, query, candidates) && BruteAnswer(cfg, db, identity, dims, queued, query, queryTokens, candidates, limit).Ok? {
      BruteAnswerIsSound(cfg, db, identity, dims, queued, query, queryTokens, candidates, limit);
    }
    remaining := index;
    if candidates == [] || limit == 0 {
      return Ok([]), remaining;
    }
    var ids := FactIds(candidates);
    var dense: Option<Scores> := None;
    if index.Some? {
      IndexWidth(db, index.value);
      dense := ScoresOf(db.tables[index.value.table], dims, query, ids);
      if dense.None? {
        remaining := None;
      } else {
        IndexAnswers(db, index.value, queued, query, ids, dense.value);
      }
    }
    if dense.None? {
      var brute := BruteDense(db, identity, dims, queued, query, ids);
      if brute.Err? {
        assert brute.error == LoadFailed || brute.error == DimensionMismatch;
        return Err(brute.error), remaining;
      }
      dense := Some(brute.value);
    }
    ScoresCover(candidates, dense.value);
    var hits := RankAll(cfg, queryTokens, candidates, dense.value);
    if |hits| > 1 && hits[0].score - hits[1].score < cfg.ambiguityMargin {
      return Ok([]), remaining;
    }
    return Ok(if |hits| <= limit then hits else hits[..limit]), remaining;
  }

  /** Scores, filters and sorts the candidates. */
  method RankAll(cfg: RankingConfig, queryTokens: set<string>, candidates: seq<Candidate>, dense: Scores) returns (hits: seq<Hit>)
    requires forall k :: 0 <= k < |candidates| ==> candidates[k].factId in dense
    ensures hits == RankedHits(cfg, queryTokens, candidates, dense)
  {
    hits := [];
    for n := 0 to |candidates|
      invariant hits == RankedHits(cfg, queryTokens, candidates[..n], dense)
    {
      assert candidates[..n + 1][..n] == candidates[..n];
      var c := candidates[n];
      var score := Score(cfg, queryTokens, c, dense[c.factId]);
      if score < cfg.scoreFloor {
        continue;
      }
      hits := InsertHit(hits, Hit(score, c.trust, c.factId));
    }
    assert candidates[..|candidates|] == candidates;
  }

  lemma IndexWidth(db: Db, h: Handle)
    requires Sync(db) && Current(db, h)
    ensures HasWidth(db.tables[h.table], h.dims)
  {
    ExpectedWidth(db.rows, h.identity, h.dims);
  }

  lemma IndexAnswers(db: Db, h: Handle, queued: set<FactId>, query: Vec, ids: seq<FactId>, scores: Scores)
    requires Sync(db) && Current(db, h) && IndexCanScore(db.tables[h.table], h.dims, query, ids)
    requires scores.Keys == (set id | id in ids)
    requires forall id :: id in ids ==>
               id in db.tables[h.table] && |db.tables[h.table][id].values| == |query.values| && scores[id] == IndexScore(db.tables[h.table], query, id)
    ensures scores == BruteScores(db, h.identity, h.dims, queued, query, ids)
    ensures Distinct(ids) && CanLoad(db, h.identity, h.dims, queued, ids) && |query.values| == h.dims
  {
    hide BruteScore, IndexScore, Document, Sync;
    IndexScoresAreBrute(db, h, queued, query, ids);
    forall id | id in ids
      ensures scores[id] == BruteScore(db, h.identity, h.dims, queued, query, id)
    {
      var k :| 0 <= k < |ids| && ids[k] == id;
    }
  }

  /** The index and the canonical vectors give one answer: a search with the
      index in step returns exactly what a search without it returns. */
  method SameAnswer(cfg: RankingConfig, db: Db, h: Handle, queued: set<FactId>, query: Vec, queryTokens: set<string>,
                    candidates: seq<Candidate>, limit: nat)
    returns (withIndex: Result<seq<Hit>, Failure>, without: Result<seq<Hit>, Failure>)
    requires Sync(db) && Current(db, h)
    ensures withIndex == without
  {
    var a, b := None, None;
    withIndex, a := HybridSearch(cfg, db, Some(h), h.identity, h.dims, queued, query, queryTokens, candidates, limit);
    without, b := HybridSearch(cfg, db, None, h.identity, h.dims, queued, query, queryTokens, candidates, limit);
  }

  /** Dense scores of either backend lie in the unit interval. */
  lemma BruteScoresInUnit(db: Db, identity: Identity, dims: nat, queued: set<FactId>, query: Vec, ids: seq<FactId>)
    requires IsVec(query) && forall i :: 0 <= i < |db.rows| ==> IsVec(db.rows[i].vec)
    ensures DenseInUnit(BruteScores(db, identity, dims, queued, query, ids))
  {
    forall id | id in ids
      ensures InUnit(BruteScore(db, identity, dims, queued, query, id))
    {
      var d := Document(db, identity, dims, queued, id);
      if d.Some? && |d.value.values| == |query.values| {
        DocumentIsVec(db, identity, dims, queued, id);
        CosineBound(query, d.value);
      }
    }
  }

  lemma DocumentIsVec(db: Db, identity: Identity, dims: nat, queued: set<FactId>, id: FactId)
    requires forall i :: 0 <= i < |db.rows| ==> IsVec(db.rows[i].vec)
    ensures Document(db, identity, dims, queued, id).Some? ==> IsVec(Document(db, identity, dims, queued, id).value)
  {
    ExpectedVecs(db.rows, identity, dims);
    ZeroIsVec(dims);
  }

  lemma {:induction false} ExpectedVecs(rows: seq<Row>, identity: Identity, dims: nat)
    requires forall i :: 0 <= i < |rows| ==> IsVec(rows[i].vec)
    ensures forall id :: id in Expected(rows, identity, dims) ==> IsVec(Expected(rows, identity, dims)[id])
  {
    if rows != [] {
      ExpectedVecs(rows[..|rows| - 1], identity, dims);
    }
  }

  lemma {:induction false} ZeroIsVec(dims: nat)
    ensures IsVec(ZeroVec(dims))
  {
    if dims > 0 {
      ZeroIsVec(dims - 1);
      assert ZeroVec(dims).values[..dims - 1] == ZeroVec(dims - 1).values;
    } else {
      assert ZeroVec(dims).values == [];
    }
  }
}
