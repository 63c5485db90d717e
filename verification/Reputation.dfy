/** The reputation projection of internal/store/quality.go over real numbers, and the idempotent store
    call that feeds it (internal/store/memory/memory.go, applyReputationSignalLocked). */
module Reputation {
  import opened Basics

  datatype Signal = Signal(
    id: string, agent: string, skill: string, success: Option<bool>, quality: Option<real>, reliable: Option<bool>,
    latency: real, cost: real, weight: real)

  datatype Record = Record(
    successAlpha: real, successBeta: real, qualityEwma: real, qualitySamples: real, reliabilityAlpha: real,
    reliabilityBeta: real, latencyEwma: real, costEfficiency: real, samples: real, updated: int,
    successScore: real, reliabilityScore: real, compositeScore: real)

  function Clamp01(v: real): (r: real)
    ensures 0.0 <= r <= 1.0 && (0.0 <= v <= 1.0 ==> r == v)
  {
    if v < 0.0 then 0.0 else if v > 1.0 then 1.0 else v
  }

  function Ratio(a: real, b: real): real { if a + b == 0.0 then 0.5 else a / (a + b) }

  /** Missing or non-positive weights count 1, larger ones are capped at 1. */
  function Weight(w: real): (r: real)
    ensures 0.0 < r <= 1.0
  {
    if w <= 0.0 then 1.0 else if w > 1.0 then 1.0 else w
  }

  function Rate(weight: real): real { if 0.2 * weight < 0.1 then 0.2 * weight else 0.1 }

  function Mean(mean: real, x: real, rate: real): real { mean + rate * (x - mean) }

  function Refreshed(r: Record): Record {
    r.(successScore := Ratio(r.successAlpha, r.successBeta),
       reliabilityScore := Ratio(r.reliabilityAlpha, r.reliabilityBeta),
       compositeScore := Clamp01(0.4 * Ratio(r.successAlpha, r.successBeta) + 0.4 * r.qualityEwma
                                 + 0.2 * Ratio(r.reliabilityAlpha, r.reliabilityBeta)))
  }

  function Added(count: real, vote: Option<bool>, side: bool, w: real): real {
    if vote == Some(side) then count + w else count
  }

  /** The projection after one signal, before the scores are refreshed. */
  function Counted(r: Record, s: Signal, now: int): Record {
    var w := Weight(s.weight);
    var rate := Rate(w);
    var efficiency := if s.cost > 0.0 && s.quality.Some? then Some(Clamp01(s.quality.value) / s.cost) else None;
    r.(successAlpha := Added(r.successAlpha, s.success, true, w),
       successBeta := Added(r.successBeta, s.success, false, w),
       reliabilityAlpha := Added(r.reliabilityAlpha, s.reliable, true, w),
       reliabilityBeta := Added(r.reliabilityBeta, s.reliable, false, w),
       qualityEwma := if s.quality.Some? then Mean(r.qualityEwma, Clamp01(s.quality.value), rate) else r.qualityEwma,
       qualitySamples := if s.quality.Some? then r.qualitySamples + w else r.qualitySamples,
       latencyEwma := if s.latency <= 0.0 then r.latencyEwma
                      else if r.latencyEwma == 0.0 then s.latency else Mean(r.latencyEwma, s.latency, rate),
       costEfficiency := if efficiency.None? then r.costEfficiency
                         else if r.costEfficiency == 0.0 then efficiency.value
                         else Mean(r.costEfficiency, efficiency.value, rate),
       samples := r.samples + w, updated := now)
  }

  function Applied(r: Record, s: Signal, now: int): Record { Refreshed(Counted(r, s, now)) }

  const NEW := Record(2.0, 2.0, 0.5, 0.0, 2.0, 2.0, 0.0, 0.0, 0.0, 0, 0.0, 0.0, 0.0)

  /** The record with its fields updated in place, in the order of the source. */
  class ReputationRecord {
    var successAlpha: real
    var successBeta: real
    var qualityEwma: real
    var qualitySamples: real
    var reliabilityAlpha: real
    var reliabilityBeta: real
    var latencyEwma: real
    var costEfficiency: real
    var samples: real
    var updated: int
    var successScore: real
    var reliabilityScore: real
    var compositeScore: real

    ghost function Contents(): Record
      reads this
    {
      Record(successAlpha, successBeta, qualityEwma, qualitySamples, reliabilityAlpha, reliabilityBeta, latencyEwma,
             costEfficiency, samples, updated, successScore, reliabilityScore, compositeScore)
    }

    constructor ()
      ensures Contents() == NEW
    {
      successAlpha, successBeta, qualityEwma, qualitySamples := 2.0, 2.0, 0.5, 0.0;
      reliabilityAlpha, reliabilityBeta, latencyEwma, costEfficiency := 2.0, 2.0, 0.0, 0.0;
      samples, updated, successScore, reliabilityScore, compositeScore := 0.0, 0, 0.0, 0.0, 0.0;
    }

    method RefreshScores()
      modifies this
      ensures Contents() == Refreshed(old(Contents()))
    {
      successScore := Ratio(successAlpha, successBeta);
      reliabilityScore := Ratio(reliabilityAlpha, reliabilityBeta);
      compositeScore := Clamp01(0.4 * successScore + 0.4 * qualityEwma + 0.2 * reliabilityScore);
    }

    /** Adds the weight of a vote to one of a pair of counters. */
    static method Tally(alpha: real, beta: real, vote: Option<bool>, weight: real) returns (a: real, b: real)
      ensures a == Added(alpha, vote, true, weight) && b == Added(beta, vote, false, weight)
    {
      a, b := alpha, beta;
      if vote.Some? {
        if vote.value {
          a := a + weight;
        } else {
          b := b + weight;
        }
      }
    }

    method CountVotes(s: Signal, weight: real)
      modifies this`successAlpha, this`successBeta, this`reliabilityAlpha, this`reliabilityBeta
      ensures Contents() == old(Contents()).(
        successAlpha := Added(old(successAlpha), s.success, true, weight),
        successBeta := Added(old(successBeta), s.success, false, weight),
        reliabilityAlpha := Added(old(reliabilityAlpha), s.reliable, true, weight),
        reliabilityBeta := Added(old(reliabilityBeta), s.reliable, false, weight))
    {
      hide Added;
      successAlpha, successBeta := Tally(successAlpha, successBeta, s.success, weight);
      reliabilityAlpha, reliabilityBeta := Tally(reliabilityAlpha, reliabilityBeta, s.reliable, weight);
    }

    method Apply(s: Signal, now: int)
      modifies this
      ensures Contents() == Applied(old(Contents()), s, now)
    {
      hide Refreshed, Added, Clamp01, Mean;
      var weight := s.weight;
      if weight <= 0.0 {
        weight := 1.0;
      }
      if weight > 1.0 {
        weight := 1.0;
      }
      assert weight == Weight(s.weight);
      hide Weight;
      CountVotes(s, weight);
      var alpha := Rate(weight);
      hide Rate;
      if s.quality.Some? {
        qualityEwma := Mean(qualityEwma, Clamp01(s.quality.value), alpha);
        qualitySamples := qualitySamples + weight;
      }
      if s.latency > 0.0 {
        latencyEwma := if latencyEwma == 0.0 then s.latency else Mean(latencyEwma, s.latency, alpha);
      }
      if s.cost > 0.0 && s.quality.Some? {
        var eff := Clamp01(s.quality.value) / s.cost;
        costEfficiency := if costEfficiency == 0.0 then eff else Mean(costEfficiency, eff, alpha);
      }
      samples := samples + weight;
      updated := now;
      RefreshScores();
    }
  }

  // ---- one signal ----

  /** Both counters keep their prior of 2, and the quality mean is a fraction. */
  predicate Sensible(r: Record) {
    r.successAlpha >= 2.0 && r.successBeta >= 2.0 && r.reliabilityAlpha >= 2.0 && r.reliabilityBeta >= 2.0
    && 0.0 <= r.qualityEwma <= 1.0
  }

  lemma RatioBounds(a: real, b: real)
    requires a >= 2.0 && b >= 2.0
    ensures 0.0 <= Ratio(a, b) <= 1.0
  {
    AtLeast(a, a + b, 0.0);
    AtMost(a, a + b, 1.0);
  }

  lemma AtMost(x: real, y: real, c: real)
    requires y > 0.0 && x <= c * y
    ensures x / y <= c
  {
    var q := x / y;
    assert q * y == x;
    assert (c - q) * y == c * y - q * y;
    SignOf(c - q, y);
  }

  lemma AtLeast(x: real, y: real, c: real)
    requires y > 0.0 && x >= c * y
    ensures x / y >= c
  {
    var q := x / y;
    assert q * y == x;
    assert (q - c) * y == q * y - c * y;
    SignOf(q - c, y);
  }

  /** Products are passed by name, so that callers reason linearly about them. */
  lemma Product(a: real, b: real, limit: real, p: real)
    requires 0.0 <= a <= limit <= 1.0 && 0.0 <= b <= 1.0 && p == a * b
    ensures 0.0 <= p <= limit && p <= b
  {
    TimesNonNegative(a, b);
    TimesNonNegative(1.0 - b, a);
    assert (1.0 - b) * a == a - a * b;
    TimesNonNegative(1.0 - a, b);
    assert (1.0 - a) * b == b - a * b;
  }

  lemma StepUp(m: real, x: real, rate: real, d: real)
    requires 0.0 <= m <= x <= 1.0 && 0.0 <= rate <= 0.1 && d == rate * (x - m)
    ensures 0.0 <= m + d <= 1.0 && 0.0 <= d <= 0.1
  {
    Product(rate, x - m, 0.1, d);
  }

  lemma StepDown(m: real, x: real, rate: real, d: real)
    requires 0.0 <= x <= m <= 1.0 && 0.0 <= rate <= 0.1 && d == rate * (x - m)
    ensures 0.0 <= m + d <= 1.0 && -0.1 <= d <= 0.0
  {
    Opposite(rate, x - m, d);
    Product(rate, m - x, 0.1, -d);
  }

  /** A mean moved by at most a tenth towards a fraction stays one and moves at most a tenth. */
  lemma MeanBounds(m: real, x: real, rate: real)
    requires 0.0 <= m <= 1.0 && 0.0 <= x <= 1.0 && 0.0 <= rate <= 0.1
    ensures 0.0 <= Mean(m, x, rate) <= 1.0
    ensures -0.1 <= Mean(m, x, rate) - m <= 0.1
  {
    var d := rate * (x - m);
    if x >= m {
      StepUp(m, x, rate, d);
    } else {
      StepDown(m, x, rate, d);
    }
  }

  lemma Opposite(a: real, b: real, p: real)
    requires p == a * b
    ensures -p == a * (-b)
  {}

  /** One vote of weight at most 1 moves a success ratio with prior 2 + 2 by at most 0.11. */
  lemma VoteMovesLittle(a: real, b: real, w: real)
    requires a >= 2.0 && b >= 2.0 && 0.0 < w <= 1.0
    ensures a / (a + b) <= (a + w) / (a + w + b) <= a / (a + b) + 0.11
  {
    var s, t := a + b, a + b + w;
    var q, p := a / s, b / s;
    assert q * s == a && p * s == b;
    Complement(a, b);
    AtLeast(b, s, 0.0);
    assert q * t == a + q * w by {
      assert q * t == q * s + q * w;
    }
    assert w * p >= 0.0;
    assert q * w == w - w * p;
    AtLeast(a + w, t, q);
    VoteBound(s, b, w);
    assert (0.11 * t - w * p) * s == 0.11 * (s * t) - w * b by {
      assert (w * p) * s == w * (p * s);
    }
    SignOf(0.11 * t - w * p, s);
    assert (q + 0.11) * t == q * t + 0.11 * t;
    AtMost(a + w, t, q + 0.11);
    assert a + w + b == t;
  }

  lemma Square(x: real)
    ensures x * x >= 0.0
  {
    if x < 0.0 {
      TimesNonNegative(-x, -x);
    } else {
      TimesNonNegative(x, x);
    }
  }

  lemma VoteBound(s: real, b: real, w: real)
    requires b >= 2.0 && s - b >= 2.0 && 0.0 < w <= 1.0
    ensures w * b <= 0.11 * (s * (s + w))
  {
    var c := 89.0 / 22.0;
    var slack := 0.89 * s - 2.0;
    Square(s - c);
    assert (s - c) * (s - c) == s * s - 2.0 * c * s + c * c;
    assert 0.11 * (s * s) - slack >= 0.0;
    TimesNonNegative(1.0 - w, slack);
    assert (1.0 - w) * slack == slack - w * slack;
    TimesNonNegative(s - 2.0 - b, w);
    assert (s - 2.0 - b) * w == w * (s - 2.0) - w * b;
    assert s * (s + w) == s * s + w * s;
    assert w * slack == 0.89 * (w * s) - 2.0 * w;
    assert w * (s - 2.0) == w * s - 2.0 * w;
  }

  lemma VoteAgainst(a: real, b: real, w: real)
    requires a >= 2.0 && b >= 2.0 && 0.0 < w <= 1.0
    ensures a / (a + b) - 0.11 <= a / (a + (b + w)) <= a / (a + b)
  {
    VoteMovesLittle(b, a, w);
    var p, q := b / (b + a), (b + w) / (b + w + a);
    assert p <= q <= p + 0.11;
    Complement(a, b);
    Complement(a, b + w);
    assert b + a == a + b && b + w + a == a + (b + w);
    assert p == b / (a + b) && q == (b + w) / (a + (b + w));
  }

  lemma RatioIs(a: real, b: real)
    requires a >= 2.0 && b >= 2.0
    ensures Ratio(a, b) == a / (a + b)
  {}

  lemma VoteFor(a: real, b: real, w: real)
    requires a >= 2.0 && b >= 2.0 && 0.0 < w <= 1.0
    ensures Ratio(a, b) <= Ratio(a + w, b) <= Ratio(a, b) + 0.11
    ensures Ratio(a, b) - 0.11 <= Ratio(a, b + w) <= Ratio(a, b)
  {
    RatioIs(a, b);
    RatioIs(a + w, b);
    RatioIs(a, b + w);
    VoteMovesLittle(a, b, w);
    VoteAgainst(a, b, w);
  }

  lemma VoteEffect(a: real, b: real, vote: Option<bool>, w: real)
    requires a >= 2.0 && b >= 2.0 && 0.0 < w <= 1.0
    ensures var a', b' := Added(a, vote, true, w), Added(b, vote, false, w);
      && a' >= 2.0 && b' >= 2.0 && -0.11 <= Ratio(a', b') - Ratio(a, b) <= 0.11
      && a' + b' == a + b + (if vote.Some? then w else 0.0)
  {
    hide Ratio;
    VoteFor(a, b, w);
    match vote
    case None =>
    case Some(yes) =>
      if yes {
        assert Added(a, vote, true, w) == a + w && Added(b, vote, false, w) == b;
      } else {
        assert Added(a, vote, true, w) == a && Added(b, vote, false, w) == b + w;
      }
  }

  lemma Complement(a: real, b: real)
    requires a + b > 0.0
    ensures a / (a + b) == 1.0 - b / (a + b)
  {
    var s := a + b;
    var q, p := a / s, b / s;
    assert q * s == a && p * s == b;
    assert (q + p - 1.0) * s == 0.0;
    if q + p - 1.0 < 0.0 {
      TimesNegative(q + p - 1.0, s);
    } else if q + p - 1.0 > 0.0 {
      TimesNegative(1.0 - q - p, s);
    }
  }

  /** One signal keeps all scores in [0, 1], moves the quality mean by at most 0.1 and the composite score
      that every reader computes, stored afresh or not, by at most 0.11, and adds its weight to the success
      counters exactly when it carries an outcome. */
  lemma SignalIsBounded(r: Record, s: Signal, now: int)
    requires Sensible(r)
    ensures var d := Applied(r, s, now);
      && Sensible(d) && d == Refreshed(d)
      && 0.0 <= d.successScore <= 1.0 && 0.0 <= d.reliabilityScore <= 1.0 && 0.0 <= d.compositeScore <= 1.0
      && -0.1 <= d.qualityEwma - r.qualityEwma <= 0.1
      && -0.11 <= d.compositeScore - Refreshed(r).compositeScore <= 0.11
      && d.successAlpha + d.successBeta
         == r.successAlpha + r.successBeta + (if s.success.Some? then Weight(s.weight) else 0.0)
  {
    var w, d := Weight(s.weight), Applied(r, s, now);
    VoteEffect(r.successAlpha, r.successBeta, s.success, w);
    VoteEffect(r.reliabilityAlpha, r.reliabilityBeta, s.reliable, w);
    if s.quality.Some? {
      MeanBounds(r.qualityEwma, Clamp01(s.quality.value), Rate(w));
    }
    RatioBounds(r.successAlpha, r.successBeta);
    RatioBounds(r.reliabilityAlpha, r.reliabilityBeta);
    RatioBounds(d.successAlpha, d.successBeta);
    RatioBounds(d.reliabilityAlpha, d.reliabilityBeta);
  }

  /** Which way a signal pulls: a success raises the success score, a failure lowers it, silence leaves it; the
      same for reliability; and the quality mean moves towards what was observed, never past it. */
  lemma SignalPullsItsWay(r: Record, s: Signal, now: int)
    requires Sensible(r)
    ensures var d, was := Applied(r, s, now), Refreshed(r);
      && Pulled(s.success, was.successScore, d.successScore) && Pulled(s.reliable, was.reliabilityScore, d.reliabilityScore)
      && (match s.quality
          case None => d.qualityEwma == r.qualityEwma
          case Some(q) => Between(r.qualityEwma, d.qualityEwma, Clamp01(q)))
  {
    var w := Weight(s.weight);
    VotePulls(r.successAlpha, r.successBeta, s.success, w);
    VotePulls(r.reliabilityAlpha, r.reliabilityBeta, s.reliable, w);
    if s.quality.Some? {
      MeanBetween(r.qualityEwma, Clamp01(s.quality.value), Rate(w));
    }
    hide Ratio, Clamp01, Weight, Rate, Mean, Between;
  }

  predicate Pulled(vote: Option<bool>, before: real, after: real) {
    match vote
    case Some(true) => after > before
    case Some(false) => after < before
    case None => after == before
  }

  predicate Between(a: real, x: real, b: real) { (a <= x <= b || b <= x <= a) && (a != b ==> x != a) }

  lemma MeanBetween(m: real, x: real, rate: real)
    requires 0.0 <= m <= 1.0 && 0.0 <= x <= 1.0 && 0.0 < rate <= 0.1
    ensures Between(m, Mean(m, x, rate), x)
  {
    if x > m {
      PartOf(rate, x - m, rate * (x - m));
    } else if x < m {
      Opposite(rate, x - m, rate * (x - m));
      PartOf(rate, m - x, -(rate * (x - m)));
    }
  }

  lemma PartOf(rate: real, gap: real, p: real)
    requires 0.0 < rate <= 0.1 && 0.0 < gap <= 1.0 && p == rate * gap
    ensures 0.0 < p <= gap
  {
    TimesPositive(rate, gap);
    Product(rate, gap, 0.1, p);
  }

  lemma VotePulls(a: real, b: real, vote: Option<bool>, w: real)
    requires a >= 2.0 && b >= 2.0 && 0.0 < w <= 1.0
    ensures Pulled(vote, Ratio(a, b), Ratio(Added(a, vote, true, w), Added(b, vote, false, w)))
  {
    match vote
    case None =>
    case Some(true) => VoteRaises(a, b, w);
    case Some(false) =>
      VoteRaises(b, a, w);
      Complement(a, b);
      Complement(a, b + w);
      RatioIs(a, b);
      RatioIs(a, b + w);
      RatioIs(b, a);
      RatioIs(b + w, a);
      assert b + a == a + b && b + w + a == a + (b + w);
  }

  lemma VoteRaises(a: real, b: real, w: real)
    requires a >= 2.0 && b >= 2.0 && 0.0 < w <= 1.0
    ensures Ratio(a, b) < Ratio(a + w, b)
  {
    var s, t := a + b, a + w + b;
    var p, q, rest := a / s, (a + w) / t, b / s;
    assert p * s == a && q * t == a + w && rest * s == b;
    Complement(a, b);
    StrictSign(rest, s);
    TimesPositive(w, rest);
    assert p * t == a + p * w by {
      assert p * t == p * s + p * w;
    }
    assert p * w == w - w * rest;
    var d := q - p;
    assert d * t == q * t - p * t;
    assert d * t == w * rest;
    StrictSign(d, t);
    RatioIs(a, b);
    RatioIs(a + w, b);
  }

  lemma StrictSign(p: real, y: real)
    requires y > 0.0 && p * y > 0.0
    ensures p > 0.0
  {
    if p <= 0.0 {
      TimesNonNegative(-p, y);
    }
  }

  /** The stored composite score obeys the bound too when it is fresh. */
  lemma FreshScoreIsBounded(r: Record, s: Signal, now: int)
    requires Sensible(r) && r == Refreshed(r)
    ensures -0.11 <= Applied(r, s, now).compositeScore - r.compositeScore <= 0.11
  {
    hide Refreshed, Sensible, Applied;
    SignalIsBounded(r, s, now);
  }

  /** A signal that says nothing about outcome, quality or reliability. */
  predicate Neutral(s: Signal) { s.success.None? && s.quality.None? && s.reliable.None? }

  /** Freshness decides: a neutral signal moves the stored score by exactly its staleness, so the stored score
      obeys the bound if and only if it was at most 0.11 away from the one that readers compute. */
  lemma NeutralMovesByStaleness(r: Record, s: Signal, now: int)
    requires Neutral(s)
    ensures Applied(r, s, now).compositeScore == Refreshed(r).compositeScore
    ensures -0.11 <= Applied(r, s, now).compositeScore - r.compositeScore <= 0.11
       <==> -0.11 <= Refreshed(r).compositeScore - r.compositeScore <= 0.11
  {}

  /** The failing input: a new record is stored with score 0, and the first signal, even a neutral one, lifts
      it to 0.5. */
  lemma FirstSignalJumps(s: Signal, now: int)
    requires Neutral(s)
    ensures NEW.compositeScore == 0.0 && Applied(NEW, s, now).compositeScore == 0.5
  {
    NeutralMovesByStaleness(NEW, s, now);
  }

  // ---- the idempotent store call, over any sequence of signals ----

  type Key = (string, string)

  datatype Book = Book(records: map<Key, Record>, seen: set<string>)

  function KeyOf(s: Signal): Key { (s.agent, s.skill) }

  function RecordOf(b: Book, k: Key): Record { if k in b.records then b.records[k] else NEW }

  /** A known signal is a duplicate, an unknown agent an error; everything else is applied once. */
  function Feed(b: Book, agents: set<string>, s: Signal, now: int): (Book, Result<()>) {
    if s.id in b.seen then (b, Duplicate(()))
    else if s.agent !in agents then (b, Err(NotFound))
    else (Book(b.records[KeyOf(s) := Applied(RecordOf(b, KeyOf(s)), s, now)], b.seen + {s.id}), Ok(()))
  }

  class ReputationStore {
    var records: map<Key, Record>
    var seen: set<string>

    ghost function Contents(): Book
      reads this
    {
      Book(records, seen)
    }

    constructor ()
      ensures Contents() == Book(map[], {})
    {
      records, seen := map[], {};
    }

    method ApplyReputationSignal(agents: set<string>, s: Signal, now: int) returns (r: Result<()>)
      modifies this
      ensures (Contents(), r) == Feed(old(Contents()), agents, s, now)
    {
      if s.id in seen {
        return Duplicate(());
      }
      if s.agent !in agents {
        return Err(NotFound);
      }
      var k := (s.agent, s.skill);
      ghost var after := Applied(RecordOf(Contents(), k), s, now);
      assert records[k := NEW][k := after] == records[k := after];
      if k !in records {
        records := records[k := NEW];
      }
      records := records[k := Applied(records[k], s, now)];
      seen := seen + {s.id};
      r := Ok(());
    }
  }

  /** One call: the signal, the agents registered at that moment, and the clock. */
  datatype Arrival = Arrival(signal: Signal, agents: set<string>, now: int)

  function Fed(arrivals: seq<Arrival>): Book {
    if arrivals == [] then Book(map[], {})
    else
      var last := arrivals[|arrivals| - 1];
      Feed(Fed(arrivals[..|arrivals| - 1]), last.agents, last.signal, last.now).0
  }

  /** The signals that are applied: of each id the first whose agent is registered when it arrives. */
  function AppliedSignals(arrivals: seq<Arrival>): seq<Signal> {
    if arrivals == [] then []
    else
      var rest, last := AppliedSignals(arrivals[..|arrivals| - 1]), arrivals[|arrivals| - 1];
      if last.signal.agent in last.agents && (forall s :: s in rest ==> s.id != last.signal.id) then rest + [last.signal]
      else rest
  }

  /** Total clamped weight of the signals for a key that carry an outcome. */
  function OutcomeWeight(signals: seq<Signal>, k: Key): real {
    if signals == [] then 0.0
    else
      var last := signals[|signals| - 1];
      OutcomeWeight(signals[..|signals| - 1], k)
        + if KeyOf(last) == k && last.success.Some? then Weight(last.weight) else 0.0
  }

  lemma {:induction false} SeenAreApplied(arrivals: seq<Arrival>)
    ensures Fed(arrivals).seen == set s | s in AppliedSignals(arrivals) :: s.id
  {
    if arrivals != [] {
      var init, last := arrivals[..|arrivals| - 1], arrivals[|arrivals| - 1].signal;
      SeenAreApplied(init);
      var rest := AppliedSignals(init);
      assert last.id in Fed(init).seen <==> exists s :: s in rest && s.id == last.id;
      assert (set s | s in rest + [last] :: s.id) == (set s | s in rest :: s.id) + {last.id};
    }
  }

  lemma NewIsSensible()
    ensures Sensible(NEW)
  {}

  /** After any sequence of arrivals, repeated signals, unknown agents and later registrations included, every
      record is sensible with fresh scores in [0, 1], and its success counters are 4 plus the weight of the
      distinct applied signals that carried an outcome. */
  lemma {:induction false} ReputationOverRuns(arrivals: seq<Arrival>, k: Key)
    requires k in Fed(arrivals).records
    ensures var r := Fed(arrivals).records[k];
      && Sensible(r) && r == Refreshed(r)
      && 0.0 <= r.successScore <= 1.0 && 0.0 <= r.reliabilityScore <= 1.0 && 0.0 <= r.compositeScore <= 1.0
      && r.successAlpha + r.successBeta == 4.0 + OutcomeWeight(AppliedSignals(arrivals), k)
  {
    var init, last := arrivals[..|arrivals| - 1], arrivals[|arrivals| - 1];
    var before := Fed(init);
    if k in before.records {
      ReputationOverRuns(init, k);
    } else {
      NothingYet(init, k);
    }
    LastApplied(arrivals, k);
    if Accepted(before, last) && KeyOf(last.signal) == k {
      hide Refreshed, Counted, Sensible, AppliedSignals, OutcomeWeight;
      NewIsSensible();
      SignalIsBounded(RecordOf(before, k), last.signal, last.now);
    }
  }

  predicate Accepted(b: Book, a: Arrival) { a.signal.id !in b.seen && a.signal.agent in a.agents }

  /** What the last arrival adds to the outcome weight: its weight when it is applied to this key. */
  lemma LastApplied(arrivals: seq<Arrival>, k: Key)
    requires arrivals != []
    ensures var init, last := arrivals[..|arrivals| - 1], arrivals[|arrivals| - 1];
      OutcomeWeight(AppliedSignals(arrivals), k)
        == OutcomeWeight(AppliedSignals(init), k)
           + if Accepted(Fed(init), last) && KeyOf(last.signal) == k && last.signal.success.Some?
             then Weight(last.signal.weight) else 0.0
  {
    var init, last := arrivals[..|arrivals| - 1], arrivals[|arrivals| - 1].signal;
    SeenAreApplied(init);
    var rest := AppliedSignals(init);
    assert last.id in Fed(init).seen <==> exists s :: s in rest && s.id == last.id;
    assert (rest + [last])[..|rest|] == rest;
  }

  lemma {:induction false} NothingYet(arrivals: seq<Arrival>, k: Key)
    requires k !in Fed(arrivals).records
    ensures OutcomeWeight(AppliedSignals(arrivals), k) == 0.0
  {
    if arrivals != [] {
      var init, last := arrivals[..|arrivals| - 1], arrivals[|arrivals| - 1].signal;
      var rest := AppliedSignals(init);
      SeenAreApplied(init);
      NothingYet(init, k);
      assert last.id in Fed(init).seen <==> exists s :: s in rest && s.id == last.id;
      assert (rest + [last])[..|rest|] == rest;
    }
  }
}
