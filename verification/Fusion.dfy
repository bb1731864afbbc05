/** Candidate fusion: what the score of a URI is, whatever the order of the hits. */
module Fusion {
  import opened Strings
  import opened Text

  datatype Surface = L0Object | AnchorIndex | FactIndex | EntityIndex | ReasonTreeIndex

  const SURFACES := [L0Object, AnchorIndex, FactIndex, EntityIndex, ReasonTreeIndex]

  /** `time` orders hits the way their timestamp texts do; `record` identifies the payload. */
  datatype Hit = Hit(sourceUri: string, recordUri: string, record: int, score: real, surface: Surface, time: int)

  datatype Order = ByScore | Earliest | Latest

  datatype Plan = Plan(
    limit: nat, weights: map<Surface, real>, bonus: map<Surface, real>,
    diversityBonus: real, maxDiversityBonus: real,
    startingBonus: real, startingUris: seq<string>, order: Order)

  function Uri(h: Hit): string {
    if h.sourceUri != "" then h.sourceUri else h.recordUri
  }

  // ---- Products and quotients, used through their laws ----

  function Multiply(x: real, y: real): real {
    x * y
  }

  ghost predicate IsTimes(x: real, y: real, p: real) {
    forall k :: k == y ==> Multiply(x, k) == p
  }

  ghost function Times(x: real, y: real): real {
    assert IsTimes(x, y, Multiply(x, y));
    var p :| IsTimes(x, y, p);
    p
  }

  lemma TimesIs(x: real, y: real)
    ensures Times(x, y) == x * y
  {
    assert Multiply(x, y) == Times(x, y);
  }

  function Divide(x: real, y: real): real
    requires y != 0.0
  {
    x / y
  }

  ghost predicate IsOver(x: real, y: real, q: real) {
    forall k :: k == y && k != 0.0 ==> Divide(x, k) == q
  }

  ghost function Over(x: real, y: real): real
    requires y != 0.0
  {
    assert IsOver(x, y, Divide(x, y));
    var q :| IsOver(x, y, q);
    q
  }

  lemma OverIs(x: real, y: real)
    requires y != 0.0
    ensures Over(x, y) == x / y
  {
    assert Divide(x, y) == Over(x, y);
  }

  // ---- Weighting and normalising ----

  function WeightOf(plan: Plan, s: Surface): real {
    if s in plan.weights then plan.weights[s] else 1.0
  }

  ghost function Weighted(h: Hit, plan: Plan): Hit {
    h.(score := Times(h.score, WeightOf(plan, h.surface)))
  }

  function MinScore(hits: seq<Hit>): (m: real)
    requires hits != []
    ensures forall h :: h in hits ==> m <= h.score
    ensures exists h :: h in hits && h.score == m
  {
    if |hits| == 1 then hits[0].score
    else
      var rest := MinScore(hits[1..]);
      assert hits == [hits[0]] + hits[1..];
      if hits[0].score < rest then hits[0].score else rest
  }

  function MaxScore(hits: seq<Hit>): (m: real)
    requires hits != []
    ensures forall h :: h in hits ==> h.score <= m
    ensures exists h :: h in hits && h.score == m
  {
    if |hits| == 1 then hits[0].score
    else
      var rest := MaxScore(hits[1..]);
      assert hits == [hits[0]] + hits[1..];
      if hits[0].score > rest then hits[0].score else rest
  }

  ghost function Rescaled(x: real, lo: real, hi: real): real {
    if hi - lo <= 0.0 then 1.0 else Over(x - lo, hi - lo)
  }

  ghost function WeightedAll(hits: seq<Hit>, plan: Plan): (r: seq<Hit>)
    ensures |r| == |hits|
    ensures forall i :: 0 <= i < |r| ==> r[i] == Weighted(hits[i], plan)
  {
    seq(|hits|, i requires 0 <= i < |hits| => Weighted(hits[i], plan))
  }

  /** Scores rescaled to the current candidate pool. */
  ghost function Normalized(hits: seq<Hit>): (r: seq<Hit>)
    ensures |r| == |hits|
    ensures forall i :: 0 <= i < |r| ==>
              r[i] == hits[i].(score := Rescaled(hits[i].score, MinScore(hits), MaxScore(hits)))
  {
    if hits == [] then []
    else
      var lo, hi := MinScore(hits), MaxScore(hits);
      seq(|hits|, i requires 0 <= i < |hits| => hits[i].(score := Rescaled(hits[i].score, lo, hi)))
  }

  // ---- The simple specification ----

  function Uris(hits: seq<Hit>): set<string> {
    set h | h in hits && Uri(h) != "" :: Uri(h)
  }

  predicate HasUri(hits: seq<Hit>, uri: string) {
    exists i :: 0 <= i < |hits| && Uri(hits[i]) == uri
  }

  /** The best score among the hits of a URI; zero where there is none. */
  function Best(hits: seq<Hit>, uri: string): real {
    if hits == [] then 0.0
    else
      var front, last := hits[..|hits| - 1], hits[|hits| - 1];
      if Uri(last) != uri then Best(front, uri)
      else if HasUri(front, uri) && Best(front, uri) >= last.score then Best(front, uri)
      else last.score
  }

  ghost predicate IsBest(hits: seq<Hit>, uri: string, best: real) {
    && (forall h :: h in hits && Uri(h) == uri ==> h.score <= best)
    && (exists h :: h in hits && Uri(h) == uri && h.score == best)
  }

  function SurfacesOf(hits: seq<Hit>, uri: string): set<Surface> {
    set h | h in hits && Uri(h) == uri :: h.surface
  }

  function BonusOf(plan: Plan, s: Surface): real {
    if s in plan.bonus then plan.bonus[s] else 0.0
  }

  function BonusOver(plan: Plan, listed: seq<Surface>, surfaces: set<Surface>): real {
    if listed == [] then 0.0
    else (if listed[0] in surfaces then BonusOf(plan, listed[0]) else 0.0)
         + BonusOver(plan, listed[1..], surfaces)
  }

  predicate IsNear(uri: string, starts: seq<string>) {
    exists i :: 0 <= i < |starts| && NearOne(uri, Strip(starts[i]))
  }

  predicate NearOne(uri: string, text: string) {
    text != "" && (uri == text || StartsWith(uri, if EndsWith(text, '/') then text else text + "/"))
  }

  ghost function DiversityBonus(plan: Plan, n: nat): real {
    var d := Times((if n > 1 then n - 1 else 0) as real, plan.diversityBonus);
    if plan.maxDiversityBonus < d then plan.maxDiversityBonus else d
  }

  /** All that is added to the best normalised score; it depends on sets only. */
  ghost function Bonuses(plan: Plan, uri: string, surfaces: set<Surface>): real {
    DiversityBonus(plan, |surfaces|) + BonusOver(plan, SURFACES, surfaces)
    + if IsNear(uri, plan.startingUris) then plan.startingBonus else 0.0
  }

  ghost predicate IsFusedScore(hits: seq<Hit>, plan: Plan, uri: string, score: real) {
    forall ns :: ns == Normalized(WeightedAll(hits, plan)) ==>
      score == Best(ns, uri) + Bonuses(plan, uri, SurfacesOf(hits, uri))
  }

  /** The fused score of a URI: its best normalised score plus its bonuses. Picked by its
      property, so that proofs about rankings do not unfold it. */
  ghost function FusedScore(hits: seq<Hit>, plan: Plan, uri: string): real {
    var ns := Normalized(WeightedAll(hits, plan));
    assert IsFusedScore(hits, plan, uri, Best(ns, uri) + Bonuses(plan, uri, SurfacesOf(hits, uri)));
    var score :| IsFusedScore(hits, plan, uri, score);
    score
  }

  lemma FusedScoreIs(hits: seq<Hit>, plan: Plan, uri: string)
    ensures FusedScore(hits, plan, uri)
            == Best(Normalized(WeightedAll(hits, plan)), uri) + Bonuses(plan, uri, SurfacesOf(hits, uri))
  {
  }

  lemma SameScore(a: seq<Hit>, b: seq<Hit>, plan: Plan, uri: string)
    requires Normalized(WeightedAll(a, plan)) == Normalized(WeightedAll(b, plan))
    requires SurfacesOf(a, uri) == SurfacesOf(b, uri)
    ensures FusedScore(a, plan, uri) == FusedScore(b, plan, uri)
  {
    FusedScoreIs(a, plan, uri);
    FusedScoreIs(b, plan, uri);
  }

  // ---- The score spelled out ----

  /** The weighted score of each hit; a surface without a weight counts once. */
  predicate AreWeighted(hits: seq<Hit>, plan: Plan, w: seq<real>) {
    && |w| == |hits|
    && forall k :: 0 <= k < |hits| ==>
         w[k] == hits[k].score * (if hits[k].surface in plan.weights then plan.weights[hits[k].surface] else 1.0)
  }

  /** The smallest and the largest of the numbers. */
  predicate AreExtremes(w: seq<real>, lo: real, hi: real) {
    lo in w && hi in w && forall k :: 0 <= k < |w| ==> lo <= w[k] <= hi
  }

  /** Hit `i` names the URI, and none that does weighs more. */
  predicate WeighsMost(hits: seq<Hit>, w: seq<real>, uri: string, i: nat) {
    && i < |w| == |hits| && Uri(hits[i]) == uri
    && forall k :: 0 <= k < |hits| && Uri(hits[k]) == uri ==> w[k] <= w[i]
  }

  /** Where a number lies between two extremes; flat extremes count as one. */
  function Place(x: real, lo: real, hi: real): real {
    if hi <= lo then 1.0 else (x - lo) / (hi - lo)
  }

  /** So many times the rate, but no more than the cap. */
  function Capped(cap: real, times: int, rate: real): real {
    if times as real * rate > cap then cap else times as real * rate
  }

  function BonusIf(plan: Plan, surfaces: set<Surface>, s: Surface): real {
    if s in surfaces && s in plan.bonus then plan.bonus[s] else 0.0
  }

  lemma WeightsAre(hits: seq<Hit>, plan: Plan, w: seq<real>)
    requires AreWeighted(hits, plan, w)
    ensures forall k :: 0 <= k < |hits| ==> WeightedAll(hits, plan)[k] == hits[k].(score := w[k])
  {
    forall k | 0 <= k < |hits| ensures WeightedAll(hits, plan)[k] == hits[k].(score := w[k]) {
      TimesIs(hits[k].score, WeightOf(plan, hits[k].surface));
    }
  }

  lemma ExtremesAre(ws: seq<Hit>, w: seq<real>, lo: real, hi: real)
    requires |ws| == |w| && forall k :: 0 <= k < |w| ==> ws[k].score == w[k]
    requires AreExtremes(w, lo, hi)
    ensures ws != [] && MinScore(ws) == lo && MaxScore(ws) == hi
  {
    var a :| 0 <= a < |w| && w[a] == lo;
    var b :| 0 <= b < |w| && w[b] == hi;
    WithinExtremes(ws, a);
    WithinExtremes(ws, b);
    var i := SomeMin(ws);
    var j := SomeMax(ws);
  }

  lemma RescaledKeepsOrder(x: real, y: real, lo: real, hi: real)
    requires x <= y
    ensures Rescaled(x, lo, hi) <= Rescaled(y, lo, hi)
  {
    if hi - lo > 0.0 {
      OverIs(x - lo, hi - lo);
      OverIs(y - lo, hi - lo);
      var d := (y - x) / (hi - lo);
      assert d * (hi - lo) == y - x;
      assert (y - lo) / (hi - lo) == (x - lo) / (hi - lo) + d;
    }
  }

  lemma BestIsRescaled(hits: seq<Hit>, plan: Plan, uri: string, w: seq<real>, lo: real, hi: real, i: nat)
    requires AreWeighted(hits, plan, w) && AreExtremes(w, lo, hi) && WeighsMost(hits, w, uri, i)
    ensures Best(Normalized(WeightedAll(hits, plan)), uri) == Rescaled(w[i], lo, hi)
  {
    WeightsAre(hits, plan, w);
    var ws := WeightedAll(hits, plan);
    ExtremesAre(ws, w, lo, hi);
    var ns := Normalized(ws);
    assert forall k :: 0 <= k < |ns| ==> ns[k].score == Rescaled(w[k], lo, hi) && Uri(ns[k]) == Uri(hits[k]);
    forall n | n in ns && Uri(n) == uri ensures n.score <= Rescaled(w[i], lo, hi) {
      var k :| 0 <= k < |ns| && ns[k] == n;
      RescaledKeepsOrder(w[k], w[i], lo, hi);
    }
    assert ns[i] in ns;
    BestUnique(ns, uri, Rescaled(w[i], lo, hi));
  }

  lemma BonusesSpelled(plan: Plan, surfaces: set<Surface>)
    ensures BonusOver(plan, SURFACES, surfaces)
            == BonusIf(plan, surfaces, L0Object) + BonusIf(plan, surfaces, AnchorIndex)
               + BonusIf(plan, surfaces, FactIndex) + BonusIf(plan, surfaces, EntityIndex)
               + BonusIf(plan, surfaces, ReasonTreeIndex)
  {
    var s1, s2, s3, s4 := SURFACES[1..], SURFACES[2..], SURFACES[3..], SURFACES[4..];
    assert s1[1..] == s2 && s2[1..] == s3 && s3[1..] == s4 && s4[1..] == [];
    BonusStep(plan, SURFACES, surfaces);
    BonusStep(plan, s1, surfaces);
    BonusStep(plan, s2, surfaces);
    BonusStep(plan, s3, surfaces);
    BonusStep(plan, s4, surfaces);
    assert BonusOver(plan, [], surfaces) == 0.0;
  }

  lemma BonusStep(plan: Plan, listed: seq<Surface>, surfaces: set<Surface>)
    requires listed != []
    ensures BonusOver(plan, listed, surfaces)
            == BonusIf(plan, surfaces, listed[0]) + BonusOver(plan, listed[1..], surfaces)
  {
  }

  /** The score of a URI, spelled out: the weight of its heaviest hit, placed between the extremes
      of the pool, plus the capped bonus for further surfaces, the bonus of each surface, and the
      bonus for lying at or below a starting URI. */
  lemma FusedScoreSpelled(hits: seq<Hit>, plan: Plan, uri: string, w: seq<real>, lo: real, hi: real, i: nat)
    requires AreWeighted(hits, plan, w) && AreExtremes(w, lo, hi) && WeighsMost(hits, w, uri, i)
    ensures var surfaces := set h | h in hits && Uri(h) == uri :: h.surface;
            FusedScore(hits, plan, uri)
            == Place(w[i], lo, hi) + Capped(plan.maxDiversityBonus, |surfaces| - 1, plan.diversityBonus)
               + (BonusIf(plan, surfaces, L0Object) + BonusIf(plan, surfaces, AnchorIndex)
                  + BonusIf(plan, surfaces, FactIndex) + BonusIf(plan, surfaces, EntityIndex)
                  + BonusIf(plan, surfaces, ReasonTreeIndex))
               + (if IsNear(uri, plan.startingUris) then plan.startingBonus else 0.0)
  {
    var surfaces := set h | h in hits && Uri(h) == uri :: h.surface;
    assert surfaces == SurfacesOf(hits, uri);
    assert hits[i] in hits && hits[i].surface in surfaces;
    FusedScoreIs(hits, plan, uri);
    BestIsRescaled(hits, plan, uri, w, lo, hi, i);
    RescaledIsPlace(w[i], lo, hi);
    BonusesSpelled(plan, surfaces);
    DiversityIsCapped(plan, |surfaces|);
  }

  lemma RescaledIsPlace(x: real, lo: real, hi: real)
    ensures Rescaled(x, lo, hi) == Place(x, lo, hi)
  {
    if hi > lo {
      OverIs(x - lo, hi - lo);
    }
  }

  lemma DiversityIsCapped(plan: Plan, n: nat)
    requires n > 0
    ensures DiversityBonus(plan, n) == Capped(plan.maxDiversityBonus, n - 1, plan.diversityBonus)
  {
    TimesIs((n - 1) as real, plan.diversityBonus);
  }

  /** Near a starting URI: equal to one, or below it; blank ones and outer white space are ignored. */
  lemma IsNearIff(uri: string, starts: seq<string>)
    ensures IsNear(uri, starts) <==>
              exists k :: 0 <= k < |starts| && Strip(starts[k]) != ""
                          && (uri == Strip(starts[k])
                              || (EndsWith(Strip(starts[k]), '/') && Strip(starts[k]) <= uri)
                              || (!EndsWith(Strip(starts[k]), '/') && Strip(starts[k]) + "/" <= uri))
  {
  }

  // ---- The score is a function of the set of hits ----

  lemma WeightedSet(hits: seq<Hit>, plan: Plan, w: Hit)
    ensures w in WeightedAll(hits, plan) <==> exists h :: h in hits && Weighted(h, plan) == w
  {
    var ws := WeightedAll(hits, plan);
    if w in ws {
      var i :| 0 <= i < |ws| && ws[i] == w;
      assert hits[i] in hits;
    }
    if h :| h in hits && Weighted(h, plan) == w {
      var i :| 0 <= i < |hits| && hits[i] == h;
      assert ws[i] == w;
    }
  }

  lemma SameExtremes(a: seq<Hit>, b: seq<Hit>)
    requires a != [] && b != [] && forall h :: h in a <==> h in b
    ensures MinScore(a) == MinScore(b) && MaxScore(a) == MaxScore(b)
  {
  }

  lemma NormalizedSet(a: seq<Hit>, b: seq<Hit>, n: Hit)
    requires forall h :: h in a <==> h in b
    requires n in Normalized(a)
    ensures n in Normalized(b)
  {
    var i :| 0 <= i < |a| && Normalized(a)[i] == n;
    assert a[i] in a && a[i] in b;
    var j :| 0 <= j < |b| && b[j] == a[i];
    SameExtremes(a, b);
    assert Normalized(b)[j] == n;
  }

  lemma SameNormalized(a: seq<Hit>, b: seq<Hit>, plan: Plan, n: Hit)
    requires forall h :: h in a <==> h in b
    requires n in Normalized(WeightedAll(a, plan))
    ensures n in Normalized(WeightedAll(b, plan))
  {
    forall w ensures w in WeightedAll(a, plan) <==> w in WeightedAll(b, plan) {
      WeightedSet(a, plan, w);
      WeightedSet(b, plan, w);
    }
    NormalizedSet(WeightedAll(a, plan), WeightedAll(b, plan), n);
  }

  lemma {:induction false} BestIsBest(ns: seq<Hit>, uri: string)
    requires HasUri(ns, uri)
    ensures IsBest(ns, uri, Best(ns, uri))
  {
    var front, last := ns[..|ns| - 1], ns[|ns| - 1];
    assert ns == front + [last];
    if HasUri(front, uri) {
      BestIsBest(front, uri);
    } else {
      assert forall h :: h in front ==> Uri(h) != uri;
    }
    assert Uri(last) != uri ==> HasUri(front, uri);
  }

  lemma {:induction false} NoBest(ns: seq<Hit>, uri: string)
    requires !HasUri(ns, uri)
    ensures Best(ns, uri) == 0.0
  {
    if ns != [] {
      assert Uri(ns[|ns| - 1]) != uri;
      var front := ns[..|ns| - 1];
      assert forall i :: 0 <= i < |front| ==> front[i] == ns[i];
      NoBest(front, uri);
    }
  }

  lemma BestUnique(ns: seq<Hit>, uri: string, best: real)
    requires IsBest(ns, uri, best)
    ensures HasUri(ns, uri) && best == Best(ns, uri)
  {
    var h :| h in ns && Uri(h) == uri && h.score == best;
    BestIsBest(ns, uri);
  }

  lemma HasUriIff(ns: seq<Hit>, uri: string)
    ensures HasUri(ns, uri) <==> exists n :: n in ns && Uri(n) == uri
  {
    if n :| n in ns && Uri(n) == uri {
      var i :| 0 <= i < |ns| && ns[i] == n;
    }
  }

  lemma SameBest(na: seq<Hit>, nb: seq<Hit>, uri: string)
    requires forall n :: n in na <==> n in nb
    ensures Best(na, uri) == Best(nb, uri)
  {
    if HasUri(na, uri) {
      BestIsBest(na, uri);
      assert IsBest(nb, uri, Best(na, uri));
      BestUnique(nb, uri, Best(na, uri));
    } else {
      NoBest(na, uri);
      HasUriIff(na, uri);
      HasUriIff(nb, uri);
      NoBest(nb, uri);
    }
  }

  lemma SameNormalizedSets(a: seq<Hit>, b: seq<Hit>, plan: Plan)
    requires forall h :: h in a <==> h in b
    ensures forall n :: n in Normalized(WeightedAll(a, plan)) <==> n in Normalized(WeightedAll(b, plan))
  {
    forall n
      ensures n in Normalized(WeightedAll(a, plan)) <==> n in Normalized(WeightedAll(b, plan)) {
      if n in Normalized(WeightedAll(a, plan)) { SameNormalized(a, b, plan, n); }
      if n in Normalized(WeightedAll(b, plan)) { SameNormalized(b, a, plan, n); }
    }
  }

  lemma SameSurfaces(a: seq<Hit>, b: seq<Hit>, uri: string)
    requires forall h :: h in a <==> h in b
    ensures SurfacesOf(a, uri) == SurfacesOf(b, uri) && Uris(a) == Uris(b)
  {
  }

  /** Neither the order of the hits nor repetition matters. */
  lemma OrderIndependent(a: seq<Hit>, b: seq<Hit>, plan: Plan, uri: string)
    requires forall h :: h in a <==> h in b
    ensures FusedScore(a, plan, uri) == FusedScore(b, plan, uri) && Uris(a) == Uris(b)
  {
    SameNormalizedSets(a, b, plan);
    SameBest(Normalized(WeightedAll(a, plan)), Normalized(WeightedAll(b, plan)), uri);
    SameSurfaces(a, b, uri);
    FusedScoreIs(a, plan, uri);
    FusedScoreIs(b, plan, uri);
  }

  // ---- Scaling all raw scores ----

  function Mapped(hits: seq<Hit>, f: real -> real): (r: seq<Hit>)
    ensures |r| == |hits|
    ensures forall i :: 0 <= i < |r| ==> r[i] == hits[i].(score := f(hits[i].score))
  {
    seq(|hits|, i requires 0 <= i < |hits| => hits[i].(score := f(hits[i].score)))
  }

  ghost predicate KeepsOrder(f: real -> real) {
    forall x, y :: x <= y <==> f(x) <= f(y)
  }

  ghost predicate KeepsPlace(f: real -> real) {
    forall x, lo, hi :: Rescaled(f(x), f(lo), f(hi)) == Rescaled(x, lo, hi)
  }

  lemma SomeMin(ws: seq<Hit>) returns (i: nat)
    requires ws != []
    ensures i < |ws| && ws[i].score == MinScore(ws)
  {
    var m := MinScore(ws);
    var h :| h in ws && h.score == m;
    i :| 0 <= i < |ws| && ws[i] == h;
  }

  lemma SomeMax(ws: seq<Hit>) returns (i: nat)
    requires ws != []
    ensures i < |ws| && ws[i].score == MaxScore(ws)
  {
    var m := MaxScore(ws);
    var h :| h in ws && h.score == m;
    i :| 0 <= i < |ws| && ws[i] == h;
  }

  lemma WithinExtremes(ws: seq<Hit>, i: nat)
    requires i < |ws|
    ensures MinScore(ws) <= ws[i].score <= MaxScore(ws)
  {
    assert ws[i] in ws;
  }

  lemma MinMaps(ws: seq<Hit>, f: real -> real)
    requires ws != [] && KeepsOrder(f)
    ensures MinScore(Mapped(ws, f)) == f(MinScore(ws))
  {
    var i := SomeMin(Mapped(ws, f));
    WithinExtremes(ws, i);
    var j := SomeMin(ws);
    WithinExtremes(Mapped(ws, f), j);
  }

  lemma MaxMaps(ws: seq<Hit>, f: real -> real)
    requires ws != [] && KeepsOrder(f)
    ensures MaxScore(Mapped(ws, f)) == f(MaxScore(ws))
  {
    var i := SomeMax(Mapped(ws, f));
    WithinExtremes(ws, i);
    var j := SomeMax(ws);
    WithinExtremes(Mapped(ws, f), j);
  }

  lemma NormalizedMap(ws: seq<Hit>, f: real -> real)
    requires KeepsOrder(f) && KeepsPlace(f)
    ensures Normalized(Mapped(ws, f)) == Normalized(ws)
  {
    if ws != [] {
      MinMaps(ws, f);
      MaxMaps(ws, f);
    }
  }

  lemma SurfacesMap(hits: seq<Hit>, f: real -> real, uri: string)
    ensures SurfacesOf(Mapped(hits, f), uri) == SurfacesOf(hits, uri)
  {
    var ms := Mapped(hits, f);
    forall s ensures s in SurfacesOf(ms, uri) <==> s in SurfacesOf(hits, uri) {
      if s in SurfacesOf(ms, uri) {
        var i :| 0 <= i < |ms| && Uri(ms[i]) == uri && ms[i].surface == s;
        assert hits[i] in hits;
      }
      if s in SurfacesOf(hits, uri) {
        var i :| 0 <= i < |hits| && Uri(hits[i]) == uri && hits[i].surface == s;
        assert ms[i] in ms;
      }
    }
  }

  lemma OrderScales(x: real, y: real, c: real)
    requires c > 0.0
    ensures x <= y <==> c * x <= c * y
  {
    assert c * y - c * x == c * (y - x);
  }

  lemma QuotientScales(a: real, b: real, c: real)
    requires b > 0.0 && c > 0.0
    ensures c * b > 0.0 && (c * a) / (c * b) == a / b
  {
    var q := a / b;
    assert c * a == q * (c * b);
  }

  lemma RescaledScales(x: real, lo: real, hi: real, c: real)
    requires c > 0.0
    ensures Rescaled(c * x, c * lo, c * hi) == Rescaled(x, lo, hi)
  {
    assert c * hi - c * lo == c * (hi - lo) && c * x - c * lo == c * (x - lo);
    if hi - lo > 0.0 {
      QuotientScales(x - lo, hi - lo, c);
      OverIs(x - lo, hi - lo);
      OverIs(c * x - c * lo, c * hi - c * lo);
    } else {
      assert c * (hi - lo) <= 0.0;
    }
  }

  lemma FactorRescales(c: real, f: real -> real)
    requires c > 0.0 && forall x :: f(x) == c * x
    ensures KeepsOrder(f) && KeepsPlace(f)
  {
    forall x, y ensures x <= y <==> f(x) <= f(y) {
      OrderScales(x, y, c);
    }
    forall x, lo, hi ensures Rescaled(f(x), f(lo), f(hi)) == Rescaled(x, lo, hi) {
      assert f(x) == c * x && f(lo) == c * lo && f(hi) == c * hi;
      RescaledScales(x, lo, hi, c);
    }
  }

  lemma WeightsCommute(hits: seq<Hit>, plan: Plan, c: real, f: real -> real)
    requires forall x :: f(x) == c * x
    ensures WeightedAll(Mapped(hits, f), plan) == Mapped(WeightedAll(hits, plan), f)
  {
    forall i | 0 <= i < |hits|
      ensures WeightedAll(Mapped(hits, f), plan)[i] == Mapped(WeightedAll(hits, plan), f)[i] {
      var s, w := hits[i].score, WeightOf(plan, hits[i].surface);
      TimesIs(s, w);
      TimesIs(c * s, w);
      assert (c * s) * w == c * (s * w);
      assert f(s) == c * s && f(Times(s, w)) == c * Times(s, w);
    }
  }

  /** One positive factor on all raw scores changes no fused score. */
  lemma ScaleInvariant(hits: seq<Hit>, plan: Plan, c: real, f: real -> real, uri: string)
    requires c > 0.0 && forall x :: f(x) == c * x
    ensures FusedScore(Mapped(hits, f), plan, uri) == FusedScore(hits, plan, uri)
  {
    SameNormalizedScaled(hits, plan, c, f);
    SurfacesMap(hits, f, uri);
    SameScore(Mapped(hits, f), hits, plan, uri);
  }

  lemma SameNormalizedScaled(hits: seq<Hit>, plan: Plan, c: real, f: real -> real)
    requires c > 0.0 && forall x :: f(x) == c * x
    ensures Normalized(WeightedAll(Mapped(hits, f), plan)) == Normalized(WeightedAll(hits, plan))
  {
    FactorRescales(c, f);
    WeightsCommute(hits, plan, c, f);
    NormalizedMap(WeightedAll(hits, plan), f);
  }

  // ---- Bounds ----

  predicate NonNegativeBonuses(plan: Plan) {
    && plan.diversityBonus >= 0.0 && plan.maxDiversityBonus >= 0.0 && plan.startingBonus >= 0.0
    && forall s :: s in plan.bonus ==> plan.bonus[s] >= 0.0
  }

  lemma {:induction false} BonusBounds(plan: Plan, listed: seq<Surface>, surfaces: set<Surface>)
    requires NonNegativeBonuses(plan)
    ensures 0.0 <= BonusOver(plan, listed, surfaces) <= BonusOver(plan, listed, set s | s in listed)
  {
    if listed != [] {
      BonusBounds(plan, listed[1..], surfaces);
      BonusAll(plan, listed[1..], set s | s in listed[1..], set s | s in listed);
    }
  }

  lemma {:induction false} BonusAll(plan: Plan, listed: seq<Surface>, a: set<Surface>, b: set<Surface>)
    requires forall s :: s in listed ==> s in a && s in b
    ensures BonusOver(plan, listed, a) == BonusOver(plan, listed, b)
  {
    if listed != [] {
      BonusAll(plan, listed[1..], a, b);
    }
  }

  /** Every fused score lies between zero and one plus the bonus caps. */
  lemma ScoreBounds(hits: seq<Hit>, plan: Plan, uri: string)
    requires NonNegativeBonuses(plan)
    ensures 0.0 <= FusedScore(hits, plan, uri)
                <= 1.0 + plan.maxDiversityBonus
                   + BonusOver(plan, SURFACES, set s | s in SURFACES) + plan.startingBonus
  {
    FusedScoreIs(hits, plan, uri);
    BestBounds(WeightedAll(hits, plan), uri);
    BonusBounds(plan, SURFACES, SurfacesOf(hits, uri));
    DiversityBounds(plan, |SurfacesOf(hits, uri)|);
  }

  lemma BestBounds(ws: seq<Hit>, uri: string)
    ensures 0.0 <= Best(Normalized(ws), uri) <= 1.0
  {
    var ns := Normalized(ws);
    if HasUri(ns, uri) {
      BestIsBest(ns, uri);
      var best := Best(ns, uri);
      var n :| n in ns && n.score == best;
      var i :| 0 <= i < |ws| && ns[i] == n;
      WithinExtremes(ws, i);
      RescaledBounds(ws[i].score, MinScore(ws), MaxScore(ws));
    } else {
      NoBest(ns, uri);
    }
  }

  lemma RescaledBounds(x: real, lo: real, hi: real)
    requires lo <= x <= hi
    ensures 0.0 <= Rescaled(x, lo, hi) <= 1.0
  {
    if hi - lo > 0.0 {
      UnitQuotient(x - lo, hi - lo);
      OverIs(x - lo, hi - lo);
    }
  }

  lemma UnitQuotient(a: real, b: real)
    requires 0.0 <= a <= b && b > 0.0
    ensures 0.0 <= a / b <= 1.0
  {
    assert a / b * b == a;
  }

  lemma DiversityBounds(plan: Plan, n: nat)
    requires NonNegativeBonuses(plan)
    ensures 0.0 <= DiversityBonus(plan, n) <= plan.maxDiversityBonus
  {
    var m := (if n > 1 then n - 1 else 0) as real;
    TimesIs(m, plan.diversityBonus);
    assert m * plan.diversityBonus >= 0.0;
  }
}
