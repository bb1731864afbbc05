/** The ranker: one scored hit per URI, best first. */
module Ranker {
  import opened Strings
  import opened Text
  import opened Fusion

  // ---- Sorting ----

  /** `a` may stand before `b`. */
  predicate Before(a: Hit, b: Hit, order: Order) {
    match order
    case ByScore => a.score >= b.score
    case Earliest => a.time < b.time || (a.time == b.time && a.score <= b.score)
    case Latest => a.time > b.time || (a.time == b.time && a.score >= b.score)
  }

  predicate Sorted(hits: seq<Hit>, order: Order) {
    forall i, j :: 0 <= i < j < |hits| ==> Before(hits[i], hits[j], order)
  }

  predicate DistinctUris(hits: seq<Hit>) {
    forall i, j :: 0 <= i < j < |hits| ==> Uri(hits[i]) != Uri(hits[j])
  }

  function Inserted(h: Hit, hits: seq<Hit>, order: Order): (r: seq<Hit>)
    ensures multiset(r) == multiset(hits) + multiset{h}
  {
    if hits == [] then [h]
    else if Before(hits[0], h, order) then
      assert hits == [hits[0]] + hits[1..];
      [hits[0]] + Inserted(h, hits[1..], order)
    else [h] + hits
  }

  /** A stable sort, as the language's own. */
  function SortedBy(hits: seq<Hit>, order: Order): (r: seq<Hit>)
    ensures multiset(r) == multiset(hits)
    ensures |r| == |hits|
  {
    if hits == [] then []
    else
      var n := |hits| - 1;
      assert hits == hits[..n] + [hits[n]];
      var r := Inserted(hits[n], SortedBy(hits[..n], order), order);
      assert |multiset(r)| == |r| && |multiset(hits)| == |hits|;
      r
  }

  lemma SameMembers(a: seq<Hit>, b: seq<Hit>)
    requires multiset(a) == multiset(b)
    ensures forall h :: h in a <==> h in b
  {
    assert forall h :: h in a <==> h in multiset(a);
    assert forall h :: h in b <==> h in multiset(b);
  }

  lemma InsertedMembers(h: Hit, hits: seq<Hit>, order: Order)
    ensures forall x :: x in Inserted(h, hits, order) <==> x in hits || x == h
  {
    var r := Inserted(h, hits, order);
    assert forall x :: x in r <==> x in multiset(r);
    assert forall x :: x in hits <==> x in multiset(hits);
  }

  lemma SortedCons(h: Hit, rest: seq<Hit>, order: Order)
    requires Sorted(rest, order) && forall x :: x in rest ==> Before(h, x, order)
    ensures Sorted([h] + rest, order)
  {
  }

  lemma {:induction false} InsertedSorted(h: Hit, hits: seq<Hit>, order: Order)
    requires Sorted(hits, order)
    ensures Sorted(Inserted(h, hits, order), order)
  {
    if hits != [] && Before(hits[0], h, order) {
      InsertedSorted(h, hits[1..], order);
      InsertedMembers(h, hits[1..], order);
      SortedCons(hits[0], Inserted(h, hits[1..], order), order);
    }
  }

  lemma {:induction false} SortedIsSorted(hits: seq<Hit>, order: Order)
    ensures Sorted(SortedBy(hits, order), order)
  {
    if hits != [] {
      var n := |hits| - 1;
      SortedIsSorted(hits[..n], order);
      InsertedSorted(hits[n], SortedBy(hits[..n], order), order);
    }
  }

  // ---- Stability ----

  /** `at` says where each sorted hit stood before; hits that may stand either way keep their order. */
  ghost predicate StablySorted(hits: seq<Hit>, out: seq<Hit>, order: Order, at: seq<nat>) {
    && |at| == |out| == |hits|
    && (forall j :: 0 <= j < |out| ==> at[j] < |hits| && out[j] == hits[at[j]])
    && (forall j, l :: 0 <= j < l < |at| ==> at[j] != at[l])
    && (forall j, l :: 0 <= j < l < |out| ==> Before(out[l], out[j], order) ==> at[j] < at[l])
    && Sorted(out, order)
  }

  lemma SplicedCons<T>(x: T, rest: seq<T>, q: nat, h: T)
    requires q <= |rest|
    ensures Spliced([x] + rest, q + 1, h) == [x] + Spliced(rest, q, h)
    ensures Spliced(rest, 0, h) == [h] + rest
  {
  }

  lemma {:induction false} InsertedAt(h: Hit, hits: seq<Hit>, order: Order) returns (p: nat)
    ensures p <= |hits| && Inserted(h, hits, order) == Spliced(hits, p, h)
    ensures p < |hits| ==> !Before(hits[p], h, order)
  {
    if hits == [] || !Before(hits[0], h, order) {
      p := 0;
      SplicedCons(h, hits, 0, h);
    } else {
      p := InsertedAt(h, hits[1..], order);
      InsertedBehind(h, hits, order, p);
      p := p + 1;
    }
  }

  lemma InsertedBehind(h: Hit, hits: seq<Hit>, order: Order, p: nat)
    requires hits != [] && Before(hits[0], h, order) && p < |hits|
    requires Inserted(h, hits[1..], order) == Spliced(hits[1..], p, h)
    ensures Inserted(h, hits, order) == Spliced(hits, p + 1, h)
  {
    SplicedCons(hits[0], hits[1..], p, h);
    assert [hits[0]] + hits[1..] == hits;
  }

  lemma BeforeChains(a: Hit, b: Hit, c: Hit, order: Order)
    requires Before(a, b, order) && Before(b, c, order)
    ensures Before(a, c, order)
  {
  }

  lemma NoneTiesBehind(h: Hit, hits: seq<Hit>, order: Order, p: nat)
    requires Sorted(hits, order) && p <= |hits| && (p < |hits| ==> !Before(hits[p], h, order))
    ensures forall l :: p <= l < |hits| ==> !Before(hits[l], h, order)
  {
    forall l | p <= l < |hits| ensures !Before(hits[l], h, order) {
      if p < l && Before(hits[l], h, order) {
        BeforeChains(hits[p], hits[l], h, order);
      }
    }
  }

  function Spliced<T>(s: seq<T>, p: nat, x: T): (r: seq<T>)
    requires p <= |s|
    ensures |r| == |s| + 1
    ensures forall j :: 0 <= j < |r| ==> r[j] == if j < p then s[j] else if j == p then x else s[j - 1]
  {
    s[..p] + [x] + s[p..]
  }

  lemma SplicedStandsAt(hits: seq<Hit>, r0: seq<Hit>, at0: seq<nat>, p: nat, order: Order)
    requires hits != [] && StablySorted(hits[..|hits| - 1], r0, order, at0) && p <= |r0|
    ensures var out, at := Spliced(r0, p, hits[|hits| - 1]), Spliced(at0, p, |hits| - 1);
            && (forall j :: 0 <= j < |out| ==> at[j] < |hits| && out[j] == hits[at[j]])
            && (forall j, l :: 0 <= j < l < |at| ==> at[j] != at[l])
  {
  }

  lemma SplicedTies(hits: seq<Hit>, r0: seq<Hit>, at0: seq<nat>, p: nat, order: Order, j: nat, l: nat)
    requires hits != [] && StablySorted(hits[..|hits| - 1], r0, order, at0) && p <= |r0|
    requires forall q :: p <= q < |r0| ==> !Before(r0[q], hits[|hits| - 1], order)
    requires j < l <= |r0|
    ensures var out, at := Spliced(r0, p, hits[|hits| - 1]), Spliced(at0, p, |hits| - 1);
            Before(out[l], out[j], order) ==> at[j] < at[l]
  {
  }

  lemma SplicedIsStable(hits: seq<Hit>, r0: seq<Hit>, at0: seq<nat>, p: nat, order: Order)
    requires hits != [] && StablySorted(hits[..|hits| - 1], r0, order, at0) && p <= |r0|
    requires forall l :: p <= l < |r0| ==> !Before(r0[l], hits[|hits| - 1], order)
    requires Sorted(Spliced(r0, p, hits[|hits| - 1]), order)
    ensures StablySorted(hits, Spliced(r0, p, hits[|hits| - 1]), order, Spliced(at0, p, |hits| - 1))
  {
    var n := |hits| - 1;
    var out, at := Spliced(r0, p, hits[n]), Spliced(at0, p, n);
    SplicedStandsAt(hits, r0, at0, p, order);
    forall j, l | 0 <= j < l < |out| && Before(out[l], out[j], order) ensures at[j] < at[l] {
      SplicedTies(hits, r0, at0, p, order, j, l);
    }
  }

  /** The sort is stable. */
  lemma {:induction false} SortIsStable(hits: seq<Hit>, order: Order) returns (at: seq<nat>)
    ensures StablySorted(hits, SortedBy(hits, order), order, at)
  {
    if hits == [] {
      at := [];
    } else {
      at := SortIsStable(hits[..|hits| - 1], order);
      SortedIsSorted(hits, order);
      at := InsertedIsStable(hits, SortedBy(hits[..|hits| - 1], order), at, order);
    }
  }

  lemma InsertedIsStable(hits: seq<Hit>, r0: seq<Hit>, at0: seq<nat>, order: Order) returns (at: seq<nat>)
    requires hits != [] && StablySorted(hits[..|hits| - 1], r0, order, at0)
    requires Sorted(Inserted(hits[|hits| - 1], r0, order), order)
    ensures StablySorted(hits, Inserted(hits[|hits| - 1], r0, order), order, at)
  {
    var p := InsertedAt(hits[|hits| - 1], r0, order);
    NoneTiesBehind(hits[|hits| - 1], r0, order, p);
    at := Spliced(at0, p, |hits| - 1);
    SplicedIsStable(hits, r0, at0, p, order);
  }

  lemma DistinctCons(h: Hit, rest: seq<Hit>)
    requires DistinctUris(rest) && forall x :: x in rest ==> Uri(x) != Uri(h)
    ensures DistinctUris([h] + rest)
  {
  }

  lemma {:induction false} InsertedDistinct(h: Hit, hits: seq<Hit>, order: Order)
    requires DistinctUris(hits) && forall x :: x in hits ==> Uri(x) != Uri(h)
    ensures DistinctUris(Inserted(h, hits, order))
  {
    if hits != [] && Before(hits[0], h, order) {
      InsertedDistinct(h, hits[1..], order);
      InsertedMembers(h, hits[1..], order);
      DistinctCons(hits[0], Inserted(h, hits[1..], order));
    }
  }

  lemma {:induction false} SortedDistinct(hits: seq<Hit>, order: Order)
    requires DistinctUris(hits)
    ensures DistinctUris(SortedBy(hits, order))
  {
    if hits != [] {
      var n := |hits| - 1;
      SortedDistinct(hits[..n], order);
      SameMembers(SortedBy(hits[..n], order), hits[..n]);
      InsertedDistinct(hits[n], SortedBy(hits[..n], order), order);
    }
  }

  // ---- Collapsing surface hits ----

  /** What is known after some of the normalised hits: per URI its best hit and its surfaces,
      URIs in order of appearance. */
  ghost predicate Collapsed(ns: seq<Hit>, order: seq<string>, best: map<string, Hit>,
                            surfaces: map<string, set<Surface>>) {
    Listed(ns, order) && BestKept(ns, best) && SurfacesKept(ns, surfaces)
  }

  ghost predicate Listed(ns: seq<Hit>, order: seq<string>) {
    && (forall u :: u in order <==> u in Uris(ns))
    && (forall i, j :: 0 <= i < j < |order| ==> order[i] != order[j])
  }

  ghost predicate BestKept(ns: seq<Hit>, best: map<string, Hit>) {
    && best.Keys == Uris(ns)
    && forall u :: u in best ==> best[u] in ns && Uri(best[u]) == u && IsBest(ns, u, best[u].score)
  }

  ghost predicate SurfacesKept(ns: seq<Hit>, surfaces: map<string, set<Surface>>) {
    && surfaces.Keys == Uris(ns)
    && forall u :: u in surfaces ==> surfaces[u] == SurfacesOf(ns, u)
  }

  lemma UrisSnoc(ns: seq<Hit>, h: Hit)
    ensures Uris(ns + [h]) == Uris(ns) + if Uri(h) != "" then {Uri(h)} else {}
    ensures forall u :: SurfacesOf(ns + [h], u) == SurfacesOf(ns, u) + if Uri(h) == u then {h.surface} else {}
  {
    assert forall x :: x in ns + [h] <==> x in ns || x == h;
    forall u ensures SurfacesOf(ns + [h], u)
                     == SurfacesOf(ns, u) + if Uri(h) == u then {h.surface} else {} {
      forall s ensures s in SurfacesOf(ns + [h], u) <==>
                       s in SurfacesOf(ns, u) || (Uri(h) == u && s == h.surface) {
      }
    }
  }

  lemma BestSnoc(ns: seq<Hit>, h: Hit, u: string, best: real)
    requires IsBest(ns, u, best)
    ensures IsBest(ns + [h], u, if Uri(h) == u && h.score > best then h.score else best)
  {
    assert forall x :: x in ns + [h] <==> x in ns || x == h;
  }

  lemma BestFirst(ns: seq<Hit>, h: Hit)
    requires Uri(h) != "" && Uri(h) !in Uris(ns)
    ensures IsBest(ns + [h], Uri(h), h.score)
  {
    assert forall x :: x in ns + [h] <==> x in ns || x == h;
  }

  function UpdatedBest(best: map<string, Hit>, h: Hit): map<string, Hit> {
    if Uri(h) !in best || h.score > best[Uri(h)].score then best[Uri(h) := h] else best
  }

  lemma BestUpdated(ns: seq<Hit>, h: Hit, best: map<string, Hit>)
    requires BestKept(ns, best) && Uri(h) != ""
    ensures BestKept(ns + [h], UpdatedBest(best, h))
  {
    UrisSnoc(ns, h);
    var best' := UpdatedBest(best, h);
    forall u | u in best'
      ensures best'[u] in ns + [h] && Uri(best'[u]) == u && IsBest(ns + [h], u, best'[u].score) {
      if u in best {
        BestSnoc(ns, h, u, best[u].score);
      } else {
        BestFirst(ns, h);
      }
    }
  }

  function UpdatedSurfaces(surfaces: map<string, set<Surface>>, h: Hit): map<string, set<Surface>> {
    surfaces[Uri(h) := (if Uri(h) in surfaces then surfaces[Uri(h)] else {}) + {h.surface}]
  }

  lemma SurfacesUpdated(ns: seq<Hit>, h: Hit, surfaces: map<string, set<Surface>>)
    requires SurfacesKept(ns, surfaces) && Uri(h) != ""
    ensures SurfacesKept(ns + [h], UpdatedSurfaces(surfaces, h))
  {
    UrisSnoc(ns, h);
    assert Uri(h) !in surfaces ==> SurfacesOf(ns, Uri(h)) == {};
  }

  lemma ListUpdated(ns: seq<Hit>, h: Hit, order: seq<string>)
    requires Listed(ns, order) && Uri(h) != ""
    ensures Listed(ns + [h], if Uri(h) in order then order else order + [Uri(h)])
  {
    UrisSnoc(ns, h);
  }

  /** A hit without any URI is skipped. */
  lemma NamelessSkipped(ns: seq<Hit>, h: Hit, order: seq<string>, best: map<string, Hit>,
                        surfaces: map<string, set<Surface>>)
    requires Collapsed(ns, order, best, surfaces) && Uri(h) == ""
    ensures Collapsed(ns + [h], order, best, surfaces)
  {
    UrisSnoc(ns, h);
    assert Listed(ns + [h], order) && SurfacesKept(ns + [h], surfaces);
    NamelessKeepsBest(ns, h, best);
  }

  lemma NamelessKeepsBest(ns: seq<Hit>, h: Hit, best: map<string, Hit>)
    requires BestKept(ns, best) && Uri(h) == ""
    ensures BestKept(ns + [h], best)
  {
    UrisSnoc(ns, h);
    forall u | u in best ensures best[u] in ns + [h] && IsBest(ns + [h], u, best[u].score) {
      BestSnoc(ns, h, u, best[u].score);
    }
  }

  method Collapse(ns: seq<Hit>)
    returns (order: seq<string>, best: map<string, Hit>, surfaces: map<string, set<Surface>>)
    ensures Collapsed(ns, order, best, surfaces)
  {
    order, best, surfaces := [], map[], map[];
    for i := 0 to |ns|
      invariant Collapsed(ns[..i], order, best, surfaces)
    {
      if Uri(ns[i]) == "" {
        NamelessSkipped(ns[..i], ns[i], order, best, surfaces);
      } else {
        ListUpdated(ns[..i], ns[i], order);
        BestUpdated(ns[..i], ns[i], best);
        SurfacesUpdated(ns[..i], ns[i], surfaces);
        if Uri(ns[i]) !in order {
          order := order + [Uri(ns[i])];
        }
        best := UpdatedBest(best, ns[i]);
        surfaces := UpdatedSurfaces(surfaces, ns[i]);
      }
      assert ns[..i + 1] == ns[..i] + [ns[i]];
    }
    assert ns[..|ns|] == ns;
  }

  // ---- The whole ranking ----

  function Smaller(a: nat, b: nat): nat {
    if a < b then a else b
  }

  /** At most the limit, one hit per URI, every URI fused score exact and taken from a raw hit;
      the order is the plan's; and nothing left out beats anything kept. */
  ghost predicate RankedBy(hits: seq<Hit>, plan: Plan, limit: nat, out: seq<Hit>) {
    && |out| == Smaller(limit, |Uris(hits)|)
    && DistinctUris(out)
    && Sorted(out, plan.order)
    && (forall h :: h in out ==> FusedHit(hits, plan, h))
    && (plan.order == ByScore ==> NothingBetterLeft(hits, plan, out))
  }

  ghost predicate NothingBetterLeft(hits: seq<Hit>, plan: Plan, out: seq<Hit>) {
    forall u, h :: u in Uris(hits) && u !in KeptUris(out) && h in out
      ==> FusedScore(hits, plan, u) <= h.score
  }

  function KeptUris(out: seq<Hit>): set<string> {
    set h | h in out :: h.sourceUri
  }

  /** The URI was hit, its score is the specified one, and the rest is a raw hit's. */
  ghost predicate FusedHit(hits: seq<Hit>, plan: Plan, h: Hit) {
    && h.sourceUri != "" && h.sourceUri in Uris(hits)
    && h.score == FusedScore(hits, plan, h.sourceUri)
    && FromRaw(hits, h)
  }

  ghost predicate FromRaw(hits: seq<Hit>, h: Hit) {
    exists raw :: raw in hits && Uri(raw) == h.sourceUri && raw.record == h.record
                  && raw.surface == h.surface && raw.time == h.time
  }

  /** All fused hits, before sorting. */
  ghost predicate Fused(hits: seq<Hit>, plan: Plan, fused: seq<Hit>) {
    && DistinctUris(fused)
    && (forall h :: h in fused ==> FusedHit(hits, plan, h))
    && (forall u :: u in Uris(hits) ==> exists h :: h in fused && h.sourceUri == u)
  }

  function UriSet(fused: seq<Hit>): set<string> {
    set h | h in fused :: Uri(h)
  }

  lemma {:induction false} DistinctCount(fused: seq<Hit>)
    requires DistinctUris(fused)
    ensures |UriSet(fused)| == |fused|
  {
    if fused == [] {
      assert UriSet(fused) == {};
    } else {
      var n := |fused| - 1;
      DistinctCount(fused[..n]);
      assert fused == fused[..n] + [fused[n]];
      assert UriSet(fused) == UriSet(fused[..n]) + {Uri(fused[n])};
      assert Uri(fused[n]) !in UriSet(fused[..n]);
    }
  }

  lemma FusedCount(hits: seq<Hit>, plan: Plan, fused: seq<Hit>)
    requires Fused(hits, plan, fused)
    ensures |fused| == |Uris(hits)|
  {
    DistinctCount(fused);
    assert UriSet(fused) == Uris(hits) by {
      forall u ensures u in UriSet(fused) <==> u in Uris(hits) {
        if u in Uris(hits) {
          var h :| h in fused && h.sourceUri == u;
          assert Uri(h) == u && u != "";
        }
      }
    }
  }

  lemma FusedSorted(hits: seq<Hit>, plan: Plan, fused: seq<Hit>, order: Order)
    requires Fused(hits, plan, fused)
    ensures Fused(hits, plan, SortedBy(fused, order))
  {
    SortedDistinct(fused, order);
    SameMembers(SortedBy(fused, order), fused);
    forall u | u in Uris(hits) ensures exists h :: h in SortedBy(fused, order) && h.sourceUri == u {
      var h :| h in fused && h.sourceUri == u;
      assert h in SortedBy(fused, order);
    }
  }

  lemma CutIsRanked(hits: seq<Hit>, plan: Plan, fused: seq<Hit>, limit: nat)
    requires Fused(hits, plan, fused) && Sorted(fused, plan.order)
    ensures RankedBy(hits, plan, limit, fused[..Smaller(limit, |fused|)])
  {
    FusedCount(hits, plan, fused);
    var k := Smaller(limit, |fused|);
    CutKeeps(fused, k, plan.order);
    if plan.order == ByScore {
      forall u, h | u in Uris(hits) && u !in KeptUris(fused[..k]) && h in fused[..k]
        ensures FusedScore(hits, plan, u) <= h.score {
        LeftOutIsWorse(hits, plan, fused, k, u, h);
      }
    }
  }

  lemma CutKeeps(fused: seq<Hit>, k: nat, order: Order)
    requires k <= |fused|
    ensures DistinctUris(fused) ==> DistinctUris(fused[..k])
    ensures Sorted(fused, order) ==> Sorted(fused[..k], order)
    ensures forall h :: h in fused[..k] ==> h in fused
  {
  }

  lemma LeftOutIsWorse(hits: seq<Hit>, plan: Plan, fused: seq<Hit>, k: nat, u: string, h: Hit)
    requires Fused(hits, plan, fused) && Sorted(fused, ByScore) && k <= |fused|
    requires u in Uris(hits) && u !in KeptUris(fused[..k]) && h in fused[..k]
    ensures FusedScore(hits, plan, u) <= h.score
  {
    var g :| g in fused && g.sourceUri == u;
    CutOrder(fused, k, g, h);
  }

  lemma CutOrder(fused: seq<Hit>, k: nat, g: Hit, h: Hit)
    requires Sorted(fused, ByScore) && k <= |fused| && h in fused[..k]
    requires g in fused && g.sourceUri !in KeptUris(fused[..k])
    ensures g.score <= h.score
  {
    var j :| 0 <= j < |fused| && fused[j] == g;
    var i :| 0 <= i < k && fused[i] == h;
    assert forall x :: 0 <= x < k ==> fused[..k][x] in fused[..k];
    assert j >= k;
  }

  lemma NormalizedUris(hits: seq<Hit>, plan: Plan)
    ensures var ns := Normalized(WeightedAll(hits, plan));
            Uris(ns) == Uris(hits) && forall u :: SurfacesOf(ns, u) == SurfacesOf(hits, u)
  {
    var ns := Normalized(WeightedAll(hits, plan));
    assert |ns| == |hits|;
    assert forall i :: 0 <= i < |ns| ==> Uri(ns[i]) == Uri(hits[i]) && ns[i].surface == hits[i].surface;
    SameUris(ns, hits);
    SameUris(hits, ns);
    forall u ensures SurfacesOf(ns, u) == SurfacesOf(hits, u) {
      SameSurfacesAt(ns, hits, u);
      SameSurfacesAt(hits, ns, u);
    }
  }

  lemma SameUris(a: seq<Hit>, b: seq<Hit>)
    requires |a| == |b| && forall i :: 0 <= i < |a| ==> Uri(a[i]) == Uri(b[i])
    ensures Uris(a) <= Uris(b)
  {
    forall u | u in Uris(a) ensures u in Uris(b) {
      var i :| 0 <= i < |a| && Uri(a[i]) == u;
      assert b[i] in b;
    }
  }

  lemma SameSurfacesAt(a: seq<Hit>, b: seq<Hit>, u: string)
    requires |a| == |b|
    requires forall i :: 0 <= i < |a| ==> Uri(a[i]) == Uri(b[i]) && a[i].surface == b[i].surface
    ensures SurfacesOf(a, u) <= SurfacesOf(b, u)
  {
    forall s | s in SurfacesOf(a, u) ensures s in SurfacesOf(b, u) {
      var i :| 0 <= i < |a| && Uri(a[i]) == u && a[i].surface == s;
      assert b[i] in b;
    }
  }

  lemma NormalizedComesFrom(hits: seq<Hit>, plan: Plan, n: Hit)
    requires n in Normalized(WeightedAll(hits, plan))
    ensures exists raw :: raw in hits && Uri(raw) == Uri(n) && raw.record == n.record
                          && raw.surface == n.surface && raw.time == n.time
  {
    var ns := Normalized(WeightedAll(hits, plan));
    var i :| 0 <= i < |ns| && ns[i] == n;
    assert hits[i] in hits;
  }

  ghost predicate FusedSoFar(hits: seq<Hit>, plan: Plan, order: seq<string>, fused: seq<Hit>) {
    && |fused| <= |order|
    && (forall j :: 0 <= j < |fused| ==> fused[j].sourceUri == order[j] && FusedHit(hits, plan, fused[j]))
  }

  lemma FusedMore(hits: seq<Hit>, plan: Plan, order: seq<string>, fused: seq<Hit>, hit: Hit)
    requires FusedSoFar(hits, plan, order, fused) && |fused| < |order|
    requires hit.sourceUri == order[|fused|] && FusedHit(hits, plan, hit)
    ensures FusedSoFar(hits, plan, order, fused + [hit])
  {
  }

  lemma AllFused(hits: seq<Hit>, plan: Plan, ns: seq<Hit>, order: seq<string>, fused: seq<Hit>)
    requires Listed(ns, order) && Uris(ns) == Uris(hits)
    requires FusedSoFar(hits, plan, order, fused) && |fused| == |order|
    ensures Fused(hits, plan, fused)
  {
    forall u | u in Uris(hits) ensures exists h :: h in fused && h.sourceUri == u {
      assert u in order;
      var j :| 0 <= j < |order| && order[j] == u;
      assert fused[j] in fused;
    }
  }

  lemma {:induction false} BonusWithout(plan: Plan, listed: seq<Surface>, surfaces: set<Surface>, s: Surface)
    requires s in surfaces && forall i, j :: 0 <= i < j < |listed| ==> listed[i] != listed[j]
    ensures BonusOver(plan, listed, surfaces)
            == BonusOver(plan, listed, surfaces - {s}) + if s in listed then BonusOf(plan, s) else 0.0
  {
    if listed != [] {
      BonusWithout(plan, listed[1..], surfaces, s);
      assert s in listed <==> s == listed[0] || s in listed[1..];
      assert forall x :: x in listed[1..] ==> x != listed[0];
    }
  }

  lemma {:induction false} NoBonus(plan: Plan, listed: seq<Surface>)
    ensures BonusOver(plan, listed, {}) == 0.0
  {
    if listed != [] {
      NoBonus(plan, listed[1..]);
    }
  }

  lemma Listed5(s: Surface)
    ensures s in SURFACES
  {
    assert SURFACES[0] == L0Object && SURFACES[1] == AnchorIndex && SURFACES[2] == FactIndex;
    assert SURFACES[3] == EntityIndex && SURFACES[4] == ReasonTreeIndex;
  }

  /** The bonuses of a set of surfaces, added up in whatever order the set is walked. */
  method SumBonuses(plan: Plan, surfaces: set<Surface>) returns (sum: real)
    ensures sum == BonusOver(plan, SURFACES, surfaces)
  {
    sum := 0.0;
    var rest := surfaces;
    while rest != {}
      invariant sum + BonusOver(plan, SURFACES, rest) == BonusOver(plan, SURFACES, surfaces)
    {
      var s :| s in rest;
      BonusWithout(plan, SURFACES, rest, s);
      Listed5(s);
      sum := sum + BonusOf(plan, s);
      rest := rest - {s};
    }
    NoBonus(plan, SURFACES);
  }

  // ---- The ranker ----

  method AddBonuses(plan: Plan, uri: string, best: real, surfaces: set<Surface>) returns (score: real)
    ensures score == best + Bonuses(plan, uri, surfaces)
  {
    var extra := (if |surfaces| > 1 then |surfaces| - 1 else 0) as real * plan.diversityBonus;
    TimesIs((if |surfaces| > 1 then |surfaces| - 1 else 0) as real, plan.diversityBonus);
    score := best + if plan.maxDiversityBonus < extra then plan.maxDiversityBonus else extra;
    var bonus := SumBonuses(plan, surfaces);
    score := score + bonus;
    if IsNear(uri, plan.startingUris) {
      score := score + plan.startingBonus;
    }
  }

  lemma ScoredRight(hits: seq<Hit>, plan: Plan, uri: string, best: real, score: real)
    requires IsBest(Normalized(WeightedAll(hits, plan)), uri, best)
    requires score == best + Bonuses(plan, uri, SurfacesOf(hits, uri))
    ensures score == FusedScore(hits, plan, uri)
  {
    BestUnique(Normalized(WeightedAll(hits, plan)), uri, best);
    FusedScoreIs(hits, plan, uri);
  }

  method FuseOne(hits: seq<Hit>, plan: Plan, uri: string, hit: Hit, surfaces: set<Surface>)
    returns (fused: Hit)
    requires uri != "" && uri in Uris(hits) && Uri(hit) == uri
    requires hit in Normalized(WeightedAll(hits, plan))
    requires IsBest(Normalized(WeightedAll(hits, plan)), uri, hit.score)
    requires surfaces == SurfacesOf(hits, uri)
    ensures fused.sourceUri == uri && FusedHit(hits, plan, fused)
  {
    var score := AddBonuses(plan, uri, hit.score, surfaces);
    ScoredRight(hits, plan, uri, hit.score, score);
    NormalizedComesFrom(hits, plan, hit);
    fused := hit.(sourceUri := uri, score := score);
  }

  /** Apply the plan's surface weights. */
  method WeightHits(hits: seq<Hit>, plan: Plan) returns (weighted: seq<Hit>)
    ensures weighted == WeightedAll(hits, plan)
  {
    weighted := [];
    for i := 0 to |hits|
      invariant |weighted| == i
      invariant forall j :: 0 <= j < i ==> weighted[j] == Weighted(hits[j], plan)
    {
      var w := WeightOf(plan, hits[i].surface);
      TimesIs(hits[i].score, w);
      weighted := weighted + [hits[i].(score := hits[i].score * w)];
    }
  }

  /** Rescale the scores to the current candidate pool; a flat pool scores one throughout. */
  method NormalizeWeightedHits(hits: seq<Hit>) returns (normalized: seq<Hit>)
    ensures normalized == Normalized(hits)
  {
    normalized := [];
    if hits == [] {
      return;
    }
    var minimum, maximum := MinScore(hits), MaxScore(hits);
    normalized := RescaleAll(hits, minimum, maximum);
  }

  method RescaleAll(hits: seq<Hit>, minimum: real, maximum: real) returns (normalized: seq<Hit>)
    ensures |normalized| == |hits|
    ensures forall j :: 0 <= j < |hits| ==>
              normalized[j] == hits[j].(score := Rescaled(hits[j].score, minimum, maximum))
  {
    normalized := [];
    var spread := maximum - minimum;
    for i := 0 to |hits|
      invariant |normalized| == i
      invariant forall j :: 0 <= j < i ==>
                  normalized[j] == hits[j].(score := Rescaled(hits[j].score, minimum, maximum))
    {
      var score := Rescale(hits[i].score, minimum, spread, maximum);
      normalized := normalized + [hits[i].(score := score)];
    }
  }

  method Rescale(x: real, minimum: real, spread: real, ghost maximum: real) returns (score: real)
    requires spread == maximum - minimum
    ensures score == Rescaled(x, minimum, maximum)
  {
    score := 1.0;
    if spread > 0.0 {
      OverIs(x - minimum, spread);
      score := (x - minimum) / spread;
    }
  }

  method FuseAll(hits: seq<Hit>, plan: Plan) returns (fused: seq<Hit>)
    ensures Fused(hits, plan, fused)
  {
    var weighted := WeightHits(hits, plan);
    var ns := NormalizeWeightedHits(weighted);
    var order, best, surfaces := Collapse(ns);
    NormalizedUris(hits, plan);
    fused := [];
    for i := 0 to |order|
      invariant |fused| == i && FusedSoFar(hits, plan, order, fused)
    {
      var uri := order[i];
      assert uri in order;
      var hit := FuseOne(hits, plan, uri, best[uri], surfaces[uri]);
      FusedMore(hits, plan, order, fused, hit);
      fused := fused + [hit];
    }
    AllFused(hits, plan, ns, order, fused);
  }

  lemma UrisAreNames(hits: seq<Hit>)
    ensures Uris(hits) == set h | h in hits && (h.sourceUri != "" || h.recordUri != "")
                              :: if h.sourceUri != "" then h.sourceUri else h.recordUri
  {
    var names := set h | h in hits && (h.sourceUri != "" || h.recordUri != "")
                     :: if h.sourceUri != "" then h.sourceUri else h.recordUri;
    forall u ensures u in Uris(hits) <==> u in names {
      if u in Uris(hits) {
        var h :| h in hits && Uri(h) != "" && Uri(h) == u;
        assert h.sourceUri != "" || h.recordUri != "";
      }
      if u in names {
        var h :| h in hits && (h.sourceUri != "" || h.recordUri != "")
                 && u == if h.sourceUri != "" then h.sourceUri else h.recordUri;
        assert Uri(h) == u;
      }
    }
  }

  /** Fuse hits from all surfaces to one scored hit per URI, best first. */
  method Rank(hits: seq<Hit>, plan: Plan, limit: nat) returns (out: seq<Hit>)
    ensures RankedBy(hits, plan, if limit == 0 then plan.limit else limit, out)
    ensures var names := set h | h in hits && (h.sourceUri != "" || h.recordUri != "")
                              :: if h.sourceUri != "" then h.sourceUri else h.recordUri;
            && (forall h :: h in out ==> h.sourceUri in names)
            && |out| == Smaller(if limit == 0 then plan.limit else limit, |names|)
    ensures forall i, j :: 0 <= i < j < |out| ==>
              && (plan.order == ByScore ==> out[i].score >= out[j].score)
              && (plan.order == Earliest ==> out[i].time < out[j].time
                                             || (out[i].time == out[j].time && out[i].score <= out[j].score))
              && (plan.order == Latest ==> out[i].time > out[j].time
                                           || (out[i].time == out[j].time && out[i].score >= out[j].score))
  {
    var fused := FuseAll(hits, plan);
    FusedSorted(hits, plan, fused, ByScore);
    SortedIsSorted(fused, ByScore);
    fused := SortedBy(fused, ByScore);
    if plan.order != ByScore {
      FusedSorted(hits, plan, fused, plan.order);
      SortedIsSorted(fused, plan.order);
      fused := SortedBy(fused, plan.order);
    }
    UrisAreNames(hits);
    var k := if limit == 0 then plan.limit else limit;
    CutIsRanked(hits, plan, fused, k);
    out := fused[..Smaller(k, |fused|)];
  }
}
