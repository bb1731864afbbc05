/** Session URIs and why no two records of the session flow share one. */
module Namespace {
  import opened Strings

  /** A slugged path segment: no separator inside. */
  predicate IsSegment(s: string) {
    '/' !in s
  }

  /** The name of an immediate record: `uuid4().hex`. */
  predicate IsHex(h: string) {
    |h| == 32 && IsSegment(h)
  }

  /** The slugged identity a session URI is built from. */
  datatype Scope = Scope(tenant: string, user: string, project: string, session: string)
  {
    predicate Valid() {
      IsSegment(tenant) && IsSegment(user) && IsSegment(project) && IsSegment(session)
    }
  }

  function Base(s: Scope): string {
    "opencortex:/" + "/" + s.tenant + "/" + s.user + "/" + "memories" + "/" + s.project + "/" + "events"
  }

  function SessionEventsParent(s: Scope): string {
    Base(s) + "/" + s.session
  }

  function ImmediateUri(s: Scope, hex: string): string {
    SessionEventsParent(s) + "/" + "immediate" + "/" + hex
  }

  function RangeName(first: nat, last: nat): string {
    Decimal(first) + "-" + Decimal(last)
  }

  function MergedUri(s: Scope, first: nat, last: nat): string {
    SessionEventsParent(s) + "/" + "merged" + "/" + RangeName(first, last)
  }

  lemma SplitSlash(a: string, x: string, b: string, y: string)
    requires a + "/" + x == b + "/" + y && IsSegment(x) && IsSegment(y)
    ensures a == b && x == y
  {
    SplitAtLast(a, x, b, y, '/');
  }

  lemma ParentInjective(s: Scope, t: Scope)
    requires s.Valid() && t.Valid() && SessionEventsParent(s) == SessionEventsParent(t)
    ensures s == t
  {
    SplitSlash(Base(s), s.session, Base(t), t.session);
    var p, q := "opencortex:/" + "/" + s.tenant + "/" + s.user, "opencortex:/" + "/" + t.tenant + "/" + t.user;
    SplitSlash(p + "/" + "memories" + "/" + s.project, "events", q + "/" + "memories" + "/" + t.project, "events");
    SplitSlash(p + "/" + "memories", s.project, q + "/" + "memories", t.project);
    SplitSlash(p, "memories", q, "memories");
    SplitSlash("opencortex:/" + "/" + s.tenant, s.user, "opencortex:/" + "/" + t.tenant, t.user);
    SplitSlash("opencortex:/", s.tenant, "opencortex:/", t.tenant);
  }

  lemma RangeIsSegment(first: nat, last: nat)
    ensures IsSegment(RangeName(first, last))
  {
  }

  /** A merged URI determines its session and its first index. */
  lemma MergedUriInjective(s: Scope, a: nat, b: nat, t: Scope, c: nat, d: nat)
    requires s.Valid() && t.Valid() && MergedUri(s, a, b) == MergedUri(t, c, d)
    ensures s == t && a == c && b == d
  {
    RangeIsSegment(a, b);
    RangeIsSegment(c, d);
    var p, q := SessionEventsParent(s), SessionEventsParent(t);
    SplitSlash(p + "/" + "merged", RangeName(a, b), q + "/" + "merged", RangeName(c, d));
    SplitSlash(p, "merged", q, "merged");
    ParentInjective(s, t);
    SplitAtFirst(Decimal(a), Decimal(b), Decimal(c), Decimal(d), '-');
    DecimalInjective(a, c);
    DecimalInjective(b, d);
  }

  lemma ImmediateUriInjective(s: Scope, g: string, t: Scope, h: string)
    requires s.Valid() && t.Valid() && IsSegment(g) && IsSegment(h)
    requires ImmediateUri(s, g) == ImmediateUri(t, h)
    ensures s == t && g == h
  {
    var p, q := SessionEventsParent(s), SessionEventsParent(t);
    SplitSlash(p + "/" + "immediate", g, q + "/" + "immediate", h);
    SplitSlash(p, "immediate", q, "immediate");
    ParentInjective(s, t);
  }

  lemma ImmediateIsNotMerged(s: Scope, g: string, t: Scope, a: nat, b: nat)
    requires IsSegment(g)
    ensures ImmediateUri(s, g) != MergedUri(t, a, b)
  {
    if ImmediateUri(s, g) == MergedUri(t, a, b) {
      RangeIsSegment(a, b);
      var p, q := SessionEventsParent(s), SessionEventsParent(t);
      SplitSlash(p + "/" + "immediate", g, q + "/" + "merged", RangeName(a, b));
      SplitSlash(p, "immediate", q, "merged");
    }
  }

  // ---- Depth: the number of separators ----

  lemma ParentDepth(s: Scope)
    requires s.Valid()
    ensures Count(SessionEventsParent(s), '/') == 7
  {
    SchemeDepth();
    var a := "opencortex:/" + "/" + s.tenant;
    Deeper("opencortex:/", s.tenant);
    var b := a + "/" + s.user;
    Deeper(a, s.user);
    Deeper(b, "memories");
    BelowMemories(b + "/" + "memories", s.project, s.session);
  }

  lemma BelowMemories(a: string, project: string, session: string)
    requires IsSegment(project) && IsSegment(session)
    ensures Count(a + "/" + project + "/" + "events" + "/" + session, '/') == Count(a, '/') + 3
  {
    Deeper(a, project);
    Deeper(a + "/" + project, "events");
    Deeper(a + "/" + project + "/" + "events", session);
  }

  lemma SchemeDepth()
    ensures Count("opencortex:/", '/') == 1
  {
    CountZero("opencortex:", '/');
    CountConcat("opencortex:", "/", '/');
    assert "opencortex:/" == "opencortex:" + "/";
    assert Count("/", '/') == 1;
  }

  lemma Deeper(a: string, x: string)
    requires IsSegment(x)
    ensures Count(a + "/" + x, '/') == Count(a, '/') + 1
  {
    CountZero(x, '/');
    CountConcat(a + "/", x, '/');
    CountConcat(a, "/", '/');
    assert Count("/", '/') == 1;
  }

  lemma ImmediateDepth(s: Scope, hex: string)
    requires s.Valid() && IsSegment(hex)
    ensures Count(ImmediateUri(s, hex), '/') == 9
  {
    ParentDepth(s);
    Deeper(SessionEventsParent(s), "immediate");
    Deeper(SessionEventsParent(s) + "/" + "immediate", hex);
  }

  lemma MergedDepth(s: Scope, a: nat, b: nat)
    requires s.Valid()
    ensures Count(MergedUri(s, a, b), '/') == 9
  {
    ParentDepth(s);
    RangeIsSegment(a, b);
    Deeper(SessionEventsParent(s), "merged");
    Deeper(SessionEventsParent(s) + "/" + "merged", RangeName(a, b));
  }
}
