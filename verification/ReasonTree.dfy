/** Flattening a reason tree into index records, and cutting the list. */
module ReasonTree {
  import opened Strings

  datatype Node = Node(title: string, summary: string, children: seq<Node>)

  datatype NodeRecord = NodeRecord(uri: string, parentUri: string, level: nat, path: seq<nat>, node: Node)

  const MAX_NODES := 32

  // ---- Node URIs ----

  function PathText(path: seq<nat>): string {
    if path == [] then ""
    else if |path| == 1 then Decimal(path[0])
    else Decimal(path[0]) + "-" + PathText(path[1..])
  }

  /** A digest is hexadecimal, so it has no dash. */
  ghost predicate IsDigest(digest: string -> string) {
    forall s :: '-' !in digest(s)
  }

  function NodeKey(path: seq<nat>, node: Node, digest: string -> string): string {
    PathText(path) + "-" + digest(if node.title != "" then node.title else node.summary)
  }

  function NodeUri(root: string, path: seq<nat>, node: Node, digest: string -> string): string {
    TrimSlashes(root) + "/reason_tree/" + NodeKey(path, node, digest)
  }

  lemma DecimalHasNoDash(n: nat)
    ensures '-' !in Decimal(n) && Decimal(n) != ""
  {
    assert forall c :: c in Decimal(n) ==> IsDigit(c);
  }

  lemma DashIff(p: seq<nat>)
    requires p != []
    ensures '-' in PathText(p) <==> |p| > 1
  {
    DecimalHasNoDash(p[0]);
    if |p| > 1 {
      assert PathText(p)[|Decimal(p[0])|] == '-';
    }
  }

  lemma {:induction false} PathTextInjective(a: seq<nat>, b: seq<nat>)
    requires a != [] && b != [] && PathText(a) == PathText(b)
    ensures a == b
  {
    DecimalHasNoDash(a[0]);
    DecimalHasNoDash(b[0]);
    DashIff(a);
    DashIff(b);
    if |a| == 1 {
      DecimalInjective(a[0], b[0]);
    } else {
      SplitAtFirst(Decimal(a[0]), PathText(a[1..]), Decimal(b[0]), PathText(b[1..]), '-');
      DecimalInjective(a[0], b[0]);
      PathTextInjective(a[1..], b[1..]);
      assert a == [a[0]] + a[1..] && b == [b[0]] + b[1..];
    }
  }

  /** Different paths give different URIs, whatever the titles. */
  lemma NodeUriInjective(root: string, a: seq<nat>, m: Node, b: seq<nat>, n: Node, digest: string -> string)
    requires IsDigest(digest) && a != [] && b != []
    requires NodeUri(root, a, m, digest) == NodeUri(root, b, n, digest)
    ensures a == b
  {
    var front := TrimSlashes(root) + "/reason_tree/";
    var x, y := NodeKey(a, m, digest), NodeKey(b, n, digest);
    assert (front + x)[|front|..] == x && (front + y)[|front|..] == y;
    SplitAtLast(PathText(a), digest(if m.title != "" then m.title else m.summary),
                PathText(b), digest(if n.title != "" then n.title else n.summary), '-');
    PathTextInjective(a, b);
  }

  // ---- Flattening ----

  /** The records of the children of `node` from position `i` on; the output's node list is
      the children of a node of its own. */
  function PreOrder(node: Node, i: nat, root: string, parent: string, path: seq<nat>,
                    digest: string -> string): seq<NodeRecord>
    decreases node, |node.children| - i
  {
    if i >= |node.children| then []
    else
      var child, p := node.children[i], path + [i + 1];
      var uri := NodeUri(root, p, child, digest);
      [NodeRecord(uri, parent, |p|, p, child)]
      + (PreOrder(child, 0, root, uri, p, digest) + PreOrder(node, i + 1, root, parent, path, digest))
  }

  method FlattenNodes(node: Node, root: string, parent: string, path: seq<nat>, digest: string -> string)
    returns (records: seq<NodeRecord>)
    ensures records == PreOrder(node, 0, root, parent, path, digest)
    decreases node
  {
    records := [];
    for i := 0 to |node.children|
      invariant records + PreOrder(node, i, root, parent, path, digest)
                == PreOrder(node, 0, root, parent, path, digest)
    {
      var child, p := node.children[i], path + [i + 1];
      var uri := NodeUri(root, p, child, digest);
      var below := FlattenNodes(child, root, uri, p, digest);
      var record := NodeRecord(uri, parent, |p|, p, child);
      Reassociate(records, record, below, PreOrder(node, i + 1, root, parent, path, digest));
      records := records + [record] + below;
    }
  }

  lemma Reassociate(a: seq<NodeRecord>, r: NodeRecord, b: seq<NodeRecord>, c: seq<NodeRecord>)
    ensures (a + [r] + b) + c == a + ([r] + (b + c))
  {
  }

  // ---- Pre-order ----

  /** Ancestors before descendants, and siblings by position. */
  predicate PathBefore(a: seq<nat>, b: seq<nat>) {
    if b == [] then false
    else if a == [] then true
    else if a[0] != b[0] then a[0] < b[0]
    else PathBefore(a[1..], b[1..])
  }

  lemma {:induction false} PathBeforeIrreflexive(a: seq<nat>)
    ensures !PathBefore(a, a)
  {
    if a != [] {
      PathBeforeIrreflexive(a[1..]);
    }
  }

  lemma {:induction false} PathBeforeUnder(p: seq<nat>, a: seq<nat>, b: seq<nat>)
    ensures PathBefore(p + a, p + b) <==> PathBefore(a, b)
  {
    if p == [] {
      assert p + a == a && p + b == b;
    } else {
      assert (p + a)[1..] == p[1..] + a && (p + b)[1..] == p[1..] + b;
      PathBeforeUnder(p[1..], a, b);
    }
  }

  /** `q` lies strictly below `path`, at or after child position `i`. */
  predicate Below(q: seq<nat>, path: seq<nat>, i: nat) {
    |q| > |path| && q[..|path|] == path && q[|path|] > i
  }

  lemma {:induction false} AllBelow(node: Node, i: nat, root: string, parent: string, path: seq<nat>,
                                    digest: string -> string)
    ensures forall r :: r in PreOrder(node, i, root, parent, path, digest) ==>
              Below(r.path, path, i) && r.level == |r.path| && r.uri == NodeUri(root, r.path, r.node, digest)
    decreases node, |node.children| - i
  {
    if i < |node.children| {
      var child, p := node.children[i], path + [i + 1];
      AllBelow(child, 0, root, NodeUri(root, p, child, digest), p, digest);
      AllBelow(node, i + 1, root, parent, path, digest);
      forall r | r in PreOrder(child, 0, root, NodeUri(root, p, child, digest), p, digest)
        ensures Below(r.path, path, i) {
        assert r.path[..|path|] == p[..|path|] == path && r.path[|path|] == p[|path|];
      }
    }
  }

  predicate InPreOrder(rs: seq<NodeRecord>) {
    forall j, k :: 0 <= j < k < |rs| ==> PathBefore(rs[j].path, rs[k].path)
  }

  lemma BeforeConcat(a: seq<NodeRecord>, b: seq<NodeRecord>)
    requires InPreOrder(a) && InPreOrder(b)
    requires forall r, s :: r in a && s in b ==> PathBefore(r.path, s.path)
    ensures InPreOrder(a + b)
  {
  }

  lemma SiblingBefore(q: seq<nat>, r: seq<nat>, path: seq<nat>, i: nat)
    requires Below(q, path, i) && q[|path|] == i + 1 && Below(r, path, i + 1)
    ensures PathBefore(q, r)
  {
    var x, y := q[|path|..], r[|path|..];
    assert q == path + x && r == path + y;
    PathBeforeUnder(path, x, y);
  }

  lemma AncestorBefore(p: seq<nat>, q: seq<nat>)
    requires Below(q, p, 0)
    ensures PathBefore(p, q)
  {
    var y := q[|p|..];
    assert q == p + y && p + [] == p;
    PathBeforeUnder(p, [], y);
  }

  /** The flattened list is in pre-order, so all its paths differ. */
  lemma {:induction false} FlattenedInPreOrder(node: Node, i: nat, root: string, parent: string, path: seq<nat>,
                                               digest: string -> string)
    ensures InPreOrder(PreOrder(node, i, root, parent, path, digest))
    decreases node, |node.children| - i
  {
    if i < |node.children| {
      var child, p := node.children[i], path + [i + 1];
      var uri := NodeUri(root, p, child, digest);
      var below := PreOrder(child, 0, root, uri, p, digest);
      var rest := PreOrder(node, i + 1, root, parent, path, digest);
      FlattenedInPreOrder(child, 0, root, uri, p, digest);
      FlattenedInPreOrder(node, i + 1, root, parent, path, digest);
      AllBelow(child, 0, root, uri, p, digest);
      AllBelow(node, i + 1, root, parent, path, digest);
      var head := NodeRecord(uri, parent, |p|, p, child);
      HeadFirst(head, below, rest, path, i);
      BeforeConcat(below, rest);
      BeforeConcat([head], below + rest);
    }
  }

  lemma HeadFirst(head: NodeRecord, below: seq<NodeRecord>, rest: seq<NodeRecord>, path: seq<nat>, i: nat)
    requires head.path == path + [i + 1]
    requires forall r :: r in below ==> Below(r.path, head.path, 0)
    requires forall r :: r in rest ==> Below(r.path, path, i + 1)
    ensures forall r, s :: r in below && s in rest ==> PathBefore(r.path, s.path)
    ensures forall r, s :: r in [head] && s in below + rest ==> PathBefore(r.path, s.path)
  {
    forall r, s | r in below && s in rest ensures PathBefore(r.path, s.path) {
      assert r.path[..|path|] == head.path[..|path|] && r.path[|path|] == head.path[|path|];
      SiblingBefore(r.path, s.path, path, i);
    }
    forall s | s in below + rest ensures PathBefore(head.path, s.path) {
      if s in below {
        AncestorBefore(head.path, s.path);
      } else {
        SiblingBefore(head.path, s.path, path, i);
      }
    }
  }

  /** All node URIs are distinct. */
  lemma UrisDistinct(node: Node, root: string, parent: string, path: seq<nat>, digest: string -> string,
                     j: nat, k: nat)
    requires IsDigest(digest)
    requires j < k < |PreOrder(node, 0, root, parent, path, digest)|
    ensures var rs := PreOrder(node, 0, root, parent, path, digest); rs[j].uri != rs[k].uri
  {
    var rs := PreOrder(node, 0, root, parent, path, digest);
    FlattenedInPreOrder(node, 0, root, parent, path, digest);
    AllBelow(node, 0, root, parent, path, digest);
    assert rs[j] in rs && rs[k] in rs;
    if rs[j].uri == rs[k].uri {
      NodeUriInjective(root, rs[j].path, rs[j].node, rs[k].path, rs[k].node, digest);
      PathBeforeIrreflexive(rs[j].path);
    }
  }

  // ---- Cutting never orphans a node ----

  /** The record hangs from `parent` as a top node, or from the earlier record one step up. */
  predicate Rooted(rs: seq<NodeRecord>, k: nat, parent: string, base: nat)
    requires k < |rs|
  {
    || (rs[k].parentUri == parent && |rs[k].path| == base + 1)
    || exists j :: 0 <= j < k && IsParent(rs[j], rs[k])
  }

  predicate IsParent(a: NodeRecord, b: NodeRecord) {
    a.uri == b.parentUri && b.path != [] && a.path == b.path[..|b.path| - 1]
  }

  predicate AllRooted(rs: seq<NodeRecord>, parent: string, base: nat) {
    forall k :: 0 <= k < |rs| ==> Rooted(rs, k, parent, base)
  }

  lemma RootedConcat(front: seq<NodeRecord>, rest: seq<NodeRecord>, parent: string, base: nat)
    requires AllRooted(front, parent, base) && AllRooted(rest, parent, base)
    ensures AllRooted(front + rest, parent, base)
  {
    var all, m := front + rest, |front|;
    forall k | 0 <= k < |all| ensures Rooted(all, k, parent, base) {
      if k < m {
        assert Rooted(front, k, parent, base);
        if j :| 0 <= j < k && IsParent(front[j], front[k]) {
          assert all[j] == front[j];
        }
      } else {
        assert Rooted(rest, k - m, parent, base);
        if j :| 0 <= j < k - m && IsParent(rest[j], rest[k - m]) {
          assert all[m + j] == rest[j];
        }
      }
    }
  }

  lemma {:induction false} ParentsComeFirst(node: Node, i: nat, root: string, parent: string, path: seq<nat>,
                                            digest: string -> string)
    ensures AllRooted(PreOrder(node, i, root, parent, path, digest), parent, |path|)
    decreases node, |node.children| - i
  {
    if i < |node.children| {
      var child, p := node.children[i], path + [i + 1];
      var uri := NodeUri(root, p, child, digest);
      var head := NodeRecord(uri, parent, |p|, p, child);
      var below := PreOrder(child, 0, root, uri, p, digest);
      var rest := PreOrder(node, i + 1, root, parent, path, digest);
      ParentsComeFirst(child, 0, root, uri, p, digest);
      ParentsComeFirst(node, i + 1, root, parent, path, digest);
      AllBelow(child, 0, root, uri, p, digest);
      HeadThenBelow(head, below, path);
      RootedConcat([head] + below, rest, parent, |path|);
      assert [head] + (below + rest) == ([head] + below) + rest;
    }
  }

  lemma HeadThenBelow(head: NodeRecord, below: seq<NodeRecord>, path: seq<nat>)
    requires AllRooted(below, head.uri, |head.path|) && |head.path| == |path| + 1
    requires forall r :: r in below ==> Below(r.path, head.path, 0)
    ensures AllRooted([head] + below, head.parentUri, |path|)
  {
    var all := [head] + below;
    forall k | 0 <= k < |all| ensures Rooted(all, k, head.parentUri, |path|) {
      if k > 0 {
        assert all[k] == below[k - 1] && Rooted(below, k - 1, head.uri, |head.path|);
        if below[k - 1].parentUri == head.uri && |below[k - 1].path| == |head.path| + 1 {
          assert below[k - 1] in below;
          assert IsParent(all[0], all[k]);
        } else {
          var j :| 0 <= j < k - 1 && IsParent(below[j], below[k - 1]);
          assert all[j + 1] == below[j];
        }
      }
    }
  }

  /** Any prefix of the flattened list, and so the first 32 nodes, keeps every node's parent. */
  lemma PrefixIsClosed(node: Node, root: string, digest: string -> string, n: nat)
    requires n <= |PreOrder(node, 0, root, root, [], digest)|
    ensures AllRooted(PreOrder(node, 0, root, root, [], digest)[..n], root, 0)
  {
    var rs := PreOrder(node, 0, root, root, [], digest);
    ParentsComeFirst(node, 0, root, root, [], digest);
    forall k | 0 <= k < n ensures Rooted(rs[..n], k, root, 0) {
      assert Rooted(rs, k, root, 0);
      if j :| 0 <= j < k && IsParent(rs[j], rs[k]) {
        assert rs[..n][j] == rs[j];
      }
    }
  }

  /** What the writer indexes: a tree of its own, with distinct URIs. */
  method IndexedNodes(node: Node, root: string, digest: string -> string) returns (records: seq<NodeRecord>)
    requires IsDigest(digest)
    ensures |records| <= 32 && AllRooted(records, root, 0) && InPreOrder(records)
    ensures forall r :: r in records ==> Stands(r, node, root, digest)
    ensures forall j, k :: 0 <= j < k < |records| ==> records[j].uri != records[k].uri
    ensures records <= PreOrder(node, 0, root, root, [], digest)
    ensures |records| < 32 ==> records == PreOrder(node, 0, root, root, [], digest)
  {
    var all := FlattenNodes(node, root, root, [], digest);
    var n := if |all| < MAX_NODES then |all| else MAX_NODES;
    records := all[..n];
    PrefixIsClosed(node, root, digest, n);
    forall r | r in records ensures Stands(r, node, root, digest) {
      var k :| 0 <= k < |records| && records[k] == r;
      FlattenedStands(node, 0, root, root, [], digest, k);
      assert r.path[0..] == r.path;
      PathTextIsJoin(r.path);
    }
    FlattenedInPreOrder(node, 0, root, root, [], digest);
    forall j, k | 0 <= j < k < |records| ensures records[j].uri != records[k].uri {
      UrisDistinct(node, root, root, [], digest, j, k);
    }
  }

  /** The record is that of the node its path leads to, and its URI spells the path and a digest
      of the title, or of the summary when there is no title. */
  ghost predicate Stands(r: NodeRecord, node: Node, root: string, digest: string -> string) {
    && r.path != [] && r.level == |r.path| && Leads(node, r.path, r.node)
    && r.uri == TrimSlashes(root) + "/reason_tree/"
                + (Join(Numerals(r.path), "-") + "-"
                   + digest(if r.node.title == "" then r.node.summary else r.node.title))
  }

  function Numerals(path: seq<nat>): seq<string> {
    seq(|path|, i requires 0 <= i < |path| => Decimal(path[i]))
  }

  lemma {:induction false} PathTextIsJoin(path: seq<nat>)
    ensures PathText(path) == Join(Numerals(path), "-")
  {
    if |path| > 1 {
      PathTextIsJoin(path[1..]);
      assert Numerals(path)[1..] == Numerals(path[1..]);
    }
  }

  /** Below the child at `i`, seen from the node. */
  lemma StandsBelow(node: Node, i: nat, path: seq<nat>, r: NodeRecord)
    requires i < |node.children| && |path| + 1 < |r.path| && r.path[..|path| + 1] == path + [i + 1]
    requires Leads(node.children[i], r.path[|path| + 1..], r.node)
    ensures r.path[..|path|] == path && Leads(node, r.path[|path|..], r.node)
  {
    assert r.path[|path|] == r.path[..|path| + 1][|path|] == i + 1;
    assert r.path[|path|..][1..] == r.path[|path| + 1..];
    assert r.path[..|path|] == r.path[..|path| + 1][..|path|];
  }

  lemma {:induction false} FlattenedStands(node: Node, i: nat, root: string, parent: string, path: seq<nat>,
                                           digest: string -> string, k: nat)
    requires k < |PreOrder(node, i, root, parent, path, digest)|
    ensures var r := PreOrder(node, i, root, parent, path, digest)[k];
            && |path| < |r.path| && r.path[..|path|] == path && r.level == |r.path|
            && Leads(node, r.path[|path|..], r.node) && r.uri == NodeUri(root, r.path, r.node, digest)
    decreases node, |node.children| - i
  {
    var child, p := node.children[i], path + [i + 1];
    var uri := NodeUri(root, p, child, digest);
    var below := PreOrder(child, 0, root, uri, p, digest);
    var r := PreOrder(node, i, root, parent, path, digest)[k];
    if k == 0 {
      assert p[|path|..] == [i + 1];
    } else if k - 1 < |below| {
      FlattenedStands(child, 0, root, uri, p, digest, k - 1);
      assert r == below[k - 1];
      StandsBelow(node, i, path, r);
    } else {
      FlattenedStands(node, i + 1, root, parent, path, digest, k - 1 - |below|);
    }
  }

  // ---- Nothing is left out ----

  /** The node a path leads to. */
  predicate Leads(node: Node, path: seq<nat>, target: Node) {
    if path == [] then node == target
    else 1 <= path[0] <= |node.children| && Leads(node.children[path[0] - 1], path[1..], target)
  }

  ghost predicate Listed(rs: seq<NodeRecord>, path: seq<nat>, target: Node) {
    exists r :: r in rs && r.path == path && r.node == target
  }

  lemma ListedWithin(rs: seq<NodeRecord>, all: seq<NodeRecord>, path: seq<nat>, target: Node)
    requires Listed(rs, path, target) && forall r :: r in rs ==> r in all
    ensures Listed(all, path, target)
  {
  }

  /** Every node of the tree is flattened, under its own path. */
  lemma {:induction false} EveryNodeFlattened(node: Node, i: nat, root: string, parent: string, base: seq<nat>,
                                              digest: string -> string, path: seq<nat>, target: Node)
    requires path != [] && path[0] > i && Leads(node, path, target)
    ensures Listed(PreOrder(node, i, root, parent, base, digest), base + path, target)
    decreases node, |node.children| - i
  {
    var child, p := node.children[i], base + [i + 1];
    var uri := NodeUri(root, p, child, digest);
    var below := PreOrder(child, 0, root, uri, p, digest);
    var all := PreOrder(node, i, root, parent, base, digest);
    if path[0] > i + 1 {
      EveryNodeFlattened(node, i + 1, root, parent, base, digest, path, target);
      ListedWithin(PreOrder(node, i + 1, root, parent, base, digest), all, base + path, target);
    } else if |path| == 1 {
      assert all[0].path == base + path && all[0].node == target;
    } else {
      EveryNodeFlattened(child, 0, root, uri, p, digest, path[1..], target);
      assert p + path[1..] == base + path;
      ListedWithin(below, all, base + path, target);
    }
  }
}
