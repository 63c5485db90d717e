/** internal/mission/permissions.go: permission envelopes and their attenuation. */
module Permissions {
  import opened Basics

  /** One board slice. No keys means the whole namespace. */
  datatype BoardGrant = BoardGrant(ns: string, keys: seq<string>, mode: string)

  datatype Envelope = Envelope(
    classification: string, toolScopes: seq<string>, artifactRefs: seq<string>, views: seq<BoardGrant>)

  const READ_ONLY := "ro"
  const READ_WRITE := "rw"

  function Rank(classification: string): Option<nat> {
    if classification == "public" then Some(0)
    else if classification == "internal" then Some(1)
    else if classification == "confidential" then Some(2)
    else if classification == "restricted" then Some(3)
    else None
  }

  // ---- uniqueSorted ----

  predicate Less(a: string, b: string) {
    b != "" && (a == "" || a[0] < b[0] || (a[0] == b[0] && Less(a[1..], b[1..])))
  }

  lemma {:induction false} LessTotal(a: string, b: string)
    ensures a == b || Less(a, b) || Less(b, a)
    ensures !(Less(a, b) && Less(b, a)) && !Less(a, a)
  {
    if a != "" && b != "" {
      LessTotal(a[1..], b[1..]);
      LessTotal(a[1..], a[1..]);
      assert a == [a[0]] + a[1..] && b == [b[0]] + b[1..];
    } else if a != "" {
      LessTotal(a[1..], a[1..]);
    }
  }

  lemma {:induction false} LessTransitive(a: string, b: string, c: string)
    requires Less(a, b) && Less(b, c)
    ensures Less(a, c)
  {
    if a != "" && a[0] == b[0] == c[0] {
      LessTransitive(a[1..], b[1..], c[1..]);
    }
  }

  ghost predicate StrictlySorted(s: seq<string>) {
    forall i, j :: 0 <= i < j < |s| ==> Less(s[i], s[j])
  }

  /** Inserts into a strictly sorted list, keeping it strictly sorted. */
  function Insert(x: string, s: seq<string>): (r: seq<string>)
    requires StrictlySorted(s)
    ensures StrictlySorted(r)
    ensures forall y :: y in r <==> y == x || y in s
  {
    if s == [] then [x]
    else if x == s[0] then s
    else if Less(x, s[0]) then
      assert forall j :: 0 <= j < |s| ==> Less(x, s[j]) by {
        forall j | 0 < j < |s| ensures Less(x, s[j]) { LessTransitive(x, s[0], s[j]); }
      }
      [x] + s
    else
      LessTotal(x, s[0]);
      var r := Insert(x, s[1..]);
      assert forall y :: y in r ==> Less(s[0], y);
      assert forall j :: 0 <= j < |r| ==> r[j] in r;
      assert s == [s[0]] + s[1..];
      [s[0]] + r
  }

  /** The distinct non-empty strings of `input`, in ascending order. */
  function UniqueSorted(input: seq<string>): (r: seq<string>)
    ensures StrictlySorted(r)
    ensures forall y :: y in r <==> y in input && y != ""
  {
    if input == [] then [] else
      var n := |input| - 1;
      assert input == input[..n] + [input[n]];
      var rest := UniqueSorted(input[..n]);
      if input[n] == "" then rest else Insert(input[n], rest)
  }

  /** A strictly sorted list is determined by its elements, so normal forms are canonical. */
  lemma {:induction false} SortedIsCanonical(a: seq<string>, b: seq<string>)
    requires StrictlySorted(a) && StrictlySorted(b)
    requires forall y :: y in a <==> y in b
    ensures a == b
  {
    assert |b| > 0 ==> b[0] in a by { assert |b| > 0 ==> b[0] in b; }
    if a == [] {
    } else {
      assert a[0] in a;
      assert b != [];
      assert b[0] in b;
      var i :| 0 <= i < |b| && b[i] == a[0];
      var j :| 0 <= j < |a| && a[j] == b[0];
      LessTotal(a[0], b[0]);
      assert a[0] == b[0];
      forall y ensures y in a[1..] <==> y in b[1..] {
        TailElements(a, y);
        TailElements(b, y);
      }
      SortedIsCanonical(a[1..], b[1..]);
      assert a == [a[0]] + a[1..] && b == [b[0]] + b[1..];
    }
  }

  lemma TailElements(a: seq<string>, y: string)
    requires a != [] && StrictlySorted(a)
    ensures y in a[1..] <==> y in a && y != a[0]
  {
    assert a == [a[0]] + a[1..];
    LessTotal(a[0], a[0]);
    if y in a[1..] {
      var k :| 0 <= k < |a[1..]| && a[1..][k] == y;
      assert Less(a[0], a[k + 1]);
    }
  }

  /** uniqueSorted depends only on the set of non-empty strings it is given. */
  lemma UniqueSortedCanonical(a: seq<string>, b: seq<string>)
    requires forall y :: y != "" ==> (y in a <==> y in b)
    ensures UniqueSorted(a) == UniqueSorted(b)
  {
    SortedIsCanonical(UniqueSorted(a), UniqueSorted(b));
  }

  // ---- NormalizePermissionEnvelope ----

  function NormalGrant(g: BoardGrant): BoardGrant {
    BoardGrant(g.ns, UniqueSorted(g.keys), if g.mode == "" then READ_ONLY else g.mode)
  }

  function NormalViews(views: seq<BoardGrant>): (r: seq<BoardGrant>)
    ensures |r| == |views| && forall i :: 0 <= i < |r| ==> r[i] == NormalGrant(views[i])
  {
    seq(|views|, i requires 0 <= i < |views| => NormalGrant(views[i]))
  }

  predicate ValidGrant(g: BoardGrant) {
    g.ns != "" && (g.mode == READ_ONLY || g.mode == READ_WRITE)
  }

  /** None where the source returns an error. */
  function Normalize(e: Envelope): Option<Envelope> {
    var classification := if e.classification == "" then "public" else e.classification;
    var views := NormalViews(e.views);
    if Rank(classification).None? then None
    else if exists i :: 0 <= i < |views| && !ValidGrant(views[i]) then None
    else Some(Envelope(classification, UniqueSorted(e.toolScopes), UniqueSorted(e.artifactRefs), views))
  }

  predicate Normal(e: Envelope) { Normalize(e) == Some(e) }

  lemma NormalGrantIdempotent(g: BoardGrant)
    ensures NormalGrant(NormalGrant(g)) == NormalGrant(g)
  {
    UniqueSortedIdempotent(g.keys);
  }

  lemma UniqueSortedIdempotent(a: seq<string>)
    ensures UniqueSorted(UniqueSorted(a)) == UniqueSorted(a)
  {
    SortedIsCanonical(UniqueSorted(UniqueSorted(a)), UniqueSorted(a));
  }

  /** Normalising twice changes nothing, so stored envelopes are fixed points. */
  lemma NormalizeIdempotent(e: Envelope)
    ensures Normalize(e).Some? ==> Normal(Normalize(e).value)
  {
    if Normalize(e).Some? {
      var n := Normalize(e).value;
      UniqueSortedIdempotent(e.toolScopes);
      UniqueSortedIdempotent(e.artifactRefs);
      forall i | 0 <= i < |e.views| ensures NormalGrant(n.views[i]) == n.views[i] {
        NormalGrantIdempotent(e.views[i]);
      }
      assert NormalViews(n.views) == n.views;
    }
  }

  // ---- PermissionEnvelopeSubset ----

  ghost predicate Within(parent: seq<string>, child: seq<string>) {
    forall x :: x in child ==> x in parent
  }

  ghost predicate Covers(parent: BoardGrant, child: BoardGrant) {
    && parent.ns == child.ns
    && !(parent.mode == READ_ONLY && child.mode == READ_WRITE)
    && (if child.keys == [] then parent.keys == []
        else parent.keys == [] || Within(parent.keys, child.keys))
  }

  ghost predicate ViewsCovered(parent: seq<BoardGrant>, child: seq<BoardGrant>) {
    forall c :: c in child ==> exists p :: p in parent && Covers(p, c)
  }

  ghost predicate SubsetNormal(p: Envelope, c: Envelope)
    requires Rank(p.classification).Some? && Rank(c.classification).Some?
  {
    && Rank(c.classification).value <= Rank(p.classification).value
    && Within(p.toolScopes, c.toolScopes)
    && Within(p.artifactRefs, c.artifactRefs)
    && ViewsCovered(p.views, c.views)
  }

  ghost predicate Subset(parent: Envelope, child: Envelope) {
    var p, c := Normalize(parent), Normalize(child);
    p.Some? && c.Some? && SubsetNormal(p.value, c.value)
  }

  lemma SubsetReflexive(e: Envelope)
    ensures Subset(e, e) <==> Normalize(e).Some?
  {
    if Normalize(e).Some? {
      var n := Normalize(e).value;
      forall v | v in n.views ensures exists p :: p in n.views && Covers(p, v) {
        assert Covers(v, v);
      }
    }
  }

  lemma SubsetTransitive(a: Envelope, b: Envelope, c: Envelope)
    requires Subset(a, b) && Subset(b, c)
    ensures Subset(a, c)
  {
    var na, nb, nc := Normalize(a).value, Normalize(b).value, Normalize(c).value;
    forall v | v in nc.views ensures exists p :: p in na.views && Covers(p, v) {
      var q :| q in nb.views && Covers(q, v);
      var p :| p in na.views && Covers(p, q);
      assert ValidGrant(q);
      if v.keys != [] && p.keys != [] {
        assert v.keys[0] in v.keys;
      }
      assert Covers(p, v);
    }
  }

  method StringSubset(parent: seq<string>, child: seq<string>) returns (ok: bool)
    ensures ok <==> Within(parent, child)
  {
    var allowed := set x | x in parent;
    for i := 0 to |child|
      invariant forall j :: 0 <= j < i ==> child[j] in parent
    {
      if child[i] !in allowed {
        assert child[i] in child;
        return false;
      }
    }
    return true;
  }

  method BoardGrantCovers(parent: BoardGrant, child: BoardGrant) returns (ok: bool)
    ensures ok <==> Covers(parent, child)
  {
    if parent.ns != child.ns || (parent.mode == READ_ONLY && child.mode == READ_WRITE) {
      return false;
    }
    if |child.keys| == 0 {
      return |parent.keys| == 0;
    }
    if |parent.keys| == 0 {
      return true;
    }
    ok := StringSubset(parent.keys, child.keys);
  }

  /** The flag loop: is one child view covered by some parent view? */
  method ViewCovered(parent: seq<BoardGrant>, child: BoardGrant) returns (covered: bool)
    ensures covered <==> exists p :: p in parent && Covers(p, child)
  {
    covered := false;
    for k := 0 to |parent|
      invariant !covered && forall m :: 0 <= m < k ==> !Covers(parent[m], child)
    {
      covered := BoardGrantCovers(parent[k], child);
      if covered {
        assert parent[k] in parent;
        return;
      }
    }
  }

  method AllViewsCovered(parent: seq<BoardGrant>, child: seq<BoardGrant>) returns (ok: bool)
    ensures ok <==> ViewsCovered(parent, child)
  {
    for i := 0 to |child|
      invariant forall j :: 0 <= j < i ==> exists p :: p in parent && Covers(p, child[j])
    {
      var covered := ViewCovered(parent, child[i]);
      if !covered {
        assert child[i] in child;
        return false;
      }
    }
    return true;
  }

  /** The source's decision procedure is the declared relation. */
  method PermissionEnvelopeSubset(parent: Envelope, child: Envelope) returns (ok: bool)
    ensures ok <==> Subset(parent, child)
  {
    var p, c := Normalize(parent), Normalize(child);
    if p.None? || c.None? {
      return false;
    }
    if Rank(c.value.classification).value > Rank(p.value.classification).value {
      return false;
    }
    var tools := StringSubset(p.value.toolScopes, c.value.toolScopes);
    var artifacts := StringSubset(p.value.artifactRefs, c.value.artifactRefs);
    if !tools || !artifacts {
      return false;
    }
    ok := AllViewsCovered(p.value.views, c.value.views);
  }
}
