/** The extractor, the write filter and the board loader of internal/core/cel.go as they run, proved to
    compute the footprint of Conditions. */
module Footprints {
  import opened Basics
  import opened Conditions

  lemma NamesJoin(f: Footprint, g: Footprint)
    ensures Names(f.Join(g)) == Names(f) + Names(g)
  {
    forall n ensures n in Names(f.Join(g)) <==> n in Names(f) + Names(g) {
      if n in Names(f) {
        var r :| r in f.refs && RefName(r) == n;
        assert r in f.Join(g).refs;
      }
      if n in Names(g) {
        var r :| r in g.refs && RefName(r) == n;
        assert r in f.Join(g).refs;
      }
    }
  }

  class RefExtractor {
    var refs: seq<string>
    var seen: set<string>
    var wildcard: bool

    ghost predicate Valid()
      reads this
    {
      seen == Elements(refs) && Distinct(refs)
    }

    /** The state after a footprint has been recorded on top of an earlier state. */
    ghost predicate Recorded(earlier: set<string>, wild: bool, f: Footprint)
      reads this
    {
      && Valid() && wildcard == (wild || f.wild)
      && (!wildcard ==> seen == earlier + Names(f))
    }

    constructor ()
      ensures Valid() && refs == [] && !wildcard
    {
      refs, seen, wildcard := [], {}, false;
    }

    method Add(r: string)
      requires Valid()
      modifies this`refs, this`seen
      ensures Valid() && seen == old(seen) + {r}
    {
      if r !in seen {
        seen := seen + {r};
        refs := refs + [r];
      }
    }

    method Record(c: Chain)
      requires Valid() && !wildcard
      modifies this
      ensures Recorded(old(seen), false, RefOf(c))
    {
      if c.dynamic || |c.segs| == 0 {
        wildcard := true;
      } else if |c.segs| == 1 {
        assert Names(RefOf(c)) == {RefName(Whole(c.segs[0]))};
        Add(c.segs[0] + "/*");
      } else {
        assert Names(RefOf(c)) == {RefName(One(c.segs[0], c.segs[1]))};
        Add(c.segs[0] + "/" + c.segs[1]);
      }
    }

    /** Stops at once when the wildcard is set. */
    method Walk(e: Expr)
      requires Valid()
      modifies this
      ensures Recorded(old(seen), old(wildcard), FootprintOf(e))
      decreases e
    {
      if wildcard {
        return;
      }
      match e
      case Const(_) =>
      case Ident(name) =>
        if name == BOARD {
          Record(Chain([], false));
        }
      case Select(operand, _, _) =>
        var chain := BoardChain(e);
        if chain.Some? {
          NamesJoin(RefOf(chain.value), Footprint({}, false, ProbedBy(e)));
          Record(chain.value);
        } else {
          Walk(operand);
        }
      case Index(operand, index) =>
        var chain := BoardChain(e);
        if chain.Some? {
          NamesJoin(RefOf(chain.value), Footprint({}, false, ProbedBy(e)));
          Record(chain.value);
        } else {
          NamesJoin(FootprintOf(operand), FootprintOf(index));
          Walk(operand);
          Walk(index);
        }
      case Call(_, args) => WalkAll(args);
      case ListOf(elems) => WalkAll(elems);
      case MapOf(keys, vals) =>
        NamesJoin(FootprintAll(keys), FootprintAll(vals));
        WalkAll(keys);
        WalkAll(vals);
      case Comprehension(loop) => WalkLoop(loop);
    }

    method WalkAll(es: Exprs)
      requires Valid()
      modifies this
      ensures Recorded(old(seen), old(wildcard), FootprintAll(es))
      decreases es
    {
      match es
      case Nil =>
      case Cons(head, tail) =>
        NamesJoin(FootprintOf(head), FootprintAll(tail));
        Walk(head);
        WalkAll(tail);
    }

    method WalkLoop(loop: Loop)
      requires Valid()
      modifies this
      ensures Recorded(old(seen), old(wildcard), LoopFootprint(loop))
      decreases loop
    {
      hide Names, FootprintOf;
      var f2 := FootprintOf(loop.range).Join(FootprintOf(loop.init));
      var f3 := f2.Join(FootprintOf(loop.cond));
      var f4 := f3.Join(FootprintOf(loop.step));
      NamesJoin(FootprintOf(loop.range), FootprintOf(loop.init));
      NamesJoin(f2, FootprintOf(loop.cond));
      NamesJoin(f3, FootprintOf(loop.step));
      NamesJoin(f4, FootprintOf(loop.result));
      Walk(loop.range);
      Walk(loop.init);
      Walk(loop.cond);
      Walk(loop.step);
      Walk(loop.result);
    }
  }

  /** extractBoardRefs: the names of the static references, or the wildcard. */
  method ExtractBoardRefs(e: Expr) returns (refs: seq<string>, wildcard: bool)
    ensures wildcard == FootprintOf(e).wild
    ensures !wildcard ==> Elements(refs) == Names(FootprintOf(e)) && Distinct(refs)
  {
    var x := new RefExtractor();
    x.Walk(e);
    refs, wildcard := x.refs, x.wildcard;
  }

  /** The filter that decides whether a board write triggers an evaluation. */
  method ReferencesBoard(refs: seq<string>, wildcard: bool, changed: string) returns (yes: bool)
    ensures yes <==> wildcard || References(Elements(refs), changed)
  {
    if wildcard {
      return true;
    }
    for i := 0 to |refs|
      invariant forall j :: 0 <= j < i ==> refs[j] != changed && !(EndsWithStar(refs[j]) && refs[j][..|refs[j]| - 1] <= changed)
    {
      var r := refs[i];
      assert r in Elements(refs);
      if r == changed {
        return true;
      }
      if EndsWithStar(r) && r[..|r| - 1] <= changed {
        return true;
      }
    }
    yes := false;
  }
}
