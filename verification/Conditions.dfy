/** Static board footprints of wake conditions (internal/core/cel.go). Expressions are an abstract syntax
    with one error value; every operator and function but selection and indexing is an arbitrary
    function of its argument values, so the result does not depend on the expression library. */
module Conditions {
  import opened Basics

  datatype Value =
    | VErr | VNull | VBool(b: bool) | VInt(n: int) | VDouble(x: real) | VStr(s: string)
    | VList(items: seq<Value>) | VMap(fields: map<string, Value>)

  /** `test` marks the has() macro. */
  datatype Expr =
    | Const(v: Value)
    | Ident(name: string)
    | Select(operand: Expr, field: string, test: bool)
    | Index(operand: Expr, index: Expr)
    | Call(fn: string, args: Exprs)
    | ListOf(elems: Exprs)
    | MapOf(keys: Exprs, vals: Exprs)
    | Comprehension(loop: Loop)

  datatype Exprs = Nil | Cons(head: Expr, tail: Exprs)

  datatype Loop = Loop(iterVar: string, range: Expr, accuVar: string, init: Expr, cond: Expr, step: Expr, result: Expr)

  const BOARD := "board"

  type Ops = (string, seq<Value>) -> Value
  type Env = map<string, Value>

  // ---- evaluation ----

  function Eval(e: Expr, env: Env, ops: Ops): Value
    decreases e
  {
    match e
    case Const(v) => v
    case Ident(name) => if name in env then env[name] else VErr
    case Select(operand, field, test) => SelectIn(Eval(operand, env, ops), field, test)
    case Index(operand, index) => IndexIn(Eval(operand, env, ops), Eval(index, env, ops), ops)
    case Call(fn, args) => ops(fn, EvalAll(args, env, ops))
    case ListOf(elems) => ListValue(EvalAll(elems, env, ops))
    case MapOf(keys, vals) => ops("{}", EvalAll(keys, env, ops) + EvalAll(vals, env, ops))
    case Comprehension(loop) =>
      var items := Items(Eval(loop.range, env, ops), ops);
      if items.None? then VErr else EvalLoop(loop, items.value, env, Eval(loop.init, env, ops), ops)
  }

  function EvalAll(es: Exprs, env: Env, ops: Ops): seq<Value>
    decreases es
  {
    match es
    case Nil => []
    case Cons(head, tail) => [Eval(head, env, ops)] + EvalAll(tail, env, ops)
  }

  function SelectIn(v: Value, field: string, test: bool): Value {
    if !v.VMap? then VErr
    else if test then VBool(field in v.fields)
    else if field in v.fields then v.fields[field] else VErr
  }

  function IndexIn(v: Value, i: Value, ops: Ops): Value {
    if v.VMap? && i.VStr? then SelectIn(v, i.s, false)
    else if v.VList? then ops("[]", [v, i]) else VErr
  }

  function ListValue(vs: seq<Value>): Value { if VErr in vs then VErr else VList(vs) }

  /** What a comprehension ranges over: list elements, or the keys of a map in an order fixed by the map.
      Anything else, the error value included, makes the comprehension an error. */
  function Items(v: Value, ops: Ops): Option<seq<Value>> {
    if v.VList? then Some(v.items)
    else if v.VMap? && ops("keys", [v]).VList? then Some(ops("keys", [v]).items)
    else None
  }

  function EvalLoop(loop: Loop, items: seq<Value>, env: Env, accu: Value, ops: Ops): Value
    decreases loop, |items|
  {
    if items == [] then Eval(loop.result, env[loop.accuVar := accu], ops)
    else
      var inner := env[loop.accuVar := accu][loop.iterVar := items[0]];
      if Eval(loop.cond, inner, ops) == VBool(false) then Eval(loop.result, env[loop.accuVar := accu], ops)
      else EvalLoop(loop, items[1..], env, Eval(loop.step, inner, ops), ops)
  }

  // ---- references ----

  datatype Ref = Whole(ns: string) | One(ns: string, key: string)

  function RefName(r: Ref): string {
    match r
    case Whole(ns) => ns + "/*"
    case One(ns, key) => ns + "/" + key
  }

  datatype Chain = Chain(segs: seq<string>, dynamic: bool)

  /** A chain of selections and constant indexing rooted at `board`, or nothing. */
  function BoardChain(e: Expr): Option<Chain> {
    match e
    case Ident(name) => if name == BOARD then Some(Chain([], false)) else None
    case Select(operand, field, _) =>
      (match BoardChain(operand)
       case None => None
       case Some(c) => Some(Chain(c.segs + [field], c.dynamic)))
    case Index(operand, index) =>
      (match BoardChain(operand)
       case None => None
       case Some(c) =>
         if index.Const? && index.v.VStr? then Some(Chain(c.segs + [index.v.s], c.dynamic))
         else Some(Chain(c.segs, true)))
    case _ => None
  }

  /** The namespace whose key is probed by has() inside the chain, as in has(board.ns.key). */
  function ProbedBy(e: Expr): set<string> {
    match e
    case Select(operand, _, test) =>
      (match BoardChain(operand)
       case Some(c) => (if |c.segs| == 1 && test then {c.segs[0]} else {}) + ProbedBy(operand)
       case None => {})
    case Index(operand, _) => ProbedBy(operand)
    case _ => {}
  }

  datatype Footprint = Footprint(refs: set<Ref>, wild: bool, probed: set<string>) {
    function Join(other: Footprint): Footprint {
      Footprint(refs + other.refs, wild || other.wild, probed + other.probed)
    }
  }

  const NOTHING := Footprint({}, false, {})

  function RefOf(c: Chain): Footprint {
    if c.dynamic || |c.segs| == 0 then Footprint({}, true, {})
    else if |c.segs| == 1 then Footprint({Whole(c.segs[0])}, false, {})
    else Footprint({One(c.segs[0], c.segs[1])}, false, {})
  }

  /** What the extractor collects. */
  function FootprintOf(e: Expr): Footprint {
    match e
    case Const(_) => NOTHING
    case Ident(name) => if name == BOARD then Footprint({}, true, {}) else NOTHING
    case Select(operand, _, _) =>
      (match BoardChain(e)
       case Some(c) => RefOf(c).Join(Footprint({}, false, ProbedBy(e)))
       case None => FootprintOf(operand))
    case Index(operand, index) =>
      (match BoardChain(e)
       case Some(c) => RefOf(c).Join(Footprint({}, false, ProbedBy(e)))
       case None => FootprintOf(operand).Join(FootprintOf(index)))
    case Call(_, args) => FootprintAll(args)
    case ListOf(elems) => FootprintAll(elems)
    case MapOf(keys, vals) => FootprintAll(keys).Join(FootprintAll(vals))
    case Comprehension(loop) => LoopFootprint(loop)
  }

  function FootprintAll(es: Exprs): Footprint {
    match es
    case Nil => NOTHING
    case Cons(head, tail) => FootprintOf(head).Join(FootprintAll(tail))
  }

  function LoopFootprint(loop: Loop): Footprint {
    FootprintOf(loop.range).Join(FootprintOf(loop.init)).Join(FootprintOf(loop.cond)).Join(FootprintOf(loop.step))
      .Join(FootprintOf(loop.result))
  }

  // ---- boards ----

  type Slices = map<string, map<string, Value>>

  function BoardValue(b: Slices): Value { VMap(map ns | ns in b :: VMap(b[ns])) }

  function Get(b: Slices, ns: string, key: string): Option<Value> {
    if ns in b && key in b[ns] then Some(b[ns][key]) else None
  }

  /** The boards cannot be told apart through these references and probes. */
  ghost predicate AgreeOn(a: Slices, b: Slices, f: Footprint) {
    && (forall r :: r in f.refs ==>
          if r.Whole? then (r.ns in a <==> r.ns in b) && (r.ns in a && r.ns in b ==> a[r.ns] == b[r.ns])
          else Get(a, r.ns, r.key) == Get(b, r.ns, r.key))
    && (forall ns :: ns in f.probed ==> (ns in a <==> ns in b))
  }

  /** Two environments that differ at most in the board. A comprehension may shadow `board`; then both
      hold the same value. */
  ghost predicate Alike(x: Env, y: Env, a: Slices, b: Slices) {
    && x.Keys == y.Keys && (forall n :: n in x && n != BOARD ==> x[n] == y[n])
    && (BOARD in x ==> x[BOARD] == y[BOARD] || (x[BOARD] == BoardValue(a) && y[BOARD] == BoardValue(b)))
  }

  lemma AlikeBinds(x: Env, y: Env, a: Slices, b: Slices, n: string, v: Value)
    requires Alike(x, y, a, b)
    ensures Alike(x[n := v], y[n := v], a, b)
  {}

  lemma SameBoardSameEnv(x: Env, y: Env, a: Slices, b: Slices)
    requires Alike(x, y, a, b) && (BOARD in x ==> x[BOARD] == y[BOARD])
    ensures x == y
  {}

  /** The step from a chain to its operand. */
  function OperandOf(e: Expr): Expr
    requires e.Select? || e.Index?
  {
    if e.Select? then e.operand else e.operand
  }

  /** A static chain is its operand's chain and one more segment. */
  lemma InnerChain(e: Expr)
    requires BoardChain(e).Some? && !BoardChain(e).value.dynamic && |BoardChain(e).value.segs| >= 1
    ensures e.Select? || e.Index?
    ensures var segs := BoardChain(e).value.segs;
      && BoardChain(OperandOf(e)) == Some(Chain(segs[..|segs| - 1], false))
      && (if e.Select? then e.field == segs[|segs| - 1] else e.index == Const(VStr(segs[|segs| - 1])))
  {
    match e
    case Select(operand, field, _) => LastSegment(BoardChain(operand).value.segs, field);
    case Index(operand, index) => LastSegment(BoardChain(operand).value.segs, index.v.s);
  }

  lemma LastSegment(init: seq<string>, last: string)
    ensures (init + [last])[..|init|] == init && (init + [last])[|init|] == last
  {}

  /** A one-segment chain yields the namespace, or tells whether it exists. */
  lemma NamespaceValue(e: Expr, x: Env, ops: Ops, a: Slices)
    requires BoardChain(e).Some? && !BoardChain(e).value.dynamic && |BoardChain(e).value.segs| == 1
    requires BOARD in x && x[BOARD] == BoardValue(a)
    ensures var ns := BoardChain(e).value.segs[0];
      Eval(e, x, ops) == if e.Select? && e.test then VBool(ns in a) else if ns in a then VMap(a[ns]) else VErr
  {
    InnerChain(e);
    assert OperandOf(e).Ident?;
  }

  /** Chains of two or more segments see only the referenced key. */
  lemma {:induction false} ChainAgrees(e: Expr, x: Env, y: Env, ops: Ops, a: Slices, b: Slices)
    requires BoardChain(e).Some? && !BoardChain(e).value.dynamic && |BoardChain(e).value.segs| >= 1
    requires BOARD in x && BOARD in y && x[BOARD] == BoardValue(a) && y[BOARD] == BoardValue(b)
    requires AgreeOn(a, b, RefOf(BoardChain(e).value).Join(Footprint({}, false, ProbedBy(e))))
    ensures Eval(e, x, ops) == Eval(e, y, ops)
  {
    var segs := BoardChain(e).value.segs;
    if |segs| == 1 {
      assert Whole(segs[0]) in RefOf(BoardChain(e).value).refs;
      NamespaceValue(e, x, ops, a);
      NamespaceValue(e, y, ops, b);
    } else {
      InnerChain(e);
      var inner := OperandOf(e);
      if |segs| == 2 {
        assert One(segs[0], segs[1]) in RefOf(BoardChain(e).value).refs;
        assert segs == [segs[0], segs[1]] && segs[..1] == [segs[0]];
        NamespaceValue(inner, x, ops, a);
        NamespaceValue(inner, y, ops, b);
        KeyAgrees(e, x, y, ops, a, b, segs[0], segs[1]);
      } else {
        assert RefOf(BoardChain(inner).value) == RefOf(BoardChain(e).value);
        assert ProbedBy(inner) <= ProbedBy(e);
        ChainAgrees(inner, x, y, ops, a, b);
        ChainStep(e, x, y, ops);
      }
    }
  }

  lemma ChainStep(e: Expr, x: Env, y: Env, ops: Ops)
    requires BoardChain(e).Some? && !BoardChain(e).value.dynamic && (e.Select? || e.Index?)
    requires Eval(OperandOf(e), x, ops) == Eval(OperandOf(e), y, ops)
    ensures Eval(e, x, ops) == Eval(e, y, ops)
  {}

  lemma KeyAgrees(e: Expr, x: Env, y: Env, ops: Ops, a: Slices, b: Slices, ns: string, key: string)
    requires e.Select? || e.Index?
    requires BoardChain(e) == Some(Chain([ns, key], false)) && BoardChain(OperandOf(e)) == Some(Chain([ns], false))
    requires var inner := OperandOf(e);
      var probe := inner.Select? && inner.test;
      && Eval(inner, x, ops) == (if probe then VBool(ns in a) else if ns in a then VMap(a[ns]) else VErr)
      && Eval(inner, y, ops) == (if probe then VBool(ns in b) else if ns in b then VMap(b[ns]) else VErr)
    requires Get(a, ns, key) == Get(b, ns, key) && (ns in ProbedBy(e) ==> (ns in a <==> ns in b))
    ensures Eval(e, x, ops) == Eval(e, y, ops)
  {
    assert [ns, key][1] == key;
  }

  lemma AgreeOnLess(a: Slices, b: Slices, f: Footprint, g: Footprint)
    requires AgreeOn(a, b, f) && g.refs <= f.refs && g.probed <= f.probed
    ensures AgreeOn(a, b, g)
  {}

  /** An expression whose references are static evaluates equally on boards that agree on them. */
  lemma {:induction false} EvalAgrees(e: Expr, x: Env, y: Env, ops: Ops, a: Slices, b: Slices)
    requires !FootprintOf(e).wild && Alike(x, y, a, b) && AgreeOn(a, b, FootprintOf(e))
    ensures Eval(e, x, ops) == Eval(e, y, ops)
    decreases e
  {
    if BOARD !in x || x[BOARD] == y[BOARD] {
      SameBoardSameEnv(x, y, a, b);
    } else {
      match e
      case Const(_) =>
      case Ident(_) =>
      case Select(operand, _, _) =>
        if BoardChain(e).Some? {
          ChainAgrees(e, x, y, ops, a, b);
        } else {
          EvalAgrees(operand, x, y, ops, a, b);
        }
      case Index(operand, index) =>
        if BoardChain(e).Some? {
          ChainAgrees(e, x, y, ops, a, b);
        } else {
          AgreeOnLess(a, b, FootprintOf(e), FootprintOf(operand));
          AgreeOnLess(a, b, FootprintOf(e), FootprintOf(index));
          EvalAgrees(operand, x, y, ops, a, b);
          EvalAgrees(index, x, y, ops, a, b);
        }
      case Call(_, args) => AllAgree(args, x, y, ops, a, b);
      case ListOf(elems) => AllAgree(elems, x, y, ops, a, b);
      case MapOf(keys, vals) =>
        AgreeOnLess(a, b, FootprintOf(e), FootprintAll(keys));
        AgreeOnLess(a, b, FootprintOf(e), FootprintAll(vals));
        AllAgree(keys, x, y, ops, a, b);
        AllAgree(vals, x, y, ops, a, b);
      case Comprehension(loop) =>
        AgreeOnLess(a, b, FootprintOf(e), FootprintOf(loop.range));
        AgreeOnLess(a, b, FootprintOf(e), FootprintOf(loop.init));
        EvalAgrees(loop.range, x, y, ops, a, b);
        EvalAgrees(loop.init, x, y, ops, a, b);
        var items := Items(Eval(loop.range, x, ops), ops);
        if items.Some? {
          LoopAgrees(loop, items.value, x, y, Eval(loop.init, x, ops), ops, a, b);
        }
    }
  }

  lemma {:induction false} AllAgree(es: Exprs, x: Env, y: Env, ops: Ops, a: Slices, b: Slices)
    requires !FootprintAll(es).wild && Alike(x, y, a, b) && AgreeOn(a, b, FootprintAll(es))
    ensures EvalAll(es, x, ops) == EvalAll(es, y, ops)
    decreases es
  {
    if es.Cons? {
      AgreeOnLess(a, b, FootprintAll(es), FootprintOf(es.head));
      AgreeOnLess(a, b, FootprintAll(es), FootprintAll(es.tail));
      EvalAgrees(es.head, x, y, ops, a, b);
      AllAgree(es.tail, x, y, ops, a, b);
    }
  }

  lemma {:induction false} LoopAgrees(loop: Loop, items: seq<Value>, x: Env, y: Env, accu: Value, ops: Ops, a: Slices,
                                      b: Slices)
    requires !LoopFootprint(loop).wild && Alike(x, y, a, b) && AgreeOn(a, b, LoopFootprint(loop))
    ensures EvalLoop(loop, items, x, accu, ops) == EvalLoop(loop, items, y, accu, ops)
    decreases loop, |items|
  {
    AgreeOnLess(a, b, LoopFootprint(loop), FootprintOf(loop.result));
    AlikeBinds(x, y, a, b, loop.accuVar, accu);
    EvalAgrees(loop.result, x[loop.accuVar := accu], y[loop.accuVar := accu], ops, a, b);
    if items != [] {
      var u := x[loop.accuVar := accu][loop.iterVar := items[0]];
      var v := y[loop.accuVar := accu][loop.iterVar := items[0]];
      AlikeBinds(x[loop.accuVar := accu], y[loop.accuVar := accu], a, b, loop.iterVar, items[0]);
      AgreeOnLess(a, b, LoopFootprint(loop), FootprintOf(loop.cond));
      AgreeOnLess(a, b, LoopFootprint(loop), FootprintOf(loop.step));
      EvalAgrees(loop.cond, u, v, ops, a, b);
      EvalAgrees(loop.step, u, v, ops, a, b);
      LoopAgrees(loop, items[1..], x, y, Eval(loop.step, u, ops), ops, a, b);
    }
  }

  // ---- the two uses of the footprint ----

  ghost predicate NoSlash(s: string) { '/' !in s }

  /** The part of a reference name before its first slash. */
  function Cut(r: string): string {
    if r == "" || r[0] == '/' then "" else [r[0]] + Cut(r[1..])
  }

  lemma {:induction false} CutName(ns: string, rest: string)
    requires NoSlash(ns)
    ensures Cut(ns + "/" + rest) == ns
  {
    var r := ns + "/" + rest;
    if ns != "" {
      assert r[0] == ns[0] && ns[0] in ns;
      assert r[1..] == ns[1..] + "/" + rest;
      CutName(ns[1..], rest);
    }
  }

  /** What follows the first slash does not matter. */
  lemma {:induction false} CutSlash(ns: string, rest: string)
    ensures Cut(ns + "/" + rest) == Cut(ns)
  {
    var r := ns + "/" + rest;
    if ns != "" && ns[0] != '/' {
      assert r[0] == ns[0] && r[1..] == ns[1..] + "/" + rest;
      CutSlash(ns[1..], rest);
    }
  }

  /** The first segments of the reference names: what is loaded for an expression. */
  ghost function Namespaces(refs: set<string>): set<string> { set r | r in refs :: Cut(r) }

  /** The namespaces that begin with a listed segment; the empty segment lists all. */
  ghost function Restricted(b: Slices, nss: set<string>): Slices {
    map ns | ns in b && (Cut(ns) in nss || "" in nss) :: b[ns]
  }

  ghost function Names(f: Footprint): set<string> { set r | r in f.refs :: RefName(r) }

  /** referencesBoard: may the write to this "namespace/key" matter? */
  ghost predicate References(refs: set<string>, changed: string) {
    changed in refs || exists r :: r in refs && EndsWithStar(r) && r[..|r| - 1] <= changed
  }

  predicate EndsWithStar(r: string) { |r| >= 2 && r[|r| - 2..] == "/*" }

  /** Loading only the referenced namespaces changes no value. */
  lemma ReferencedNamespacesSuffice(e: Expr, env: Env, ops: Ops, b: Slices)
    requires !FootprintOf(e).wild
    ensures var loaded := Restricted(b, Namespaces(Names(FootprintOf(e))));
      Eval(e, env[BOARD := BoardValue(b)], ops) == Eval(e, env[BOARD := BoardValue(loaded)], ops)
  {
    var f := FootprintOf(e);
    var loaded := Restricted(b, Namespaces(Names(f)));
    forall r | r in f.refs ensures r.ns in b ==> r.ns in loaded {
      if r.ns in b {
        CutSlash(r.ns, if r.Whole? then "*" else r.key);
        assert RefName(r) == r.ns + "/" + if r.Whole? then "*" else r.key;
        assert RefName(r) in Names(f);
      }
    }
    ProbedAreReferenced(e);
    assert AgreeOn(b, loaded, f) by {
      forall ns | ns in f.probed ensures ns in b <==> ns in loaded {
        var r :| r in f.refs && r.ns == ns;
      }
    }
    EvalAgrees(e, env[BOARD := BoardValue(b)], env[BOARD := BoardValue(loaded)], ops, b, loaded);
  }

  /** Every probed namespace is also referenced. */
  lemma {:induction false} ProbedAreReferenced(e: Expr)
    ensures !FootprintOf(e).wild ==> forall ns :: ns in FootprintOf(e).probed ==> exists r :: r in FootprintOf(e).refs && r.ns == ns
    decreases e
  {
    match e
    case Const(_) =>
    case Ident(_) =>
    case Select(operand, _, _) =>
      if BoardChain(e).Some? { ChainProbe(e); } else { ProbedAreReferenced(operand); }
    case Index(operand, index) =>
      if BoardChain(e).Some? { ChainProbe(e); } else { ProbedAreReferenced(operand); ProbedAreReferenced(index); }
    case Call(_, args) => AllProbedAreReferenced(args);
    case ListOf(elems) => AllProbedAreReferenced(elems);
    case MapOf(keys, vals) => AllProbedAreReferenced(keys); AllProbedAreReferenced(vals);
    case Comprehension(loop) =>
      ProbedAreReferenced(loop.range); ProbedAreReferenced(loop.init); ProbedAreReferenced(loop.cond);
      ProbedAreReferenced(loop.step); ProbedAreReferenced(loop.result);
  }

  lemma {:induction false} AllProbedAreReferenced(es: Exprs)
    ensures !FootprintAll(es).wild ==>
      forall ns :: ns in FootprintAll(es).probed ==> exists r :: r in FootprintAll(es).refs && r.ns == ns
    decreases es
  {
    if es.Cons? {
      ProbedAreReferenced(es.head);
      AllProbedAreReferenced(es.tail);
    }
  }

  /** A chain probes only its own namespace. */
  lemma {:induction false} ChainProbe(e: Expr)
    ensures BoardChain(e).Some? ==> forall ns :: ns in ProbedBy(e) ==>
      |BoardChain(e).value.segs| >= 2 && BoardChain(e).value.segs[0] == ns
    decreases e
  {
    if e.Select? || e.Index? {
      ChainProbe(OperandOf(e));
    }
  }

  function Written(b: Slices, ns: string, key: string, v: Value): Slices {
    b[ns := (if ns in b then b[ns] else map[])[key := v]]
  }

  /** A write that referencesBoard rejects changes no value, except by creating a namespace that the
      expression probes with has(). */
  lemma RejectedWritesDoNotMatter(e: Expr, env: Env, ops: Ops, b: Slices, ns: string, key: string, v: Value)
    requires !FootprintOf(e).wild
    requires !References(Names(FootprintOf(e)), ns + "/" + key)
    requires ns in b || ns !in FootprintOf(e).probed
    ensures Eval(e, env[BOARD := BoardValue(b)], ops) == Eval(e, env[BOARD := BoardValue(Written(b, ns, key, v))], ops)
  {
    var f, after := FootprintOf(e), Written(b, ns, key, v);
    hide References, FootprintOf, Eval, Names;
    forall r | r in f.refs
      ensures if r.Whole? then r.ns != ns else !(r.ns == ns && r.key == key)
    {
      RejectedRef(f, r, ns, key);
    }
    WrittenAgrees(b, ns, key, v, f);
    EvalAgrees(e, env[BOARD := BoardValue(b)], env[BOARD := BoardValue(after)], ops, b, after);
  }

  /** A write is invisible to references that name another key or namespace. */
  lemma WrittenAgrees(b: Slices, ns: string, key: string, v: Value, f: Footprint)
    requires forall r :: r in f.refs ==> if r.Whole? then r.ns != ns else !(r.ns == ns && r.key == key)
    requires ns in b || ns !in f.probed
    ensures AgreeOn(b, Written(b, ns, key, v), f)
  {
    var after := Written(b, ns, key, v);
    forall r | r in f.refs && r.One? ensures Get(b, r.ns, r.key) == Get(after, r.ns, r.key) {
      if r.ns == ns {
        assert r.key != key;
      }
    }
  }

  lemma RejectedRef(f: Footprint, r: Ref, ns: string, key: string)
    requires r in f.refs && !References(Names(f), ns + "/" + key)
    ensures if r.Whole? then r.ns != ns else !(r.ns == ns && r.key == key)
  {
    hide References;
    assert RefName(r) in Names(f);
    if r.Whole? && r.ns == ns {
      WholeReferences(Names(f), ns, key);
    } else if r.One? && r.ns == ns && r.key == key {
      OneReferences(Names(f), ns, key);
    }
  }

  lemma WholeReferences(refs: set<string>, ns: string, key: string)
    requires ns + "/*" in refs
    ensures References(refs, ns + "/" + key)
  {
    var name := ns + "/*";
    assert name[|name| - 2..] == "/*";
    assert name[..|name| - 1] == ns + "/";
    assert name[..|name| - 1] <= ns + "/" + key;
  }

  lemma OneReferences(refs: set<string>, ns: string, key: string)
    requires ns + "/" + key in refs
    ensures References(refs, ns + "/" + key)
  {}

  /** The exception is real: has(board.ns.k) is the error value while the namespace is missing and false
      once any other key of it has been written, although that write is rejected by the filter. */
  lemma ProbedNamespaceMatters(ns: string, k: string, key: string, v: Value, env: Env, ops: Ops, b: Slices)
    requires k != key && k != "*" && NoSlash(k)
    ensures var e := Select(Select(Ident(BOARD), ns, false), k, true);
      && !FootprintOf(e).wild && FootprintOf(e).probed == {ns} && !References(Names(FootprintOf(e)), ns + "/" + key)
      && (ns in b <==>
            Eval(e, env[BOARD := BoardValue(b)], ops) == Eval(e, env[BOARD := BoardValue(Written(b, ns, key, v))], ops))
  {
    var e := Select(Select(Ident(BOARD), ns, false), k, true);
    ProbeFootprint(ns, k);
    ProbeRejects(ns, k, key);
    ProbeValue(ns, k, env, ops, b);
    ProbeValue(ns, k, env, ops, Written(b, ns, key, v));
    hide FootprintOf, References, Eval;
  }

  lemma ProbeFootprint(ns: string, k: string)
    ensures FootprintOf(Select(Select(Ident(BOARD), ns, false), k, true)) == Footprint({One(ns, k)}, false, {ns})
  {
    var inner := Select(Ident(BOARD), ns, false);
    assert BoardChain(Ident(BOARD)) == Some(Chain([], false));
    assert BoardChain(inner) == Some(Chain([ns], false)) by {
      assert [] + [ns] == [ns];
    }
    assert BoardChain(Select(inner, k, true)) == Some(Chain([ns, k], false)) by {
      assert [ns] + [k] == [ns, k];
    }
    var e := Select(inner, k, true);
    assert ProbedBy(inner) == {} && ProbedBy(e) == {ns};
    assert RefOf(Chain([ns, k], false)) == Footprint({One(ns, k)}, false, {});
    assert FootprintOf(e) == Footprint({One(ns, k)} + {}, false, {} + {ns});
  }

  lemma ProbeRejects(ns: string, k: string, key: string)
    requires k != key && k != "*" && NoSlash(k)
    ensures !References(Names(Footprint({One(ns, k)}, false, {ns})), ns + "/" + key)
  {
    var name := ns + "/" + k;
    assert Names(Footprint({One(ns, k)}, false, {ns})) == {name} by {
      assert RefName(One(ns, k)) == name;
    }
    assert name[|ns| + 1..] == k && (ns + "/" + key)[|ns| + 1..] == key;
    if |k| >= 2 {
      assert name[|name| - 2] == k[|k| - 2] && k[|k| - 2] in k;
      assert name[|name| - 2..][0] == name[|name| - 2];
    } else if |k| == 1 {
      assert name[|name| - 2..] == ['/'] + k;
    } else {
      assert name[|name| - 1] == '/';
    }
    assert !EndsWithStar(name);
  }

  lemma ProbeValue(ns: string, k: string, env: Env, ops: Ops, b: Slices)
    ensures Eval(Select(Select(Ident(BOARD), ns, false), k, true), env[BOARD := BoardValue(b)], ops)
         == if ns in b then VBool(k in b[ns]) else VErr
  {
    var inner := Select(Ident(BOARD), ns, false);
    assert Eval(inner, env[BOARD := BoardValue(b)], ops) == if ns in b then VMap(b[ns]) else VErr;
  }
}
