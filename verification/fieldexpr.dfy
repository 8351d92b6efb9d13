/** Graph API field expressions: a comma-separated list of fields, where a
    field is a plain name or an edge `name{…}` with its own field list,
    optionally carrying a modifier as in `media.after(c){…}` or
    `business_discovery.username(u){…}`.

    The client builds these expressions by string concatenation. This module
    gives them a tree form, renders trees to text, and measures the braces of
    any text, so that the expressions the client writes can be shown to equal
    the rendering of a tree and to be brace-balanced with a known depth. */
module FieldExpr {
  import opened Strings

  /** An optional modifier `.param(value)` on an edge. */
  datatype Modifier = NoModifier | Modifier(param: string, value: string)

  datatype Field =
    | Leaf(name: string)
    | Edge(name: string, modifier: Modifier, sub: seq<Field>)

  function ModifierText(m: Modifier): string {
    match m
    case NoModifier => ""
    case Modifier(p, v) => "." + p + "(" + v + ")"
  }

  function Render(f: Field): string
    decreases f
  {
    match f
    case Leaf(n) => n
    case Edge(n, m, sub) => n + ModifierText(m) + "{" + RenderList(sub) + "}"
  }

  /** The fields rendered and joined with commas. */
  function RenderList(fs: seq<Field>): string
    decreases fs
  {
    if |fs| == 0 then ""
    else if |fs| == 1 then Render(fs[0])
    else Render(fs[0]) + "," + RenderList(fs[1..])
  }

  /** The leaves named by `names`, in order. */
  function Leaves(names: seq<string>): (fs: seq<Field>)
    ensures |fs| == |names|
    ensures forall i :: 0 <= i < |names| ==> fs[i] == Leaf(names[i])
  {
    if |names| == 0 then [] else [Leaf(names[0])] + Leaves(names[1..])
  }

  /** A list of plain names renders as their comma join. */
  lemma {:induction false} RenderLeaves(names: seq<string>)
    ensures RenderList(Leaves(names)) == Join(",", names)
    decreases |names|
  {
    if |names| > 1 {
      RenderLeaves(names[1..]);
      assert Leaves(names)[1..] == Leaves(names[1..]);
    }
  }

  /** Rendering a list with one more field appended. */
  lemma {:induction false} RenderListSnoc(fs: seq<Field>, f: Field)
    ensures RenderList(fs + [f]) == if |fs| == 0 then Render(f) else RenderList(fs) + "," + Render(f)
    decreases |fs|
  {
    if |fs| > 1 {
      RenderListSnoc(fs[1..], f);
      assert (fs + [f])[1..] == fs[1..] + [f];
    } else if |fs| == 1 {
      assert (fs + [f])[1..] == [f];
    }
  }

  /** Rendering two non-empty lists one after the other puts a comma
      between their renderings. */
  lemma {:induction false} RenderListConcat(xs: seq<Field>, ys: seq<Field>)
    requires |xs| > 0 && |ys| > 0
    ensures RenderList(xs + ys) == RenderList(xs) + "," + RenderList(ys)
    decreases |xs|
  {
    if |xs| == 1 {
      assert (xs + ys)[1..] == ys;
    } else {
      RenderListConcat(xs[1..], ys);
      assert (xs + ys)[1..] == xs[1..] + ys;
    }
  }

  lemma {:induction false} DepthListConcat(xs: seq<Field>, ys: seq<Field>)
    ensures DepthList(xs + ys) == Max(DepthList(xs), DepthList(ys))
    decreases |xs|
  {
    if |xs| == 0 {
      assert xs + ys == ys;
    } else {
      DepthListConcat(xs[1..], ys);
      assert (xs + ys)[1..] == xs[1..] + ys;
    }
  }

  // ---------------------------------------------------------------------------
  // Brace measures
  // ---------------------------------------------------------------------------

  function Delta(c: char): int {
    if c == '{' then 1 else if c == '}' then -1 else 0
  }

  /** Opening braces minus closing braces. */
  function Net(s: string): int
    decreases |s|
  {
    if |s| == 0 then 0 else Delta(s[0]) + Net(s[1..])
  }

  /** The least `Net` of a prefix (never above 0: the empty prefix counts). */
  function Low(s: string): int
    decreases |s|
  {
    if |s| == 0 then 0 else Min(0, Delta(s[0]) + Low(s[1..]))
  }

  /** The greatest `Net` of a prefix: the deepest nesting reached. */
  function High(s: string): int
    decreases |s|
  {
    if |s| == 0 then 0 else Max(0, Delta(s[0]) + High(s[1..]))
  }

  function Min(a: int, b: int): int { if a <= b then a else b }
  function Max(a: int, b: int): int { if a >= b then a else b }

  /** Balanced braces in the usual sense: as many closing as opening braces,
      and no prefix closes more than it has opened. */
  predicate Balanced(s: string) {
    Net(s) == 0 && forall k :: 0 <= k <= |s| ==> Net(s[..k]) >= 0
  }

  /** Every prefix reaches nesting depth at most `d`, and some prefix
      reaches it. */
  predicate HasDepth(s: string, d: int) {
    (forall k :: 0 <= k <= |s| ==> Net(s[..k]) <= d) &&
    (exists k :: 0 <= k <= |s| && Net(s[..k]) == d)
  }

  lemma PrefixNet(s: string, k: nat)
    requires 1 <= k <= |s|
    ensures Net(s[..k]) == Delta(s[0]) + Net(s[1..][..k - 1])
  {
    assert s[..k][1..] == s[1..][..k - 1];
  }

  /** `Low` and `High` are the least and greatest prefix `Net`. */
  lemma {:induction false} PrefixExtremes(s: string)
    ensures forall k :: 0 <= k <= |s| ==> Low(s) <= Net(s[..k]) <= High(s)
    ensures exists k :: 0 <= k <= |s| && Net(s[..k]) == Low(s)
    ensures exists k :: 0 <= k <= |s| && Net(s[..k]) == High(s)
    decreases |s|
  {
    assert s[..0] == "";
    if |s| > 0 {
      var t := s[1..];
      PrefixExtremes(t);
      forall k | 1 <= k <= |s| ensures Low(s) <= Net(s[..k]) <= High(s) {
        PrefixNet(s, k);
      }
      var kl :| 0 <= kl <= |t| && Net(t[..kl]) == Low(t);
      var kh :| 0 <= kh <= |t| && Net(t[..kh]) == High(t);
      PrefixNet(s, kl + 1);
      PrefixNet(s, kh + 1);
      if Low(s) == 0 {
        assert Net(s[..0]) == Low(s);
      } else {
        assert Net(s[..kl + 1]) == Low(s);
      }
      if High(s) == 0 {
        assert Net(s[..0]) == High(s);
      } else {
        assert Net(s[..kh + 1]) == High(s);
      }
    }
  }

  /** The measures characterise balance and depth. */
  lemma BalancedIff(s: string)
    ensures Balanced(s) <==> Net(s) == 0 && Low(s) == 0
    ensures HasDepth(s, High(s))
  {
    PrefixExtremes(s);
    assert s[..0] == "";
  }

  /** How the measures combine over a concatenation. */
  lemma {:induction false} MeasuresConcat(a: string, b: string)
    ensures Net(a + b) == Net(a) + Net(b)
    ensures Low(a + b) == Min(Low(a), Net(a) + Low(b))
    ensures High(a + b) == Max(High(a), Net(a) + High(b))
    decreases |a|
  {
    if |a| == 0 {
      assert a + b == b;
      assert Low(b) <= 0 <= High(b) by { PrefixExtremes(b); assert b[..0] == ""; }
    } else {
      MeasuresConcat(a[1..], b);
      assert (a + b)[1..] == a[1..] + b;
    }
  }

  predicate BraceFree(s: string) {
    '{' !in s && '}' !in s
  }

  lemma {:induction false} BraceFreeMeasures(s: string)
    requires BraceFree(s)
    ensures Net(s) == 0 && Low(s) == 0 && High(s) == 0
    decreases |s|
  {
    if |s| > 0 {
      assert s[0] in s;
      assert BraceFree(s[1..]) by {
        forall c | c in s[1..] ensures c in s { }
      }
      BraceFreeMeasures(s[1..]);
    }
  }

  lemma BraceFreeConcat(a: string, b: string)
    requires BraceFree(a) && BraceFree(b)
    ensures BraceFree(a + b)
  {
    forall c | c in a + b ensures c in a || c in b {
      var k :| 0 <= k < |a + b| && (a + b)[k] == c;
      if k < |a| { assert a[k] == c; } else { assert b[k - |a|] == c; }
    }
  }

  // ---------------------------------------------------------------------------
  // Trees render balanced
  // ---------------------------------------------------------------------------

  /** No name or modifier in the tree contains a brace. */
  predicate Clean(f: Field)
    decreases f
  {
    match f
    case Leaf(n) => BraceFree(n)
    case Edge(n, m, sub) =>
      BraceFree(n) && BraceFree(ModifierText(m)) && forall i :: 0 <= i < |sub| ==> Clean(sub[i])
  }

  /** The nesting depth of a tree: 0 for a leaf. */
  function Depth(f: Field): nat
    decreases f
  {
    match f
    case Leaf(_) => 0
    case Edge(_, _, sub) => 1 + DepthList(sub)
  }

  function DepthList(fs: seq<Field>): nat
    decreases fs
  {
    if |fs| == 0 then 0 else Max(Depth(fs[0]), DepthList(fs[1..]))
  }

  /** A clean tree renders to balanced text whose depth is the tree's. */
  lemma {:induction false} RenderMeasures(f: Field)
    requires Clean(f)
    ensures Net(Render(f)) == 0 && Low(Render(f)) == 0 && High(Render(f)) == Depth(f)
    decreases f
  {
    match f
    case Leaf(n) =>
      BraceFreeMeasures(n);
    case Edge(n, m, sub) =>
      var head := n + ModifierText(m);
      BraceFreeConcat(n, ModifierText(m));
      BraceFreeMeasures(head);
      RenderListMeasures(sub);
      var body := RenderList(sub);
      assert Render(f) == head + ("{" + (body + "}"));
      MeasuresConcat(body, "}");
      MeasuresConcat("{", body + "}");
      MeasuresConcat(head, "{" + (body + "}"));
  }

  lemma {:induction false} RenderListMeasures(fs: seq<Field>)
    requires forall i :: 0 <= i < |fs| ==> Clean(fs[i])
    ensures Net(RenderList(fs)) == 0 && Low(RenderList(fs)) == 0 && High(RenderList(fs)) == DepthList(fs)
    decreases fs
  {
    if |fs| == 1 {
      RenderMeasures(fs[0]);
      assert fs[1..] == [];
    } else if |fs| > 1 {
      RenderMeasures(fs[0]);
      RenderListMeasures(fs[1..]);
      var a, b := Render(fs[0]), RenderList(fs[1..]);
      assert RenderList(fs) == a + ("," + b);
      MeasuresConcat(",", b);
      MeasuresConcat(a, "," + b);
    }
  }

  /** Hence the rendering of a clean tree is balanced with the tree's depth. */
  lemma RenderBalanced(fs: seq<Field>)
    requires forall i :: 0 <= i < |fs| ==> Clean(fs[i])
    ensures Balanced(RenderList(fs))
    ensures HasDepth(RenderList(fs), DepthList(fs))
  {
    RenderListMeasures(fs);
    BalancedIff(RenderList(fs));
  }

  /** Brace-free names make clean leaves. */
  lemma LeavesClean(names: seq<string>)
    requires forall i :: 0 <= i < |names| ==> BraceFree(names[i])
    ensures forall i :: 0 <= i < |names| ==> Clean(Leaves(names)[i])
    ensures DepthList(Leaves(names)) == 0
  {
    if |names| > 0 {
      LeavesClean(names[1..]);
      assert Leaves(names)[1..] == Leaves(names[1..]);
    }
  }
}
