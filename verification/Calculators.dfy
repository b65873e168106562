/** The decorator tree that evaluates points (internal/leaderboard/score_calculator.go, lines 13 to 111). */
module Calculators {
  import opened U256
  import opened Sequences

  datatype Kind =
    | Base
    | Addition(value: u256)
    | Boosting(factor: u256)
    | Composite

  function Identity(): u256 -> nat {
    (x: u256) => x
  }

  /** The sum of a list of words, wrapped once at the end. */
  function WrappedSum(xs: seq<u256>): u256 {
    Wrap(SumBy(Identity(), xs))
  }

  /** What a decorator of this kind makes of the points below it. */
  function Decorate(kind: Kind, below: u256): u256
    requires kind.Addition? || kind.Boosting?
  {
    if kind.Addition? then Add(kind.value, below) else Div(Mul(kind.factor, below), 100)
  }

  lemma WrappedSumAppend(xs: seq<u256>, x: u256)
    ensures WrappedSum(xs + [x]) == Add(x, WrappedSum(xs))
  {
    assert (xs + [x])[..|xs|] == xs;
  }

  /** Replacing one term of a wrapped sum takes the old term off and puts the new one in. */
  lemma WrappedSumUpdate(xs: seq<u256>, i: nat, y: u256)
    requires i < |xs|
    ensures WrappedSum(xs[i := y]) == Add(Sub(WrappedSum(xs), xs[i]), y)
  {
    var ys := xs[i := y];
    assert Without(ys, i) == Without(xs, i);
    SumWithout(Identity(), xs, i);
    SumWithout(Identity(), ys, i);
    ReplaceTerm(SumBy(Identity(), Without(xs, i)), xs[i], y);
  }

  lemma ReplaceTerm(rest: nat, x: u256, y: u256)
    ensures Wrap(rest + y) == Add(Sub(Wrap(rest + x), x), y)
  {
  }

  class Calculator {
    const kind: Kind
    var inner: Calculator?
    var nodes: seq<Calculator>
    ghost var Repr: set<object>
    /** Bounds the depth of the tree and, in a composite, the number of nodes. */
    ghost var Height: nat

    ghost predicate Below(c: Calculator)
      reads this, c
    {
      c in Repr && c.Repr <= Repr && this !in c.Repr && c.Height < Height
    }

    /** The tree is acyclic; nodes may be shared. */
    ghost predicate Valid()
      reads this, Repr
      decreases Repr
    {
      && this in Repr
      && (inner != null ==> inner in Repr && Below(inner) && inner.Valid())
      && (forall n <- nodes :: n in Repr && Below(n) && n.Valid())
      && (if kind.Composite? then |nodes| < Height else nodes == [])
      && (kind.Base? || kind.Composite? ==> inner == null)
    }

    ghost function Points(): u256
      requires Valid()
      reads this, Repr
      decreases Repr, 1
    {
      match kind
      case Base => 0
      case Addition(value) => if inner == null then value else Decorate(kind, inner.Points())
      case Boosting(_) => if inner == null then 0 else Decorate(kind, inner.Points())
      case Composite => WrappedSum(Contributions(|nodes|))
    }

    /** The points of the first `k` nodes of a composite. */
    ghost function Contributions(k: nat): (xs: seq<u256>)
      requires Valid() && k <= |nodes|
      reads this, Repr
      ensures |xs| == k && forall i :: 0 <= i < k ==> xs[i] == nodes[i].Points()
      decreases Repr, 0, k
    {
      if k == 0 then [] else Contributions(k - 1) + [nodes[k - 1].Points()]
    }

    /** The points this calculator will have once it aggregates a node with the given points. */
    ghost function Decorated(below: u256): u256
      requires Valid()
      reads this, Repr
    {
      if kind.Addition? || kind.Boosting? then Decorate(kind, below) else Points()
    }

    constructor NewBase()
      ensures Valid() && fresh(Repr) && kind == Base && Height == 0
      ensures Points() == 0
    {
      kind, inner, nodes := Base, null, [];
      Repr, Height := {this}, 0;
    }

    constructor NewComposite()
      ensures Valid() && fresh(Repr) && kind == Composite && nodes == []
    {
      kind, inner, nodes := Composite, null, [];
      Repr, Height := {this}, 1;
    }

    constructor NewAddition(value: u256, inner: Calculator?)
      requires inner != null ==> inner.Valid()
      ensures Valid() && kind == Addition(value) && this.inner == inner
      ensures Repr == {this} + if inner == null then {} else inner.Repr
      ensures Height == if inner == null then 0 else inner.Height + 1
      ensures Points() == if inner == null then value else U256.Add(value, inner.Points())
    {
      kind, this.inner, nodes := Addition(value), inner, [];
      Repr := {this} + if inner == null then {} else inner.Repr;
      Height := if inner == null then 0 else inner.Height + 1;
    }

    constructor NewBoost(factor: u256, inner: Calculator?)
      requires inner != null ==> inner.Valid()
      ensures Valid() && kind == Boosting(factor) && this.inner == inner
      ensures Repr == {this} + if inner == null then {} else inner.Repr
      ensures Height == if inner == null then 0 else inner.Height + 1
      ensures Points() == if inner == null then 0 else Div(Mul(factor, inner.Points()), 100)
    {
      kind, this.inner, nodes := Boosting(factor), inner, [];
      Repr := {this} + if inner == null then {} else inner.Repr;
      Height := if inner == null then 0 else inner.Height + 1;
    }

    /** Evaluates the tree; a composite first builds a chain of additions over its nodes. */
    method GetPoints() returns (points: u256)
      requires Valid()
      ensures points == Points()
      decreases Height, 3
    {
      if kind.Base? {
        points := 0;
      } else if kind.Composite? {
        points := ChainPoints();
      } else if inner == null {
        points := if kind.Addition? then kind.value else 0;
      } else {
        var below := inner.GetPoints();
        points := Decorate(kind, below);
      }
    }

    /** One more addition around a chain that so far sums the first `i` values. */
    static method Extend(chain: Calculator, ghost xs: seq<u256>, i: nat, value: u256) returns (longer: Calculator)
      requires i < |xs| && xs[i] == value
      requires chain.Valid() && chain.Height == i && chain.Points() == WrappedSum(xs[..i])
      ensures longer.Valid() && fresh(longer.Repr - chain.Repr) && longer.Height == i + 1
      ensures longer.Points() == WrappedSum(xs[..i + 1])
    {
      longer := new Calculator.NewAddition(value, chain);
      WrappedSumAppend(xs[..i], value);
      assert xs[..i + 1] == xs[..i] + [xs[i]];
    }

    /** One round of the loop: the chain grows by the points of node `i`. */
    method ChainNode(chain: Calculator, ghost xs: seq<u256>, i: nat) returns (longer: Calculator)
      requires Valid() && i < |nodes| && xs == Contributions(|nodes|)
      requires chain.Valid() && chain.Height == i && chain.Points() == WrappedSum(xs[..i])
      ensures longer.Valid() && fresh(longer.Repr - chain.Repr) && longer.Height == i + 1
      ensures longer.Points() == WrappedSum(xs[..i + 1])
      decreases Height, 1
    {
      var value := NodePoints(i);
      longer := Extend(chain, xs, i, value);
    }

    method ChainPoints() returns (points: u256)
      requires Valid() && kind.Composite?
      ensures points == Points()
      decreases Height, 2
    {
      ghost var xs := Contributions(|nodes|);
      var chain := new Calculator.NewBase();
      assert xs[..0] == [];
      for i := 0 to |nodes|
        invariant chain.Valid() && fresh(chain.Repr) && chain.Height == i
        invariant chain.Points() == WrappedSum(xs[..i])
      {
        chain := ChainNode(chain, xs, i);
      }
      assert xs[..|nodes|] == xs;
      points := chain.GetPoints();
    }

    method NodePoints(i: nat) returns (points: u256)
      requires Valid() && i < |nodes|
      ensures points == nodes[i].Points()
      decreases Height, 0
    {
      assert Below(nodes[i]);
      points := nodes[i].GetPoints();
    }

    /** A decorator takes the node as its inner calculator; the other kinds ignore it. */
    method Aggregate(n: Calculator)
      requires Valid() && n.Valid() && this !in n.Repr
      modifies this
      ensures Valid() && nodes == old(nodes)
      ensures kind.Addition? || kind.Boosting? ==>
        inner == n && Repr == {this} + n.Repr && Points() == Decorate(kind, n.Points())
      ensures kind.Addition? ==> Points() == U256.Add(kind.value, n.Points())
      ensures kind.Boosting? ==> Points() == Div(Mul(kind.factor, n.Points()), 100)
      ensures kind.Base? || kind.Composite? ==> Repr == old(Repr) && Points() == old(Points())
    {
      if kind.Addition? || kind.Boosting? {
        inner := n;
        Repr, Height := {this} + n.Repr, n.Height + 1;
      }
    }

    method Add(node: Calculator)
      requires Valid() && kind.Composite? && node.Valid() && this !in node.Repr
      modifies this
      ensures Valid() && nodes == old(nodes) + [node]
      ensures Contributions(|nodes|) == old(Contributions(|nodes|)) + [node.Points()]
      ensures Points() == U256.Add(node.Points(), old(Points()))
    {
      ghost var before := Contributions(|nodes|);
      WrappedSumAppend(before, node.Points());
      SetNodes(nodes + [node], node);
      assert Contributions(|nodes|) == before + [node.Points()];
    }

    /** Wraps the `i`-th node, or replaces it when `node` is no decorator: nothing but that contribution changes. */
    method AddLeaf(i: nat, node: Calculator)
      requires Valid() && kind.Composite? && i < |nodes|
      requires node.Valid() && node !in Repr && this !in node.Repr
      modifies this, node
      ensures Valid() && nodes == old(nodes)[i := node]
      ensures Contributions(|nodes|) == old(Contributions(|nodes|))[i := old(node.Decorated(nodes[i].Points()))]
      ensures Points() == WrappedSum(Contributions(|nodes|))
    {
      ghost var before := Contributions(|nodes|);
      WrapNode(i, node, before);
      ReplaceNode(i, node, before);
    }

    /** The decorator takes the node; the tree itself is not touched. */
    method WrapNode(i: nat, node: Calculator, ghost xs: seq<u256>)
      requires Valid() && kind.Composite? && i < |nodes| && xs == Contributions(|nodes|)
      requires node.Valid() && node !in Repr && this !in node.Repr
      modifies node
      ensures Valid() && node.Valid() && this !in node.Repr && Contributions(|nodes|) == xs
      ensures node.Points() == old(node.Decorated(xs[i]))
    {
      assert Below(nodes[i]);
      node.Aggregate(nodes[i]);
    }

    method ReplaceNode(i: nat, node: Calculator, ghost xs: seq<u256>)
      requires Valid() && kind.Composite? && i < |nodes| && xs == Contributions(|nodes|)
      requires node.Valid() && this !in node.Repr
      modifies this
      ensures Valid() && nodes == old(nodes)[i := node]
      ensures Contributions(|nodes|) == xs[i := node.Points()]
    {
      SetNodes(nodes[i := node], node);
      assert Contributions(|nodes|) == xs[i := node.Points()];
    }

    /** Replaces the list of nodes by one over the old nodes and `added`. */
    method SetNodes(list: seq<Calculator>, added: Calculator)
      requires Valid() && kind.Composite? && added.Valid() && this !in added.Repr
      requires |list| <= |nodes| + 1 && forall n <- list :: n in nodes || n == added
      modifies this
      ensures Valid() && nodes == list
      ensures forall n <- list :: n.Valid() && n.Points() == old(n.Points())
    {
      assert forall n <- list :: n != added ==> Below(n);
      nodes := list;
      Repr := Repr + added.Repr;
      Height := Height + added.Height + 1;
      assert forall n <- list :: Below(n);
    }
  }
}
