/**
 * The demo ordering computed when a node-list screen is created for a catalog
 * node: keep the example children, put the primary demos first while keeping
 * the order inside each group, and take the screen's description from the
 * first demo of that order.
 *
 * In the Swift initialiser the ordered list is a local value; only the
 * description derived from it is stored in the screen.
 */
module NodeList {
  import opened Options
  import opened CatalogNodes
  import opened Sequences

  /** The children of `node` that are examples, in registration order. */
  function Examples(node: CatalogNode): (r: seq<CatalogNode>)
    ensures |r| <= |node.children|
  {
    Filter(node.children, IsExample)
  }

  /** The primary demos followed by the other demos. */
  function OrderedDemos(node: CatalogNode): (r: seq<CatalogNode>) {
    var examples := Examples(node);
    Filter(examples, IsPrimaryDemo) + Filter(examples, IsNonPrimaryDemo)
  }

  /** The description stored in the screen: that of the first ordered demo, or "". */
  function ComponentDescription(node: CatalogNode): (r: string) {
    var demos := OrderedDemos(node);
    if demos == [] then "" else demos[0].exampleDescription.GetOr("")
  }

  /** The ordered list holds exactly the example children of the node. */
  lemma OrderedDemosAreTheExamples(node: CatalogNode)
    ensures forall d :: d in OrderedDemos(node) <==> d in node.children && d.isExample
  {
    var examples := Examples(node);
    FilterMembers(node.children, IsExample);
    FilterMembers(examples, IsPrimaryDemo);
    FilterMembers(examples, IsNonPrimaryDemo);
  }

  /** Every primary demo comes before every non-primary demo. */
  lemma {:induction false} OrderedDemosPrimaryFirst(node: CatalogNode)
    ensures Partitioned(OrderedDemos(node), IsPrimaryDemo)
  {
    var examples := Examples(node);
    var primary, other := Filter(examples, IsPrimaryDemo), Filter(examples, IsNonPrimaryDemo);
    var demos := OrderedDemos(node);
    FilterMembers(examples, IsPrimaryDemo);
    FilterMembers(examples, IsNonPrimaryDemo);
    forall i, j | 0 <= i < j < |demos| && IsPrimaryDemo(demos[j]) ensures IsPrimaryDemo(demos[i]) {
      if i >= |primary| {
        assert false;
      }
      assert demos[i] == primary[i];
      assert demos[i] in primary;
    }
  }

  /** Inside each group the demos keep their order among the example children. */
  lemma {:induction false} OrderedDemosStable(node: CatalogNode)
    ensures Filter(OrderedDemos(node), IsPrimaryDemo) == Filter(Examples(node), IsPrimaryDemo)
    ensures Filter(OrderedDemos(node), IsNonPrimaryDemo) == Filter(Examples(node), IsNonPrimaryDemo)
  {
    var examples := Examples(node);
    var primary, other := Filter(examples, IsPrimaryDemo), Filter(examples, IsNonPrimaryDemo);
    FilterConcat(primary, other, IsPrimaryDemo);
    FilterConcat(primary, other, IsNonPrimaryDemo);
    FilterFilter(examples, IsPrimaryDemo, IsPrimaryDemo, IsPrimaryDemo);
    FilterFilter(examples, IsNonPrimaryDemo, IsNonPrimaryDemo, IsNonPrimaryDemo);
    FilterMembers(examples, IsPrimaryDemo);
    FilterMembers(examples, IsNonPrimaryDemo);
    forall i | 0 <= i < |primary| ensures !IsNonPrimaryDemo(primary[i]) {
      assert primary[i] in primary;
    }
    forall i | 0 <= i < |other| ensures !IsPrimaryDemo(other[i]) {
      assert other[i] in other;
    }
    FilterDropsAll(primary, IsNonPrimaryDemo);
    FilterDropsAll(other, IsPrimaryDemo);
  }

  /** The primary demos appear in the order in which they are children of the node. */
  lemma OrderedPrimaryDemosFollowChildren(node: CatalogNode)
    ensures Filter(OrderedDemos(node), IsPrimaryDemo) == Filter(node.children, IsPrimaryExample)
  {
    OrderedDemosStable(node);
    FilterFilter(node.children, IsExample, IsPrimaryDemo, IsPrimaryExample);
  }

  /** The ordered list is a rearrangement of the example children. */
  lemma OrderedDemosPermutation(node: CatalogNode)
    ensures multiset(OrderedDemos(node)) == multiset(Examples(node))
    ensures |OrderedDemos(node)| == |Examples(node)|
  {
    FilterComplementMultiset(Examples(node), IsPrimaryDemo, IsNonPrimaryDemo);
    assert |multiset(OrderedDemos(node))| == |multiset(Examples(node))|;
  }

  /** The three properties above determine the ordered list: it is the stable partition. */
  lemma OrderedDemosUnique(node: CatalogNode, r: seq<CatalogNode>)
    requires Partitioned(r, IsPrimaryDemo)
    requires Filter(r, IsPrimaryDemo) == Filter(Examples(node), IsPrimaryDemo)
    requires Filter(r, IsNonPrimaryDemo) == Filter(Examples(node), IsNonPrimaryDemo)
    ensures r == OrderedDemos(node)
  {
    PartitionedSplits(r, IsPrimaryDemo, IsNonPrimaryDemo);
  }

  /** Without any primary demo the examples keep their original order. */
  lemma OrderedDemosWithoutPrimary(node: CatalogNode)
    requires forall i :: 0 <= i < |node.children| && node.children[i].isExample ==> !node.children[i].isPrimaryDemo
    ensures OrderedDemos(node) == Examples(node)
  {
    var examples := Examples(node);
    FilterMembers(node.children, IsExample);
    forall i | 0 <= i < |examples| ensures !IsPrimaryDemo(examples[i]) {
      assert examples[i] in examples;
    }
    FilterDropsAll(examples, IsPrimaryDemo);
    FilterKeepsAll(examples, IsNonPrimaryDemo);
  }

  /** The description is that of the first child that is a primary example. */
  lemma DescriptionOfFirstPrimaryExample(node: CatalogNode, i: nat)
    requires i < |node.children| && IsPrimaryExample(node.children[i])
    requires forall j :: 0 <= j < i ==> !IsPrimaryExample(node.children[j])
    ensures ComponentDescription(node) == node.children[i].exampleDescription.GetOr("")
  {
    FilterFirst(node.children, IsPrimaryExample, i);
    FilterFilter(node.children, IsExample, IsPrimaryDemo, IsPrimaryExample);
  }

  /** Without a primary example, the description is that of the first example child. */
  lemma DescriptionOfFirstExample(node: CatalogNode, i: nat)
    requires forall j :: 0 <= j < |node.children| ==> !IsPrimaryExample(node.children[j])
    requires i < |node.children| && IsExample(node.children[i])
    requires forall j :: 0 <= j < i ==> !IsExample(node.children[j])
    ensures ComponentDescription(node) == node.children[i].exampleDescription.GetOr("")
  {
    OrderedDemosWithoutPrimary(node);
    FilterFirst(node.children, IsExample, i);
  }

  /** A node without example children gets the empty description. */
  lemma DescriptionWithoutExamples(node: CatalogNode)
    requires forall j :: 0 <= j < |node.children| ==> !node.children[j].isExample
    ensures ComponentDescription(node) == ""
  {
    FilterDropsAll(node.children, IsExample);
  }

  /** Filtering four elements of which the second and the fourth satisfy `p`. */
  lemma FilterAlternating(a: CatalogNode, b: CatalogNode, c: CatalogNode, d: CatalogNode, p: CatalogNode -> bool)
    requires !p(a) && p(b) && !p(c) && p(d)
    ensures Filter([a, b, c, d], p) == [b, d]
  {
    assert [a, b, c, d][1..] == [b, c, d] && [b, c, d][1..] == [c, d] && [c, d][1..] == [d];
    assert Filter([d], p) == [d];
    assert Filter([c, d], p) == [d];
    assert Filter([b, c, d], p) == [b, d];
  }

  /** Filtering four elements of which the first and the third satisfy `p`. */
  lemma FilterAlternatingFirst(a: CatalogNode, b: CatalogNode, c: CatalogNode, d: CatalogNode, p: CatalogNode -> bool)
    requires p(a) && !p(b) && p(c) && !p(d)
    ensures Filter([a, b, c, d], p) == [a, c]
  {
    assert [a, b, c, d][1..] == [b, c, d] && [b, c, d][1..] == [c, d] && [c, d][1..] == [d];
    assert Filter([d], p) == [];
    assert Filter([c, d], p) == [c];
    assert Filter([b, c, d], p) == [c];
  }

  /** Children `[A, B, C, D]` where only B and D are primary are ordered `[B, D, A, C]`. */
  lemma StablePartitionExample(node: CatalogNode, a: CatalogNode, b: CatalogNode, c: CatalogNode, d: CatalogNode)
    requires node.children == [a, b, c, d]
    requires a.isExample && b.isExample && c.isExample && d.isExample
    requires !a.isPrimaryDemo && b.isPrimaryDemo && !c.isPrimaryDemo && d.isPrimaryDemo
    ensures OrderedDemos(node) == [b, d, a, c]
    ensures ComponentDescription(node) == b.exampleDescription.GetOr("")
  {
    FilterKeepsAll(node.children, IsExample);
    FilterAlternating(a, b, c, d, IsPrimaryDemo);
    FilterAlternatingFirst(a, b, c, d, IsNonPrimaryDemo);
    assert OrderedDemos(node) == [b, d] + [a, c];
  }
}
