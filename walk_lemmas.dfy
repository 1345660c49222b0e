/**
 * Structural facts about the walk: how walking a run of siblings splits at
 * any point, and that an error part-way through a run is the run's error.
 */
module WalkLemmas {
  import opened Wrappers
  import opened Ast
  import opened HtmlSpec

  /** Once the walk of a prefix of the fragment has failed, the whole walk fails with that error. */
  lemma {:induction false} WalkNodesPrefixError(ns: seq<Node>, k: nat, o: Options, gen: Gen, owner: Node)
    requires forall i :: 0 <= i < |ns| ==> ns[i] < owner
    requires k <= |ns|
    requires WalkNodes(ns[..k], o, gen, owner).Err?
    ensures WalkNodes(ns, o, gen, owner) == WalkNodes(ns[..k], o, gen, owner)
    decreases |ns| - k
  {
    if k < |ns| {
      var init := ns[..|ns| - 1];
      assert init[..k] == ns[..k];
      WalkNodesPrefixError(init, k, o, gen, owner);
    } else {
      assert ns[..k] == ns;
    }
  }

  /** Once the walk of a prefix of the child fields has failed, the whole walk fails with that error. */
  lemma {:induction false} WalkChildrenPrefixError(cs: seq<Child>, k: nat, parentType: NodeType, o: Options, gen: Gen, owner: Node)
    requires forall i :: 0 <= i < |cs| ==> Below(cs[i], owner)
    requires k <= |cs|
    requires WalkChildren(cs[..k], parentType, o, gen, owner).Err?
    ensures WalkChildren(cs, parentType, o, gen, owner) == WalkChildren(cs[..k], parentType, o, gen, owner)
    decreases |cs| - k
  {
    if k < |cs| {
      var init := cs[..|cs| - 1];
      assert init[..k] == cs[..k];
      WalkChildrenPrefixError(init, k, parentType, o, gen, owner);
    } else {
      assert cs[..k] == cs;
    }
  }

  /** One more sibling: the walk up to and including node `i` is the walk before it, then node `i`. */
  lemma WalkNodesStep(ns: seq<Node>, i: nat, o: Options, gen: Gen, owner: Node)
    requires forall j :: 0 <= j < |ns| ==> ns[j] < owner
    requires i < |ns|
    ensures WalkNodes(ns[..i + 1], o, gen, owner) == Then(WalkNodes(ns[..i], o, gen, owner), Walk(ns[i], FragmentType, o, gen))
  {
    assert ns[..i + 1][..i] == ns[..i];
  }

  /** One more child field: the walk up to and including field `i` is the walk before it, then field `i`. */
  lemma WalkChildrenStep(cs: seq<Child>, i: nat, parentType: NodeType, o: Options, gen: Gen, owner: Node)
    requires forall j :: 0 <= j < |cs| ==> Below(cs[j], owner)
    requires i < |cs|
    ensures WalkChildren(cs[..i + 1], parentType, o, gen, owner)
         == Then(WalkChildren(cs[..i], parentType, o, gen, owner), WalkChild(cs[i], parentType, o, gen, owner))
  {
    assert cs[..i + 1][..i] == cs[..i];
  }

  /** A sibling added at the end: the walk is the walk of the earlier siblings, then the new one. */
  lemma WalkNodesPush(ns: seq<Node>, n: Node, o: Options, gen: Gen, owner: Node)
    requires forall i :: 0 <= i < |ns| ==> ns[i] < owner
    requires n < owner
    ensures forall i :: 0 <= i < |ns + [n]| ==> (ns + [n])[i] < owner
    ensures WalkNodes(ns + [n], o, gen, owner) == Then(WalkNodes(ns, o, gen, owner), Walk(n, FragmentType, o, gen))
  {
    assert (ns + [n])[..|ns|] == ns;
  }

  /** A child field added at the end: the walk is the walk of the earlier fields, then the new one. */
  lemma WalkChildrenPush(cs: seq<Child>, c: Child, parentType: NodeType, o: Options, gen: Gen, owner: Node)
    requires forall i :: 0 <= i < |cs| ==> Below(cs[i], owner)
    requires Below(c, owner)
    ensures forall i :: 0 <= i < |cs + [c]| ==> Below((cs + [c])[i], owner)
    ensures WalkChildren(cs + [c], parentType, o, gen, owner)
         == Then(WalkChildren(cs, parentType, o, gen, owner), WalkChild(c, parentType, o, gen, owner))
  {
    assert (cs + [c])[..|cs|] == cs;
  }

  /** A single sibling is walked as itself. */
  lemma WalkNodesSingle(n: Node, o: Options, gen: Gen, owner: Node)
    requires n < owner
    ensures WalkNodes([n], o, gen, owner) == Walk(n, FragmentType, o, gen)
  {
    assert [n][..0] == [];
    ThenUnit(Walk(n, FragmentType, o, gen));
  }

  /** A single child field is walked as itself. */
  lemma WalkChildrenSingle(c: Child, parentType: NodeType, o: Options, gen: Gen, owner: Node)
    requires Below(c, owner)
    ensures WalkChildren([c], parentType, o, gen, owner) == WalkChild(c, parentType, o, gen, owner)
  {
    assert [c][..0] == [];
    ThenUnit(WalkChild(c, parentType, o, gen, owner));
  }
}
