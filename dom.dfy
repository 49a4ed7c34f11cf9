/**
 The document tree that PHP's DOMDocument builds for the feed, reduced to
 what the feed builder uses: elements with ordered attributes and children,
 text nodes and CDATA sections. Serialisation to XML text is not modelled.
 */
module Dom {

  datatype Node =
    | Elem(name: string, attrs: seq<(string, string)>, kids: seq<Node>)
    | Text(text: string)
    | CData(data: string)

  /** `$dom->createElement(name, value)`: an element holding one text node. */
  function TextElem(name: string, value: string): Node
  {
    Elem(name, [], [Text(value)])
  }

  /** An element that holds one CDATA section. */
  function CDataElem(name: string, data: string): Node
  {
    Elem(name, [], [CData(data)])
  }

  predicate IsElem(n: Node, name: string)
  {
    n.Elem? && n.name == name
  }

  /** Some element of the tree rooted at `n`, `n` included, is named `name`. */
  predicate Has(n: Node, name: string)
  {
    n.Elem? && (n.name == name || exists k :: 0 <= k < |n.kids| && Has(n.kids[k], name))
  }

  /** The first of `kids` whose subtree holds an element named `name`. */
  function FirstHolding(kids: seq<Node>, name: string): (k: nat)
    requires exists j :: 0 <= j < |kids| && Has(kids[j], name)
    ensures k < |kids| && Has(kids[k], name)
    ensures forall j :: 0 <= j < k ==> !Has(kids[j], name)
  {
    if Has(kids[0], name) then 0
    else
      assert exists j :: 0 <= j < |kids[1..]| && Has(kids[1..][j], name) by {
        var j :| 0 <= j < |kids| && Has(kids[j], name);
        assert kids[1..][j - 1] == kids[j];
      }
      1 + FirstHolding(kids[1..], name)
  }

  /** `$dom->getElementsByTagName(name)->item(0)->appendChild(child)`: the
      first element named `name` in document order (the root, then each
      child's subtree from left to right) gains `child` as its last child. */
  function AppendToFirst(n: Node, name: string, child: Node): (r: Node)
    requires Has(n, name)
    ensures r.Elem? && r.name == n.name && r.attrs == n.attrs && |r.kids| >= |n.kids|
    ensures Has(r, name)
  {
    if n.name == name then n.(kids := n.kids + [child])
    else
      var k := FirstHolding(n.kids, name);
      var r := n.(kids := n.kids[k := AppendToFirst(n.kids[k], name, child)]);
      assert r.kids[k] == AppendToFirst(n.kids[k], name, child);
      r
  }

  /** Under a root that is not itself named `name` and whose one child is,
      the append lands at the end of that child and nowhere else. */
  lemma AppendUnderRoot(root: string, attrs: seq<(string, string)>, name: string,
                        cattrs: seq<(string, string)>, kids: seq<Node>, child: Node)
    requires root != name
    ensures Has(Elem(root, attrs, [Elem(name, cattrs, kids)]), name)
    ensures AppendToFirst(Elem(root, attrs, [Elem(name, cattrs, kids)]), name, child)
            == Elem(root, attrs, [Elem(name, cattrs, kids + [child])])
  {
    var n := Elem(root, attrs, [Elem(name, cattrs, kids)]);
    assert Has(n.kids[0], name);
    assert FirstHolding(n.kids, name) == 0;
  }

  /** The elements named `name` among `ns`, in order. */
  function Named(ns: seq<Node>, name: string): (r: seq<Node>)
    ensures |r| <= |ns|
    ensures forall k :: 0 <= k < |r| ==> IsElem(r[k], name)
  {
    if ns == [] then []
    else
      var last := ns[|ns| - 1];
      Named(ns[..|ns| - 1], name) + (if IsElem(last, name) then [last] else [])
  }

  lemma {:induction false} NamedConcat(a: seq<Node>, b: seq<Node>, name: string)
    ensures Named(a + b, name) == Named(a, name) + Named(b, name)
    decreases |b|
  {
    if b == [] {
      assert a + b == a;
    } else {
      var b' := b[..|b| - 1];
      assert (a + b)[..|a + b| - 1] == a + b';
      assert (a + b)[|a + b| - 1] == b[|b| - 1];
      NamedConcat(a, b', name);
    }
  }

  lemma {:induction false} NamedAll(ns: seq<Node>, name: string)
    requires AllNamed(ns, name)
    ensures Named(ns, name) == ns
    decreases |ns|
  {
    if ns != [] {
      var init, last := ns[..|ns| - 1], ns[|ns| - 1];
      assert AllNamed(init, name) by {
        forall k | 0 <= k < |init| ensures IsElem(init[k], name) {
          assert init[k] == ns[k];
        }
      }
      NamedAll(init, name);
      assert IsElem(last, name);
      calc {
        Named(ns, name);
        Named(init, name) + [last];
        init + [last];
        ns;
      }
    }
  }

  lemma {:induction false} NamedNone(ns: seq<Node>, name: string)
    requires forall k :: 0 <= k < |ns| ==> !IsElem(ns[k], name)
    ensures Named(ns, name) == []
    decreases |ns|
  {
    if ns != [] {
      NamedNone(ns[..|ns| - 1], name);
    }
  }

  // ---------------------------------------------------------------------
  // Children laid out in fixed slots. The feed writes the children of the
  // channel and of each item in a fixed order of element names, each name
  // contributing zero or more elements; `parts[j]` holds what slot j wrote.

  /** The children, slot after slot. */
  function Flatten(parts: seq<seq<Node>>): seq<Node>
  {
    if parts == [] then [] else Flatten(parts[..|parts| - 1]) + parts[|parts| - 1]
  }

  lemma FlattenSnoc(parts: seq<seq<Node>>, part: seq<Node>)
    ensures Flatten(parts + [part]) == Flatten(parts) + part
  {
    assert (parts + [part])[..|parts|] == parts;
  }

  predicate Distinct(names: seq<string>)
  {
    forall i, j :: 0 <= i < j < |names| ==> names[i] != names[j]
  }

  /** Two lists of distinct names with no name in common join into one. */
  lemma DistinctConcat(a: seq<string>, b: seq<string>)
    requires Distinct(a) && Distinct(b)
    requires forall i, j :: 0 <= i < |a| && 0 <= j < |b| ==> a[i] != b[j]
    ensures Distinct(a + b)
  {
    var c := a + b;
    forall i, j | 0 <= i < j < |c|
      ensures c[i] != c[j]
    {
      if j < |a| {
        assert c[i] == a[i] && c[j] == a[j];
      } else if i < |a| {
        assert c[i] == a[i] && c[j] == b[j - |a|];
      } else {
        assert c[i] == b[i - |a|] && c[j] == b[j - |a|];
      }
    }
  }

  /** Every element of `part` is named `name`. */
  predicate AllNamed(part: seq<Node>, name: string)
  {
    forall k :: 0 <= k < |part| ==> IsElem(part[k], name)
  }

  /** Every element slot j wrote is named `names[j]`. */
  predicate Slotted(parts: seq<seq<Node>>, names: seq<string>)
  {
    && |parts| == |names|
    && forall j :: 0 <= j < |parts| ==> AllNamed(parts[j], names[j])
  }

  /** The position of `name` in `names`, or |names| when it is absent. */
  function IndexOf(names: seq<string>, name: string): (i: nat)
    ensures i <= |names|
    ensures i < |names| ==> names[i] == name
    ensures forall j :: 0 <= j < i ==> names[j] != name
  {
    if names == [] then 0
    else if names[0] == name then 0
    else 1 + IndexOf(names[1..], name)
  }

  lemma IndexOfDistinct(names: seq<string>, j: nat)
    requires Distinct(names) && j < |names|
    ensures IndexOf(names, names[j]) == j
  {
  }

  /** Where a child stands in the fixed order `names`. */
  function Rank(n: Node, names: seq<string>): nat
  {
    if n.Elem? then IndexOf(names, n.name) else |names|
  }

  /** The children appear in the order the names are listed in. */
  predicate InOrder(ns: seq<Node>, names: seq<string>)
  {
    forall p, q :: 0 <= p < q < |ns| ==> Rank(ns[p], names) <= Rank(ns[q], names)
  }

  lemma {:induction false} SlottedRanks(parts: seq<seq<Node>>, names: seq<string>)
    requires Slotted(parts, names) && Distinct(names)
    ensures forall p :: 0 <= p < |Flatten(parts)| ==> Rank(Flatten(parts)[p], names) < |parts|
    decreases |parts|
  {
    if parts != [] {
      var init := parts[..|parts| - 1];
      var last := parts[|parts| - 1];
      assert Slotted(init, names[..|parts| - 1]);
      assert Distinct(names[..|parts| - 1]);
      SlottedRanks(init, names[..|parts| - 1]);
      var f := Flatten(init);
      forall p | 0 <= p < |Flatten(parts)|
        ensures Rank(Flatten(parts)[p], names) < |parts|
      {
        if p < |f| {
          var x := f[p];
          assert Rank(x, names[..|parts| - 1]) < |init|;
          assert x.Elem?;
          assert IndexOf(names, x.name) == IndexOf(names[..|parts| - 1], x.name) by {
            IndexOfPrefix(names, |parts| - 1, x.name);
          }
        } else {
          assert Flatten(parts)[p] == last[p - |f|];
          IndexOfDistinct(names, |parts| - 1);
        }
      }
    }
  }

  lemma {:induction false} IndexOfPrefix(names: seq<string>, n: nat, name: string)
    requires n <= |names| && IndexOf(names[..n], name) < n
    ensures IndexOf(names, name) == IndexOf(names[..n], name)
  {
    var i := IndexOf(names[..n], name);
    assert names[i] == name;
    assert forall j :: 0 <= j < i ==> names[j] == names[..n][j];
  }

  /** Children written slot by slot come out in slot order. */
  lemma {:induction false} SlotOrder(parts: seq<seq<Node>>, names: seq<string>)
    requires Slotted(parts, names) && Distinct(names)
    ensures InOrder(Flatten(parts), names)
    decreases |parts|
  {
    if parts != [] {
      var m := |parts| - 1;
      var init := parts[..m];
      var last := parts[m];
      assert Slotted(init, names[..m]) && Distinct(names[..m]);
      SlotOrder(init, names[..m]);
      SlottedRanks(init, names[..m]);
      IndexOfDistinct(names, m);
      var f := Flatten(init);
      var all := Flatten(parts);
      assert all == f + last;
      forall p | 0 <= p < |f|
        ensures Rank(all[p], names) == Rank(f[p], names[..m]) < m
      {
        assert all[p] == f[p];
        IndexOfPrefix(names, m, f[p].name);
      }
      forall q | |f| <= q < |all|
        ensures Rank(all[q], names) == m
      {
        assert all[q] == last[q - |f|];
      }
    }
  }

  /** The elements named after slot i are exactly what slot i wrote. */
  lemma {:induction false} NamedSlot(parts: seq<seq<Node>>, names: seq<string>, i: nat)
    requires Slotted(parts, names) && Distinct(names) && i < |names|
    ensures Named(Flatten(parts), names[i]) == parts[i]
    decreases |parts|
  {
    var m := |parts| - 1;
    var init, prior := parts[..m], names[..m];
    assert Flatten(parts) == Flatten(init) + parts[m];
    assert Slotted(init, prior) by {
      assert forall j :: 0 <= j < m ==> init[j] == parts[j] && prior[j] == names[j];
    }
    NamedConcat(Flatten(init), parts[m], names[i]);
    if i == m {
      assert names[i] !in prior;
      NamedAbsent(init, prior, names[i]);
      NamedAll(parts[m], names[i]);
    } else {
      assert forall k :: 0 <= k < |parts[m]| ==> !IsElem(parts[m][k], names[i]) by {
        assert names[m] != names[i];
      }
      NamedNone(parts[m], names[i]);
      assert Distinct(prior);
      NamedSlot(init, prior, i);
    }
  }

  /** No element carries a name that has no slot. */
  lemma {:induction false} NamedAbsent(parts: seq<seq<Node>>, names: seq<string>, name: string)
    requires Slotted(parts, names) && name !in names
    ensures Named(Flatten(parts), name) == []
    decreases |parts|
  {
    if parts != [] {
      var m := |parts| - 1;
      NamedConcat(Flatten(parts[..m]), parts[m], name);
      NamedNone(parts[m], name);
      NamedAbsent(parts[..m], names[..m], name);
    }
  }

  /** The live DOMDocument: its tree is updated in place by appends. */
  class Document {
    var root: Node

    constructor (root: Node)
      ensures this.root == root
    {
      this.root := root;
    }

    /** Appends `child` to the first element named `name`. */
    method AppendToFirstNamed(name: string, child: Node)
      requires Has(root, name)
      modifies this
      ensures root == AppendToFirst(old(root), name, child)
    {
      root := AppendToFirst(root, name, child);
    }
  }
}
