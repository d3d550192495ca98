/**
 * The part object (CAD_Part): its description and flag word with their Save/Load
 * record, the flattening of its object subtree into the feature list (FindFeatures,
 * PollFeatures), and the insertion of a new feature under the first free name
 * (CAD_PartInsertFeature).
 */
module Part {
  import opened Wrappers
  import opened DataSource
  import opened Numerals

  /** Size of the description buffer, terminator included. */
  const PART_DESCR_MAX: nat := 256

  /** The class every feature object derives from, and the pattern FindFeatures tests. */
  const FEATURE_CLASS := "CAD_Feature"

  /** The class of the extruded boss/base feature, the one the part menu inserts. */
  const EXTRUDED_BOSS_CLASS := "CAD_Feature:CAD_ExtrudedBoss"

  /** An object of the part's subtree: its name, its class name (a subclass is named
      after its ancestors, "CAD_Feature:CAD_ExtrudedBoss"), and its children in list
      order. */
  datatype Node = Node(name: string, cls: string, children: seq<Node>)

  /** AG_ObjectIsClass(ob, "CAD_Feature:*"): the feature class or one of its
      subclasses. */
  predicate IsFeature(n: Node) {
    IsFeatureClass(n.cls)
  }

  predicate IsFeatureClass(cls: string) {
    cls == FEATURE_CLASS || StartsWith(cls, FEATURE_CLASS + ":")
  }

  /*** The feature list ***/

  /** A tree-list item: the text, the category (class name), the indentation depth,
      and the NO_SELECT, HAS_CHILDREN and VISIBLE_CHILDREN flags. */
  datatype Item = Item(name: string, cat: string, depth: nat, noSelect: bool,
                       hasChildren: bool, visibleChildren: bool)

  /** A node gets an item unless it is a non-feature without children. */
  predicate Listed(n: Node) {
    IsFeature(n) || n.children != []
  }

  /** The item for a listed node at `depth`; `isRoot` says whether the node is the root
      of the object tree (AG_ObjectRoot(pob) == pob). */
  function ItemOf(n: Node, depth: nat, isRoot: bool): Item {
    Item(n.name, n.cls, depth, !IsFeature(n), n.children != [], n.children != [] && isRoot)
  }

  /** FindFeatures: the items for `n` and its subtree, added at `depth`. */
  function FindFeatures(n: Node, depth: nat, isRoot: bool): (items: seq<Item>)
    ensures !Listed(n) ==> items == []
    ensures Listed(n) ==> |items| > 0 && items[0] == ItemOf(n, depth, isRoot)
    ensures Listed(n) ==> (items[0].noSelect <==> !IsFeature(n))
                          && (items[0].hasChildren <==> n.children != [])
                          && (items[0].visibleChildren <==> n.children != [] && isRoot)
    ensures forall k :: 0 <= k < |items| ==> items[k].depth >= depth
    ensures forall k :: 0 < k < |items| ==> items[k].depth > depth
    decreases n
  {
    if !Listed(n) then [] else [ItemOf(n, depth, isRoot)] + FindChildren(n.children, depth + 1)
  }

  /** The TAILQ_FOREACH over the children, each at `depth`; no child is a root. */
  function FindChildren(cs: seq<Node>, depth: nat): (items: seq<Item>)
    ensures forall k :: 0 <= k < |items| ==> items[k].depth >= depth
    decreases cs
  {
    if cs == [] then [] else FindFeatures(cs[0], depth, false) + FindChildren(cs[1..], depth)
  }

  /** A node reached from the root along `path`, a sequence of child indices. */
  datatype Visit = Visit(path: seq<nat>, node: Node)

  /** The reference traversal: every node of the subtree at `path`, in preorder,
      children in list order. */
  function Preorder(n: Node, path: seq<nat>): seq<Visit>
    decreases n
  {
    [Visit(path, n)] + PreorderChildren(n.children, path, 0)
  }

  /** The subtrees of children `i`, `i + 1`, ... of the node at `path`. */
  function PreorderChildren(cs: seq<Node>, path: seq<nat>, i: nat): seq<Visit>
    decreases cs
  {
    if cs == [] then [] else Preorder(cs[0], path + [i]) + PreorderChildren(cs[1..], path, i + 1)
  }

  /** The node at `path` below `n`, if the path leads anywhere. */
  function At(n: Node, path: seq<nat>): Option<Node>
    decreases |path|
  {
    if path == [] then Some(n)
    else if path[0] < |n.children| then At(n.children[path[0]], path[1..])
    else None
  }

  /** The items for a sequence of visits: one per listed node, at the depth of its path;
      only the node at the empty path can be the root. */
  function Shown(vs: seq<Visit>, rootIsTop: bool): seq<Item>
    decreases |vs|
  {
    if vs == [] then [] else ShowVisit(vs[0], rootIsTop) + Shown(vs[1..], rootIsTop)
  }

  /** The item for one visit, if its node is listed. */
  function ShowVisit(v: Visit, rootIsTop: bool): seq<Item> {
    if Listed(v.node) then [ItemOf(v.node, |v.path|, rootIsTop && v.path == [])] else []
  }

  lemma {:induction false} ShownAppend(a: seq<Visit>, b: seq<Visit>, r: bool)
    ensures Shown(a + b, r) == Shown(a, r) + Shown(b, r)
    decreases |a|
  {
    if a != [] {
      var v := a[0];
      var h := ShowVisit(v, r);
      assert (a + b)[0] == v;
      assert (a + b)[1..] == a[1..] + b;
      assert Shown(a + b, r) == h + Shown(a[1..] + b, r);
      assert Shown(a, r) == h + Shown(a[1..], r);
      ShownAppend(a[1..], b, r);
    } else {
      assert a + b == b;
    }
  }

  /** FindFeatures lists exactly the listed nodes of the preorder traversal, each at its
      distance from the top: non-feature leaves are the only nodes left out, and leaving
      them out skips nothing, since they have no subtree. */
  lemma {:induction false} FindFeaturesIsPreorder(n: Node, path: seq<nat>, r: bool)
    ensures FindFeatures(n, |path|, r && path == []) == Shown(Preorder(n, path), r)
    decreases n
  {
    var vs := Preorder(n, path);
    assert vs == [Visit(path, n)] + PreorderChildren(n.children, path, 0);
    ShownAppend([Visit(path, n)], PreorderChildren(n.children, path, 0), r);
    assert Shown([Visit(path, n)], r) ==
           (if Listed(n) then [ItemOf(n, |path|, r && path == [])] else []);
    FindChildrenIsPreorder(n.children, path, 0, r);
  }

  lemma {:induction false} FindChildrenIsPreorder(cs: seq<Node>, path: seq<nat>, i: nat, r: bool)
    ensures FindChildren(cs, |path| + 1) == Shown(PreorderChildren(cs, path, i), r)
    decreases cs
  {
    if cs != [] {
      ShownAppend(Preorder(cs[0], path + [i]), PreorderChildren(cs[1..], path, i + 1), r);
      FindFeaturesIsPreorder(cs[0], path + [i], r);
      assert |path + [i]| == |path| + 1;
      FindChildrenIsPreorder(cs[1..], path, i + 1, r);
    }
  }

  /** Following one more child index from a node reaches that child. */
  lemma {:induction false} AtChild(root: Node, path: seq<nat>, n: Node, i: nat)
    requires At(root, path) == Some(n) && i < |n.children|
    ensures At(root, path + [i]) == Some(n.children[i])
    decreases |path|
  {
    if path != [] {
      assert (path + [i])[1..] == path[1..] + [i];
      AtChild(root.children[path[0]], path[1..], n, i);
    }
  }

  /** Every visit of the traversal names the node its path leads to: the depth of an
      item is the distance of its node from the root. */
  lemma {:induction false} PreorderPaths(root: Node, n: Node, path: seq<nat>)
    requires At(root, path) == Some(n)
    ensures forall v :: v in Preorder(n, path) ==> At(root, v.path) == Some(v.node)
    decreases n
  {
    PreorderChildrenPaths(root, n, path, 0);
  }

  lemma {:induction false} PreorderChildrenPaths(root: Node, n: Node, path: seq<nat>, i: nat)
    requires At(root, path) == Some(n) && i <= |n.children|
    ensures forall v :: v in PreorderChildren(n.children[i..], path, i) ==>
                          At(root, v.path) == Some(v.node)
    decreases n, |n.children| - i
  {
    if i < |n.children| {
      var cs := n.children[i..];
      assert cs[0] == n.children[i];
      assert cs[1..] == n.children[i + 1..];
      AtChild(root, path, n, i);
      PreorderPaths(root, n.children[i], path + [i]);
      PreorderChildrenPaths(root, n, path, i + 1);
    }
  }

  /** PollFeatures: the list holds the items of the whole part, from depth 0. */
  lemma PolledItems(part: Node, partIsRoot: bool)
    ensures FindFeatures(part, 0, partIsRoot) == Shown(Preorder(part, []), partIsRoot)
    ensures forall v :: v in Preorder(part, []) ==> At(part, v.path) == Some(v.node)
  {
    FindFeaturesIsPreorder(part, [], partIsRoot);
    PreorderPaths(part, part, []);
  }

  /** The tree-list widget's items. */
  class FeatureList {
    var items: seq<Item>

    constructor ()
      ensures items == []
    {
      items := [];
    }

    /** PollFeatures: clear the list, then add the part's items from depth 0. */
    method PollFeatures(part: Node, partIsRoot: bool)
      modifies this
      ensures items == FindFeatures(part, 0, partIsRoot)
    {
      items := [];
      items := items + FindFeatures(part, 0, partIsRoot);
    }
  }

  /*** Naming a new feature ***/

  /** The candidate name `"%s #%d"` for index `n`. */
  function FeatureName(base: string, n: nat): string {
    base + " #" + Decimal(n)
  }

  lemma FeatureNameInjective(base: string, a: nat, b: nat)
    requires FeatureName(base, a) == FeatureName(base, b)
    ensures a == b
  {
    assert FeatureName(base, a)[|base| + 2..] == Decimal(a);
    assert FeatureName(base, b)[|base| + 2..] == Decimal(b);
    DecimalInjective(a, b);
  }

  function ChildNames(cs: seq<Node>): set<string> {
    set i | 0 <= i < |cs| :: cs[i].name
  }

  lemma {:induction false} ChildNamesBound(cs: seq<Node>)
    ensures |ChildNames(cs)| <= |cs|
    decreases |cs|
  {
    if cs != [] {
      var last := cs[|cs| - 1];
      var init := cs[..|cs| - 1];
      assert ChildNames(cs) == ChildNames(init) + {last.name} by {
        forall x | x in ChildNames(cs) ensures x in ChildNames(init) + {last.name} {
          var i :| 0 <= i < |cs| && cs[i].name == x;
          if i < |cs| - 1 {
            assert init[i] == cs[i];
          }
        }
        forall x | x in ChildNames(init) ensures x in ChildNames(cs) {
          var i :| 0 <= i < |init| && init[i].name == x;
          assert cs[i] == init[i];
        }
      }
      ChildNamesBound(init);
    }
  }

  /** The candidate names for indices below `n`. */
  function Candidates(base: string, n: nat): set<string> {
    set j | 0 <= j < n :: FeatureName(base, j)
  }

  lemma {:induction false} CandidatesCount(base: string, n: nat)
    ensures |Candidates(base, n)| == n
    decreases n
  {
    if n > 0 {
      assert Candidates(base, n) == Candidates(base, n - 1) + {FeatureName(base, n - 1)};
      if FeatureName(base, n - 1) in Candidates(base, n - 1) {
        var j :| 0 <= j < n - 1 && FeatureName(base, j) == FeatureName(base, n - 1);
        FeatureNameInjective(base, j, n - 1);
      }
      CandidatesCount(base, n - 1);
    }
  }

  lemma {:induction false} SubsetCard(a: set<string>, b: set<string>)
    requires a <= b
    ensures |a| <= |b|
    decreases |b|
  {
    if a != {} {
      var x :| x in a;
      SubsetCard(a - {x}, b - {x});
    }
  }

  /** When the names of indices 0 to n are all taken, the part has more than n children:
      the search stops by index |children| at the latest. */
  lemma TakenNamesBound(base: string, cs: seq<Node>, n: nat)
    requires forall j :: 0 <= j <= n ==> FeatureName(base, j) in ChildNames(cs)
    ensures n < |cs|
  {
    CandidatesCount(base, n + 1);
    ChildNamesBound(cs);
    SubsetCard(Candidates(base, n + 1), ChildNames(cs));
  }

  /** The object CAD_PartInsertFeature creates, as written: it is allocated with the
      requested class's size but initialised with the base feature class, so its class
      is CAD_Feature whatever was asked for. */
  function NewFeatureAsWritten(name: string, cls: string): (n: Node)
    ensures n.cls == FEATURE_CLASS && IsFeature(n)
  {
    Node(name, FEATURE_CLASS, [])
  }

  /** The object of the requested class, with no children yet: a feature exactly when
      the requested class is one, and listed exactly then. */
  function NewFeature(name: string, cls: string): (n: Node)
    ensures IsFeature(n) <==> IsFeatureClass(cls)
    ensures Listed(n) <==> IsFeatureClass(cls)
  {
    Node(name, cls, [])
  }

  /** The item a new, childless feature object gets at `depth`. */
  function LeafItem(name: string, cls: string, depth: nat): Item {
    Item(name, cls, depth, false, false, false)
  }

  /** The children's items with one more child at the end: the last child's items follow
      the others'. */
  lemma {:induction false} FindChildrenAppend(cs: seq<Node>, c: Node, depth: nat)
    ensures FindChildren(cs + [c], depth) == FindChildren(cs, depth) + FindFeatures(c, depth, false)
    decreases |cs|
  {
    if cs == [] {
      assert [c][1..] == [];
      assert [] + [c] == [c];
    } else {
      assert (cs + [c])[0] == cs[0];
      assert (cs + [c])[1..] == cs[1..] + [c];
      FindChildrenAppend(cs[1..], c, depth);
    }
  }

  /** Attaching a child `c` to a part: the part is listed with children, followed by the
      items of the old children and then those of `c`, one level deeper. When the part
      already had children, that is the old list followed by the items of `c`. */
  lemma AttachedChildListed(p: Node, c: Node, r: bool)
    ensures var q := Node(p.name, p.cls, p.children + [c]);
            FindFeatures(q, 0, r)
            == [ItemOf(q, 0, r)] + FindChildren(p.children, 1) + FindFeatures(c, 1, false)
    ensures p.children != [] ==>
              FindFeatures(Node(p.name, p.cls, p.children + [c]), 0, r)
              == FindFeatures(p, 0, r) + FindFeatures(c, 1, false)
  {
    FindChildrenAppend(p.children, c, 1);
  }

  /** As written, the inserted object is listed as a selectable plain feature, its
      category CAD_Feature whatever class was requested. */
  lemma InsertedAsWrittenListed(p: Node, name: string, cls: string, r: bool)
    requires p.children != []
    ensures FindFeatures(Node(p.name, p.cls, p.children + [NewFeatureAsWritten(name, cls)]), 0, r)
            == FindFeatures(p, 0, r) + [LeafItem(name, FEATURE_CLASS, 1)]
  {
    AttachedChildListed(p, NewFeatureAsWritten(name, cls), r);
  }

  /** With the requested class, the inserted object is listed under its own class when
      that is a feature class, and is left out of the list otherwise. */
  lemma InsertedFeatureListed(p: Node, name: string, cls: string, r: bool)
    requires p.children != []
    ensures FindFeatures(Node(p.name, p.cls, p.children + [NewFeature(name, cls)]), 0, r)
            == FindFeatures(p, 0, r) + (if IsFeatureClass(cls) then [LeafItem(name, cls, 1)] else [])
  {
    AttachedChildListed(p, NewFeature(name, cls), r);
  }

  /** As written, inserting an extruded boss, the one feature the part menu offers, lists
      an item whose category is CAD_Feature rather than the boss's class. */
  lemma NewFeatureLosesClass(p: Node, r: bool)
    requires p.children != []
    ensures var q := Node(p.name, p.cls, p.children + [NewFeatureAsWritten("Extrusion #0",
                                                                           EXTRUDED_BOSS_CLASS)]);
            && FindFeatures(q, 0, r)[|FindFeatures(q, 0, r)| - 1].cat != EXTRUDED_BOSS_CLASS
            && NewFeatureAsWritten("Extrusion #0", EXTRUDED_BOSS_CLASS).cls != EXTRUDED_BOSS_CLASS
  {
    InsertedAsWrittenListed(p, "Extrusion #0", EXTRUDED_BOSS_CLASS, r);
  }

  /*** Save/Load ***/

  datatype PartRecord = PartRecord(descr: string, flags: u32)

  /** What Save writes: the description, then the flag word. */
  function EncodePart(p: PartRecord): (ds: Stream)
    ensures |ds| == 2
  {
    [Str(p.descr), U32(p.flags)]
  }

  /** What Load reads: the same two values, the description truncated to its buffer. */
  function DecodePart(ds: Stream): (r: Option<Read<PartRecord>>)
    ensures r.Some? <==> |ds| >= 2 && ds[0].Str? && ds[1].U32?
    ensures r.Some? ==> r.value == Read(PartRecord(Clip(ds[0].s, PART_DESCR_MAX), ds[1].n), ds[2..])
  {
    var d :- ReadString(ds, PART_DESCR_MAX);
    var f :- ReadU32(d.rest);
    Some(Read(PartRecord(d.value, f.value), f.rest))
  }

  /** Load after Save restores the flags and the description, truncated to its buffer,
      and leaves what followed. */
  lemma PartRoundTrip(p: PartRecord, rest: Stream)
    ensures DecodePart(EncodePart(p) + rest)
            == Some(Read(PartRecord(Clip(p.descr, PART_DESCR_MAX), p.flags), rest))
    ensures Fits(p.descr, PART_DESCR_MAX) ==> DecodePart(EncodePart(p) + rest) == Some(Read(p, rest))
  {
    assert (EncodePart(p) + rest)[2..] == rest;
  }

  /*** The object ***/

  class Part {
    var name: string
    var descr: string
    var flags: u32
    var children: seq<Node>   // the part's feature objects, in list order

    constructor (name0: string)
      ensures name == name0 && descr == "" && flags == 0 && children == []
    {
      name := name0;
      descr := "";
      flags := 0;
      children := [];
    }

    function Record(): PartRecord
      reads this
    {
      PartRecord(descr, flags)
    }

    /** The part as the root of its object subtree. */
    function AsNode(): Node
      reads this
    {
      Node(name, "CAD_Part", children)
    }

    /** The name search of CAD_PartInsertFeature: try "base #0", "base #1", ... until
        no child has the name. */
    method FreeName(base: string) returns (chosen: nat, newName: string)
      ensures newName == FeatureName(base, chosen)
      ensures newName !in ChildNames(children)
      ensures forall j :: 0 <= j < chosen ==> FeatureName(base, j) in ChildNames(children)
      ensures chosen <= |children|
    {
      var taken := ChildNames(children);
      var n := 0;
      while FeatureName(base, n) in taken
        invariant n <= |children|
        invariant forall j :: 0 <= j < n ==> FeatureName(base, j) in taken
        decreases |children| - n
      {
        TakenNamesBound(base, children, n);
        n := n + 1;
      }
      chosen, newName := n, FeatureName(base, n);
    }

    /** CAD_PartInsertFeature as written: attach a new object under the first free name,
        initialised with the base feature class whatever `cls` asks for. */
    method InsertFeature(base: string, cls: string) returns (chosen: nat, newName: string)
      modifies this
      ensures newName == FeatureName(base, chosen)
      ensures newName !in ChildNames(old(children))
      ensures forall j :: 0 <= j < chosen ==> FeatureName(base, j) in ChildNames(old(children))
      ensures chosen <= |old(children)|
      ensures children == old(children) + [NewFeatureAsWritten(newName, cls)]
      ensures name == old(name) && descr == old(descr) && flags == old(flags)
    {
      chosen, newName := FreeName(base);
      children := children + [NewFeatureAsWritten(newName, cls)];
    }

    /** CAD_PartInsertFeature with the object initialised with the requested class: the
        feature list gains exactly the new object's item, under that class. */
    method InsertFeatureOfClass(base: string, cls: string) returns (chosen: nat, newName: string)
      modifies this
      ensures newName == FeatureName(base, chosen)
      ensures newName !in ChildNames(old(children))
      ensures forall j :: 0 <= j < chosen ==> FeatureName(base, j) in ChildNames(old(children))
      ensures chosen <= |old(children)|
      ensures children == old(children) + [NewFeature(newName, cls)]
      ensures name == old(name) && descr == old(descr) && flags == old(flags)
      ensures old(children) != [] && IsFeatureClass(cls) ==>
                forall r: bool :: FindFeatures(AsNode(), 0, r)
                                  == FindFeatures(old(AsNode()), 0, r) + [LeafItem(newName, cls, 1)]
    {
      chosen, newName := FreeName(base);
      ghost var before := AsNode();
      children := children + [NewFeature(newName, cls)];
      if before.children != [] {
        forall r: bool
          ensures FindFeatures(AsNode(), 0, r)
                  == FindFeatures(before, 0, r) + (if IsFeatureClass(cls) then [LeafItem(newName, cls, 1)] else [])
        {
          InsertedFeatureListed(before, newName, cls, r);
        }
      }
    }

    /** Save appends the description and the flag word. */
    method Save(out: Stream) returns (out': Stream)
      ensures out' == out + EncodePart(Record())
    {
      out' := out + [Str(descr)];
      out' := out' + [U32(flags)];
    }

    /** Load reads both values, or changes nothing on a stream that does not hold
        them. */
    method Load(ds: Stream) returns (rest: Option<Stream>)
      modifies this
      ensures var d := DecodePart(ds);
              && rest == (if d.Some? then Some(d.value.rest) else None)
              && Record() == (if d.Some? then d.value.value else old(Record()))
      ensures name == old(name) && children == old(children)
    {
      var d := ReadString(ds, PART_DESCR_MAX);
      if d.None? { return None; }
      var f := ReadU32(d.value.rest);
      if f.None? { return None; }
      descr := d.value.value;
      flags := f.value.value;
      rest := Some(f.value.rest);
    }
  }
}
