/**
 * The abstract DOM the extension reads and writes: a tree whose nodes are text leaves or
 * elements. An element carries its identity, its upper-case `tagName` (as HTML reports it),
 * its attributes (`role`, `tabindex`, `aria-label`, `data-*`), its class list, whether its
 * inline style says `display: none`, whether its computed layout is flex or grid (which only
 * a rendering engine knows, so it is given with the tree), and its ordered child nodes.
 * The page itself is the document node at the root of such a tree.
 */
module Dom {
  import opened Wrappers

  /** Identity of a node: one the page created, or one the extension created (`document.createElement`). */
  datatype NodeId = PageNode(n: nat) | Created(serial: nat)

  datatype Node =
    | Text(data: string)
    | Element(id: NodeId, tagName: string, attributes: map<string, string>, classList: set<string>,
              displayNone: bool, flexOrGrid: bool, children: seq<Node>)

  predicate HasTag(n: Node, tagName: string) {
    n.Element? && n.tagName == tagName
  }

  /** The element has attribute `name` with exactly `value` (the CSS selector `[name="value"]`). */
  predicate AttributeIs(n: Node, name: string, value: string) {
    n.Element? && name in n.attributes && n.attributes[name] == value
  }

  /** `n.children`: the element children, in order (text nodes skipped). */
  function ElementChildren(cs: seq<Node>): (r: seq<Node>)
    ensures |r| <= |cs|
    ensures forall c :: c in r ==> c.Element? && c in cs
    ensures forall c :: c in cs && c.Element? ==> c in r
  {
    if cs == [] then []
    else (if cs[0].Element? then [cs[0]] else []) + ElementChildren(cs[1..])
  }

  /** `n.firstElementChild`: the first child node that is an element, if any. */
  function FirstElementChild(n: Node): (r: Option<Node>)
    ensures r.None? <==> (n.Text? || ElementChildren(n.children) == [])
    ensures r.Some? ==> r.value == ElementChildren(n.children)[0]
  {
    if n.Text? then None else FirstElementOf(n.children)
  }

  function FirstElementOf(cs: seq<Node>): (r: Option<Node>)
    ensures r.None? <==> ElementChildren(cs) == []
    ensures r.Some? ==> r.value == ElementChildren(cs)[0]
  {
    if cs == [] then None
    else if cs[0].Element? then Some(cs[0])
    else FirstElementOf(cs[1..])
  }

  /** `textContent`: the text of every descendant text leaf, concatenated in document order. */
  function TextContent(n: Node): string {
    match n
    case Text(d) => d
    case Element(_, _, _, _, _, _, cs) => TextContentSeq(cs)
  }

  function TextContentSeq(cs: seq<Node>): string {
    if cs == [] then [] else TextContent(cs[0]) + TextContentSeq(cs[1..])
  }

  /**
   * The text leaves under `n` in document order, as a `TreeWalker` with `SHOW_TEXT` rooted
   * at the element `n` visits them (the root itself is never visited).
   */
  function TextLeaves(n: Node): seq<string> {
    match n
    case Text(d) => [d]
    case Element(_, _, _, _, _, _, cs) => TextLeavesSeq(cs)
  }

  function TextLeavesSeq(cs: seq<Node>): seq<string> {
    if cs == [] then [] else TextLeaves(cs[0]) + TextLeavesSeq(cs[1..])
  }

  /** The element descendants of `n` (not `n` itself) in document (pre-)order, as `querySelectorAll` lists them. */
  function DescendantElements(n: Node): (r: seq<Node>)
    ensures forall e :: e in r ==> e.Element?
  {
    match n
    case Text(_) => []
    case Element(_, _, _, _, _, _, cs) => DescendantElementsSeq(cs)
  }

  function DescendantElementsSeq(cs: seq<Node>): (r: seq<Node>)
    ensures forall e :: e in r ==> e.Element?
  {
    if cs == [] then []
    else (if cs[0].Element? then [cs[0]] + DescendantElements(cs[0]) else [])
         + DescendantElementsSeq(cs[1..])
  }

  /** `n.contains(x)` for the element `x` with identity `id`: `n` is `x` or an ancestor of it. */
  predicate ContainsId(n: Node, id: NodeId) {
    match n
    case Text(_) => false
    case Element(i, _, _, _, _, _, cs) => i == id || ContainsIdSeq(cs, id)
  }

  predicate ContainsIdSeq(cs: seq<Node>, id: NodeId) {
    cs != [] && (ContainsId(cs[0], id) || ContainsIdSeq(cs[1..], id))
  }

  /**
   * The ancestors of the first element with identity `id` inside the forest `cs`, nearest
   * first, or `None` when no element of `cs` has that identity.
   */
  function AncestorsIn(cs: seq<Node>, id: NodeId): (r: Option<seq<Node>>)
    ensures r.Some? ==> forall a :: a in r.value ==> a.Element?
  {
    if cs == [] then None
    else match AncestorsBelow(cs[0], id)
      case Some(p) => Some(p)
      case None => AncestorsIn(cs[1..], id)
  }

  function AncestorsBelow(n: Node, id: NodeId): (r: Option<seq<Node>>)
    ensures r.Some? ==> forall a :: a in r.value ==> a.Element?
  {
    match n
    case Text(_) => None
    case Element(i, _, _, _, _, _, cs) =>
      if i == id then Some([])
      else match AncestorsIn(cs, id)
        case Some(p) => Some(p + [n])
        case None => None
  }

  /**
   * The chain `x.parentElement`, `x.parentElement.parentElement`, ... of the element `x` with
   * identity `id` in the document `doc`; the document node itself is not an element, so the
   * chain ends at the root element.
   */
  function ParentChain(doc: Node, id: NodeId): (r: seq<Node>)
    ensures forall a :: a in r ==> a.Element?
  {
    if doc.Text? then [] else AncestorsIn(doc.children, id).GetOr([])
  }

  /** The first node, in document order, of the tree `n` (itself included) with identity `id`. */
  function FindById(n: Node, id: NodeId): (r: Option<Node>)
    ensures r.Some? ==> r.value.Element? && r.value.id == id
  {
    match n
    case Text(_) => None
    case Element(i, _, _, _, _, _, cs) => if i == id then Some(n) else FindByIdSeq(cs, id)
  }

  function FindByIdSeq(cs: seq<Node>, id: NodeId): (r: Option<Node>)
    ensures r.Some? ==> r.value.Element? && r.value.id == id
  {
    if cs == [] then None
    else match FindById(cs[0], id)
      case Some(x) => Some(x)
      case None => FindByIdSeq(cs[1..], id)
  }

  /** The tree `n` with every element of identity `id` (and its subtree) replaced by `x`. */
  function Replace(n: Node, id: NodeId, x: Node): Node {
    match n
    case Text(_) => n
    case Element(i, _, _, _, _, _, cs) => if i == id then x else n.(children := ReplaceSeq(cs, id, x))
  }

  function ReplaceSeq(cs: seq<Node>, id: NodeId, x: Node): (r: seq<Node>)
    ensures |r| == |cs|
  {
    if cs == [] then [] else [Replace(cs[0], id, x)] + ReplaceSeq(cs[1..], id, x)
  }

  /** Replacing touches nothing outside the element it targets: a tree without that element is unchanged. */
  lemma {:induction false} ReplaceElsewhereUnchanged(n: Node, id: NodeId, x: Node)
    requires !ContainsId(n, id)
    ensures Replace(n, id, x) == n
  {
    if n.Element? {
      ReplaceSeqElsewhereUnchanged(n.children, id, x);
    }
  }

  lemma {:induction false} ReplaceSeqElsewhereUnchanged(cs: seq<Node>, id: NodeId, x: Node)
    requires !ContainsIdSeq(cs, id)
    ensures ReplaceSeq(cs, id, x) == cs
  {
    if cs != [] {
      ReplaceElsewhereUnchanged(cs[0], id, x);
      ReplaceSeqElsewhereUnchanged(cs[1..], id, x);
    }
  }

  /** The element descendants of `n` with the given tag, in document order (`querySelectorAll(tag)`). */
  function DescendantsWithTag(n: Node, tagName: string): (r: seq<Node>)
    ensures forall a :: a in r ==> HasTag(a, tagName)
  {
    WithTag(DescendantElements(n), tagName)
  }

  function WithTag(es: seq<Node>, tagName: string): (r: seq<Node>)
    ensures forall a :: a in r ==> HasTag(a, tagName) && a in es
  {
    if es == [] then []
    else (if HasTag(es[0], tagName) then [es[0]] else []) + WithTag(es[1..], tagName)
  }

  /** `n.querySelector(tag)`: the first element descendant of `n` with the given tag. */
  function QuerySelector(n: Node, tagName: string): (r: Option<Node>)
    ensures r.None? <==> DescendantsWithTag(n, tagName) == []
    ensures r.Some? ==> r.value == DescendantsWithTag(n, tagName)[0]
  {
    var found := DescendantsWithTag(n, tagName);
    if found == [] then None else Some(found[0])
  }

  /**
   * The `parentElement` of the first element descendant of `n` (in document order) with the
   * given tag: `n.querySelector(tag).parentElement`.
   */
  function ParentOfFirst(n: Node, tagName: string): (r: Option<Node>)
    ensures r.Some? ==> r.value.Element?
    decreases n
  {
    if n.Text? then None else ParentOfFirstIn(n, n.children, tagName)
  }

  function ParentOfFirstIn(parent: Node, cs: seq<Node>, tagName: string): (r: Option<Node>)
    requires parent.Element?
    ensures r.Some? ==> r.value.Element?
    decreases cs
  {
    if cs == [] then None
    else if HasTag(cs[0], tagName) then Some(parent)
    else match ParentOfFirst(cs[0], tagName)
      case Some(p) => Some(p)
      case None => ParentOfFirstIn(parent, cs[1..], tagName)
  }

  /** There is a parent to return exactly when some descendant has the tag. */
  lemma {:induction false} ParentOfFirstFound(n: Node, tagName: string)
    ensures ParentOfFirst(n, tagName).Some? <==> DescendantsWithTag(n, tagName) != []
    decreases n
  {
    if n.Element? {
      ParentOfFirstInFound(n, n.children, tagName);
    }
  }

  lemma {:induction false} ParentOfFirstInFound(parent: Node, cs: seq<Node>, tagName: string)
    requires parent.Element?
    ensures ParentOfFirstIn(parent, cs, tagName).Some? <==> WithTag(DescendantElementsSeq(cs), tagName) != []
    decreases cs
  {
    if cs != [] {
      ParentOfFirstFound(cs[0], tagName);
      ParentOfFirstInFound(parent, cs[1..], tagName);
      var head := if cs[0].Element? then [cs[0]] + DescendantElements(cs[0]) else [];
      WithTagAppend(head, DescendantElementsSeq(cs[1..]), tagName);
      if cs[0].Element? {
        WithTagAppend([cs[0]], DescendantElements(cs[0]), tagName);
      }
    }
  }

  lemma {:induction false} WithTagAppend(xs: seq<Node>, ys: seq<Node>, tagName: string)
    ensures WithTag(xs + ys, tagName) == WithTag(xs, tagName) + WithTag(ys, tagName)
  {
    if xs == [] {
      assert xs + ys == ys;
    } else {
      assert (xs + ys)[0] == xs[0];
      assert (xs + ys)[1..] == xs[1..] + ys;
      WithTagAppend(xs[1..], ys, tagName);
    }
  }

  /** Once an element is replaced, looking up its identity finds the replacement. */
  lemma {:induction false} ReplaceThenFind(n: Node, id: NodeId, x: Node)
    requires x.Element? && x.id == id && ContainsId(n, id)
    ensures FindById(Replace(n, id, x), id) == Some(x)
  {
    if n.id != id {
      ReplaceSeqThenFind(n.children, id, x);
    }
  }

  lemma {:induction false} ReplaceSeqThenFind(cs: seq<Node>, id: NodeId, x: Node)
    requires x.Element? && x.id == id && ContainsIdSeq(cs, id)
    ensures FindByIdSeq(ReplaceSeq(cs, id, x), id) == Some(x)
  {
    var r := ReplaceSeq(cs, id, x);
    assert r[0] == Replace(cs[0], id, x) && r[1..] == ReplaceSeq(cs[1..], id, x);
    if ContainsId(cs[0], id) {
      ReplaceThenFind(cs[0], id, x);
    } else {
      ReplaceElsewhereUnchanged(cs[0], id, x);
      FindByIdContains(cs[0], id);
      ReplaceSeqThenFind(cs[1..], id, x);
    }
  }

  /** Every element found by identity is one the tree contains. */
  lemma {:induction false} FindByIdContains(n: Node, id: NodeId)
    ensures FindById(n, id).Some? <==> ContainsId(n, id)
    ensures FindById(n, id).Some? ==> FindById(n, id).value.Element? && FindById(n, id).value.id == id
  {
    if n.Element? && n.id != id {
      FindByIdSeqContains(n.children, id);
    }
  }

  lemma {:induction false} FindByIdSeqContains(cs: seq<Node>, id: NodeId)
    ensures FindByIdSeq(cs, id).Some? <==> ContainsIdSeq(cs, id)
    ensures FindByIdSeq(cs, id).Some? ==> FindByIdSeq(cs, id).value.Element? && FindByIdSeq(cs, id).value.id == id
  {
    if cs != [] {
      FindByIdContains(cs[0], id);
      FindByIdSeqContains(cs[1..], id);
    }
  }

  /** The identities of the elements of `xs`. */
  function Ids(xs: seq<Node>): set<NodeId> {
    set x | x in xs && x.Element? :: x.id
  }

  predicate AllElements(xs: seq<Node>) {
    forall x :: x in xs ==> x.Element?
  }

  lemma IdsSnoc(xs: seq<Node>, x: Node)
    requires x.Element?
    ensures Ids(xs + [x]) == Ids(xs) + {x.id}
  {
    forall i | i in Ids(xs + [x]) ensures i in Ids(xs) + {x.id} {
      var y :| y in xs + [x] && y.Element? && y.id == i;
    }
    forall i | i in Ids(xs) ensures i in Ids(xs + [x]) {
      var y :| y in xs && y.Element? && y.id == i;
      assert y in xs + [x];
    }
    assert x in xs + [x];
  }

  /** Appending one node appends its text. */
  lemma {:induction false} TextContentSeqSnoc(cs: seq<Node>, c: Node)
    ensures TextContentSeq(cs + [c]) == TextContentSeq(cs) + TextContent(c)
  {
    if cs == [] {
      assert [c][1..] == [];
    } else {
      assert (cs + [c])[0] == cs[0] && (cs + [c])[1..] == cs[1..] + [c];
      TextContentSeqSnoc(cs[1..], c);
    }
  }

  /** The text of one more node of a prefix. */
  lemma TextContentPrefixStep(cs: seq<Node>, i: nat)
    requires i < |cs|
    ensures TextContentSeq(cs[..i + 1]) == TextContentSeq(cs[..i]) + TextContent(cs[i])
  {
    assert cs[..i + 1] == cs[..i] + [cs[i]];
    TextContentSeqSnoc(cs[..i], cs[i]);
  }

  // ---------------------------------------------------------------- order and ancestry

  /** `children` keeps document order and repetitions: the children of a concatenation are the concatenation of the children. */
  lemma {:induction false} ElementChildrenAppend(a: seq<Node>, b: seq<Node>)
    ensures ElementChildren(a + b) == ElementChildren(a) + ElementChildren(b)
  {
    if a == [] {
      assert a + b == b;
    } else {
      assert (a + b)[0] == a[0] && (a + b)[1..] == a[1..] + b;
      ElementChildrenAppend(a[1..], b);
    }
  }

  /** A run of elements is listed as it is, and a run of text nodes not at all. */
  lemma {:induction false} ElementChildrenOfRuns(a: seq<Node>)
    ensures (forall i :: 0 <= i < |a| ==> a[i].Element?) ==> ElementChildren(a) == a
    ensures (forall i :: 0 <= i < |a| ==> a[i].Text?) ==> ElementChildren(a) == []
  {
    if a != [] {
      ElementChildrenOfRuns(a[1..]);
      if forall i :: 0 <= i < |a| ==> a[i].Element? {
        assert forall i :: 0 <= i < |a[1..]| ==> a[1..][i] == a[i + 1];
        assert a == [a[0]] + a[1..];
      }
      if forall i :: 0 <= i < |a| ==> a[i].Text? {
        assert forall i :: 0 <= i < |a[1..]| ==> a[1..][i] == a[i + 1];
      }
    }
  }

  lemma {:induction false} DescendantElementsAppend(a: seq<Node>, b: seq<Node>)
    ensures DescendantElementsSeq(a + b) == DescendantElementsSeq(a) + DescendantElementsSeq(b)
  {
    if a == [] {
      assert a + b == b;
    } else {
      assert (a + b)[0] == a[0] && (a + b)[1..] == a[1..] + b;
      DescendantElementsAppend(a[1..], b);
    }
  }

  /**
   * `querySelectorAll` lists in document order: an element child comes right after everything
   * listed for its earlier siblings, and is followed at once by its own descendants.
   */
  lemma DescendantElementsPreorder(cs: seq<Node>, i: nat)
    requires i < |cs| && cs[i].Element?
    ensures var k := |DescendantElementsSeq(cs[..i])|;
      var sub := [cs[i]] + DescendantElements(cs[i]);
      k + |sub| <= |DescendantElementsSeq(cs)| && DescendantElementsSeq(cs)[k..k + |sub|] == sub
  {
    assert cs == cs[..i] + ([cs[i]] + cs[i + 1..]);
    DescendantElementsAppend(cs[..i], [cs[i]] + cs[i + 1..]);
    DescendantElementsAppend([cs[i]], cs[i + 1..]);
    assert DescendantElementsSeq([cs[i]]) == [cs[i]] + DescendantElements(cs[i]) + DescendantElementsSeq([]);
  }

  /**
   * `p` lists, nearest first, the ancestors of an element with identity `id` inside the forest
   * `cs`: the first is its parent, each is the parent of the one before, and the last is a
   * node of `cs`; with no ancestors, the element is itself a node of `cs`.
   */
  predicate IsAncestry(cs: seq<Node>, p: seq<Node>, id: NodeId) {
    && (forall a :: a in p ==> a.Element?)
    && (p == [] ==> exists c :: c in cs && c.Element? && c.id == id)
    && (p != [] ==> p[|p| - 1] in cs && p[0].Element? && exists c :: c in p[0].children && c.Element? && c.id == id)
    && (forall i :: 0 < i < |p| ==> p[i].Element? && p[i - 1] in p[i].children)
  }

  lemma {:induction false} AncestorsBelowIsAncestry(n: Node, id: NodeId)
    ensures AncestorsBelow(n, id).Some? <==> ContainsId(n, id)
    ensures AncestorsBelow(n, id).Some? ==> IsAncestry([n], AncestorsBelow(n, id).value, id)
    decreases n
  {
    if n.Element? && n.id != id {
      AncestorsInIsAncestry(n.children, id);
      var q := AncestorsIn(n.children, id);
      if q.Some? {
        var p := q.value;
        var r := p + [n];
        assert r[|r| - 1] == n;
        assert r[0] == if p == [] then n else p[0];
        forall i | 0 < i < |r|
          ensures r[i].Element? && r[i - 1] in r[i].children
        {
          if i < |p| {
            assert r[i] == p[i] && r[i - 1] == p[i - 1];
          } else {
            assert r[i] == n && r[i - 1] == p[|p| - 1];
          }
        }
      }
    } else if n.Element? {
      assert n in [n];
    }
  }

  lemma {:induction false} AncestorsInIsAncestry(cs: seq<Node>, id: NodeId)
    ensures AncestorsIn(cs, id).Some? <==> ContainsIdSeq(cs, id)
    ensures AncestorsIn(cs, id).Some? ==> IsAncestry(cs, AncestorsIn(cs, id).value, id)
    decreases cs
  {
    if cs != [] {
      AncestorsBelowIsAncestry(cs[0], id);
      AncestorsInIsAncestry(cs[1..], id);
      assert forall c :: c in [cs[0]] ==> c in cs;
      assert forall c :: c in cs[1..] ==> c in cs;
    }
  }

  /**
   * `parentElement` walked upwards, nearest first: for an element in the document, the first
   * of the chain is its parent, each is the parent of the one before, and the last is a child
   * of the document node; the chain is empty when the element is itself such a child.
   */
  lemma ParentChainIsAncestry(doc: Node, id: NodeId)
    requires doc.Element? && ContainsIdSeq(doc.children, id)
    ensures IsAncestry(doc.children, ParentChain(doc, id), id)
  {
    AncestorsInIsAncestry(doc.children, id);
  }

  /**
   * `n.querySelector(tag).parentElement`: when found, it is `n` or an element below it, and
   * the first element with the tag is one of its children.
   */
  lemma {:induction false} ParentOfFirstIsParent(n: Node, tagName: string)
    ensures var r := ParentOfFirst(n, tagName);
      r.Some? ==> DescendantsWithTag(n, tagName) != [] && DescendantsWithTag(n, tagName)[0] in r.value.children
                  && (r.value == n || r.value in DescendantElements(n))
    decreases n
  {
    if n.Element? {
      ParentOfFirstInIsParent(n, n.children, tagName);
    }
  }

  lemma {:induction false} ParentOfFirstInIsParent(parent: Node, cs: seq<Node>, tagName: string)
    requires parent.Element? && forall c :: c in cs ==> c in parent.children
    ensures var r := ParentOfFirstIn(parent, cs, tagName);
      var w := WithTag(DescendantElementsSeq(cs), tagName);
      r.Some? ==> w != [] && w[0] in r.value.children && (r.value == parent || r.value in DescendantElementsSeq(cs))
    decreases cs
  {
    if cs != [] && !HasTag(cs[0], tagName) {
      WithTagSkipsHead(cs, tagName);
      ParentOfFirstFound(cs[0], tagName);
      match ParentOfFirst(cs[0], tagName)
      case Some(p) =>
        ParentOfFirstIsParent(cs[0], tagName);
        assert DescendantElementsSeq(cs) == [cs[0]] + DescendantElements(cs[0]) + DescendantElementsSeq(cs[1..]);
      case None =>
        ParentOfFirstInIsParent(parent, cs[1..], tagName);
    } else if cs != [] {
      assert DescendantElementsSeq(cs)[0] == cs[0];
    }
  }

  /** When the first node lacks the tag, the tagged elements are those below it, then those of the rest. */
  lemma WithTagSkipsHead(cs: seq<Node>, tagName: string)
    requires cs != [] && !HasTag(cs[0], tagName)
    ensures WithTag(DescendantElementsSeq(cs), tagName)
            == (if cs[0].Element? then DescendantsWithTag(cs[0], tagName) else []) + WithTag(DescendantElementsSeq(cs[1..]), tagName)
  {
    var rest := DescendantElementsSeq(cs[1..]);
    if cs[0].Element? {
      var below := DescendantElements(cs[0]);
      assert DescendantElementsSeq(cs) == [cs[0]] + (below + rest);
      assert WithTag([cs[0]] + (below + rest), tagName) == WithTag(below + rest, tagName);
      WithTagAppend(below, rest, tagName);
    } else {
      assert DescendantElementsSeq(cs) == rest;
    }
  }

  // ---------------------------------------------------------------- frame of a replacement

  /** Some element of identity `id` in `n` is or contains the element of identity `j`. */
  predicate Encloses(n: Node, id: NodeId, j: NodeId) {
    match n
    case Text(_) => false
    case Element(i, _, _, _, _, _, cs) => (i == id && ContainsId(n, j)) || EnclosesSeq(cs, id, j)
  }

  predicate EnclosesSeq(cs: seq<Node>, id: NodeId, j: NodeId) {
    cs != [] && (Encloses(cs[0], id, j) || EnclosesSeq(cs[1..], id, j))
  }

  /**
   * Replacing the element `id` by `x` leaves the lookup of every other identity `j` as it
   * was, provided `j` is neither inside the replaced element nor inside `x`, and the element
   * found for `j` is not an ancestor of the replaced one.
   */
  lemma {:induction false} ReplaceKeepsOtherLookups(n: Node, id: NodeId, x: Node, j: NodeId)
    requires !ContainsId(x, j) && !Encloses(n, id, j)
    requires FindById(n, j).Some? ==> !ContainsId(FindById(n, j).value, id)
    ensures FindById(Replace(n, id, x), j) == FindById(n, j)
    decreases n
  {
    if n.Element? {
      if n.id == id {
        FindByIdContains(n, j);
        FindByIdContains(x, j);
      } else if n.id == j {
        ReplaceElsewhereUnchanged(n, id, x);
      } else {
        ReplaceSeqKeepsOtherLookups(n.children, id, x, j);
      }
    }
  }

  lemma {:induction false} ReplaceSeqKeepsOtherLookups(cs: seq<Node>, id: NodeId, x: Node, j: NodeId)
    requires !ContainsId(x, j) && !EnclosesSeq(cs, id, j)
    requires FindByIdSeq(cs, j).Some? ==> !ContainsId(FindByIdSeq(cs, j).value, id)
    ensures FindByIdSeq(ReplaceSeq(cs, id, x), j) == FindByIdSeq(cs, j)
    decreases cs
  {
    if cs != [] {
      var r := ReplaceSeq(cs, id, x);
      assert r[0] == Replace(cs[0], id, x) && r[1..] == ReplaceSeq(cs[1..], id, x);
      ReplaceKeepsOtherLookups(cs[0], id, x, j);
      if FindById(cs[0], j).None? {
        ReplaceSeqKeepsOtherLookups(cs[1..], id, x, j);
      }
    }
  }

  /** The element found for `id` does not contain `j` when no element of identity `id` does. */
  lemma {:induction false} FoundDoesNotEnclose(n: Node, id: NodeId, j: NodeId)
    requires !Encloses(n, id, j)
    ensures FindById(n, id).Some? ==> !ContainsId(FindById(n, id).value, j)
    decreases n
  {
    if n.Element? && n.id != id {
      FoundSeqDoesNotEnclose(n.children, id, j);
    }
  }

  lemma {:induction false} FoundSeqDoesNotEnclose(cs: seq<Node>, id: NodeId, j: NodeId)
    requires !EnclosesSeq(cs, id, j)
    ensures FindByIdSeq(cs, id).Some? ==> !ContainsId(FindByIdSeq(cs, id).value, j)
    decreases cs
  {
    if cs != [] {
      FoundDoesNotEnclose(cs[0], id, j);
      FoundSeqDoesNotEnclose(cs[1..], id, j);
    }
  }
}
