/** parseXMLTree on the heap (soap.go): a loop that keeps a stack of nodes and appends to the
    children and the text of the top one. */
module XmlParser {
  import opened XmlTree

  class XmlNode {
    var name: string
    var text: string
    var children: seq<XmlNode>

    constructor (name: string)
      ensures this.name == name && text == "" && children == []
    {
      this.name := name;
      text := "";
      children := [];
    }
  }

  /** A node looks like the tree the view gives it, and so do its children. */
  ghost predicate Agrees(view: map<XmlNode, Tree>, n: XmlNode)
    requires n in view
    reads n
  {
    var t := view[n];
    && n.name == t.name && n.text == t.text && |n.children| == |t.children|
    && forall i | 0 <= i < |n.children| :: n.children[i] in view && view[n.children[i]] == t.children[i]
  }

  /** Every node of the view looks like its tree. As a tree properly contains its children, the
      nodes form no cycle. */
  ghost predicate Models(view: map<XmlNode, Tree>)
    reads view.Keys
  {
    forall n | n in view :: Agrees(view, n)
  }

  /** Where every node hangs: the parent and the position. */
  type Places = map<XmlNode, (XmlNode, nat)>

  /** Every child is where its place says, so no node is a child twice, and root is no child:
      the nodes form a tree and not only an acyclic graph. */
  ghost predicate Placed(nodes: set<XmlNode>, places: Places, root: XmlNode)
    reads nodes
  {
    && root !in places
    && forall m, i | m in nodes && 0 <= i < |m.children| ::
        m.children[i] in places && places[m.children[i]] == (m, i)
  }

  /** No node is the child of two nodes or twice the child of one. */
  ghost predicate Unshared(nodes: set<XmlNode>)
    reads nodes
  {
    forall m, n, i, j | m in nodes && n in nodes && 0 <= i < |m.children| && 0 <= j < |n.children| ::
      m.children[i] == n.children[j] ==> m == n && i == j
  }

  ghost function Open(stack: seq<XmlNode>): set<XmlNode> {
    set n | n in stack
  }

  /** Node i of the stack holds frame i: its finished children, then the next open node. */
  ghost predicate Holds(stack: seq<XmlNode>, frames: Stack, view: map<XmlNode, Tree>, i: nat)
    requires |stack| == |frames| && i < |stack|
    reads stack
  {
    var n, f := stack[i], frames[i];
    && n !in view
    && n.name == f.name && n.text == f.text
    && |n.children| == |f.done| + (if i + 1 < |stack| then 1 else 0)
    && (i + 1 < |stack| ==> n.children[|f.done|] == stack[i + 1])
    && forall j | 0 <= j < |f.done| :: n.children[j] in view && view[n.children[j]] == f.done[j]
  }

  ghost predicate OnStack(stack: seq<XmlNode>, frames: Stack, view: map<XmlNode, Tree>)
    reads stack
  {
    && |stack| == |frames|
    && (forall i, j | 0 <= i < j < |stack| :: stack[i] != stack[j])
    && forall i | 0 <= i < |stack| :: Holds(stack, frames, view, i)
  }

  /** An end tag moves the top node from the stack to the finished nodes. */
  lemma CloseTop(stack: seq<XmlNode>, frames: Stack, view: map<XmlNode, Tree>)
    requires |stack| > 1 && OnStack(stack, frames, view) && Models(view)
    ensures
      var view' := view[stack[|stack| - 1] := Close(frames[|frames| - 1])];
      OnStack(stack[..|stack| - 1], Advance(frames, EndElement), view') && Models(view')
  {
    var top := stack[|stack| - 1];
    var view' := view[top := Close(frames[|frames| - 1])];
    var stack', frames' := stack[..|stack| - 1], Advance(frames, EndElement);
    assert Holds(stack, frames, view, |stack| - 1);
    forall i | 0 <= i < |stack'|
      ensures Holds(stack', frames', view', i)
    {
      assert Holds(stack, frames, view, i);
    }
    forall n | n in view'
      ensures Agrees(view', n)
    {
      if n != top {
        assert Agrees(view, n);
      }
    }
  }

  /** The start tag case. */
  method AppendChild(stack: seq<XmlNode>, ghost frames: Stack, ghost view: map<XmlNode, Tree>, parent: XmlNode,
      leaf: XmlNode, ghost name: string)
    requires |stack| > 0 && OnStack(stack, frames, view) && Models(view)
    requires parent == stack[|stack| - 1] && leaf !in stack && leaf !in view
    requires leaf.name == name && leaf.text == "" && leaf.children == []
    modifies parent`children
    ensures parent.children == old(parent.children) + [leaf]
    ensures OnStack(stack + [leaf], Advance(frames, StartElement(name)), view) && Models(view)
  {
    assert Holds(stack, frames, view, |stack| - 1);
    parent.children := parent.children + [leaf];
    ghost var stack', frames' := stack + [leaf], Advance(frames, StartElement(name));
    forall i | 0 <= i < |stack'|
      ensures Holds(stack', frames', view, i)
    {
      if i < |stack| {
        assert old(Holds(stack, frames, view, i));
      }
    }
    forall m | m in view
      ensures Agrees(view, m)
    {
      assert old(Agrees(view, m));
    }
  }

  /** The character data case. */
  method AppendText(stack: seq<XmlNode>, ghost frames: Stack, ghost view: map<XmlNode, Tree>, top: XmlNode, chars: string)
    requires |stack| > 0 && OnStack(stack, frames, view) && Models(view)
    requires top == stack[|stack| - 1]
    modifies top`text
    ensures top.text == old(top.text) + chars
    ensures OnStack(stack, Advance(frames, CharData(chars)), view) && Models(view)
  {
    assert Holds(stack, frames, view, |stack| - 1);
    top.text := top.text + chars;
    ghost var frames' := Advance(frames, CharData(chars));
    forall i | 0 <= i < |stack|
      ensures Holds(stack, frames', view, i)
    {
      assert old(Holds(stack, frames, view, i));
    }
    forall m | m in view
      ensures Agrees(view, m)
    {
      assert old(Agrees(view, m));
    }
  }

  /** Closing every open element finishes the tree below the root. */
  lemma CloseRest(stack: seq<XmlNode>, frames: Stack, view: map<XmlNode, Tree>)
    returns (all: map<XmlNode, Tree>)
    requires |stack| > 0 && OnStack(stack, frames, view) && Models(view)
    ensures Models(all) && all.Keys == view.Keys + Open(stack)
    ensures stack[0] in all && all[stack[0]] == CloseAll(frames)
    decreases |stack|
  {
    var top := stack[|stack| - 1];
    var view' := view[top := Close(frames[|frames| - 1])];
    if |stack| > 1 {
      CloseTop(stack, frames, view);
      all := CloseRest(stack[..|stack| - 1], Advance(frames, EndElement), view');
      assert view'.Keys + Open(stack[..|stack| - 1]) == view.Keys + Open(stack);
    } else {
      all := view';
      assert Holds(stack, frames, view, 0);
      forall m | m in all
        ensures Agrees(all, m)
      {
        if m != top {
          assert Agrees(view, m);
        }
      }
    }
  }

  /** What the loop of parseXMLTree keeps. */
  ghost predicate Loop(stack: seq<XmlNode>, frames: Stack, view: map<XmlNode, Tree>, places: Places, root: XmlNode)
    reads stack, view.Keys
  {
    && |stack| > 0 && stack[0] == root
    && OnStack(stack, frames, view) && Models(view)
    && Placed(view.Keys + Open(stack), places, root)
  }

  method StartTag(stack: seq<XmlNode>, ghost frames: Stack, ghost view: map<XmlNode, Tree>, ghost places: Places,
      ghost root: XmlNode, parent: XmlNode, name: string)
    returns (n: XmlNode, ghost places': Places)
    requires Loop(stack, frames, view, places, root) && parent == stack[|stack| - 1]
    modifies parent`children
    ensures fresh(n) && Loop(stack + [n], Advance(frames, StartElement(name)), view, places', root)
  {
    n := new XmlNode(name);
    places' := places[n := (parent, |parent.children|)];
    AppendChild(stack, frames, view, parent, n, name);
    assert view.Keys + Open(stack + [n]) == view.Keys + Open(stack) + {n};
  }

  method Characters(stack: seq<XmlNode>, ghost frames: Stack, ghost view: map<XmlNode, Tree>, ghost places: Places,
      ghost root: XmlNode, top: XmlNode, chars: string)
    requires Loop(stack, frames, view, places, root) && top == stack[|stack| - 1]
    modifies top`text
    ensures Loop(stack, Advance(frames, CharData(chars)), view, places, root)
  {
    AppendText(stack, frames, view, top, chars);
  }

  lemma EndTag(stack: seq<XmlNode>, frames: Stack, view: map<XmlNode, Tree>, places: Places, root: XmlNode)
    requires |stack| > 1 && Loop(stack, frames, view, places, root)
    ensures Loop(stack[..|stack| - 1], Advance(frames, EndElement),
                 view[stack[|stack| - 1] := Close(frames[|frames| - 1])], places, root)
  {
    CloseTop(stack, frames, view);
    assert view[stack[|stack| - 1] := Close(frames[|frames| - 1])].Keys + Open(stack[..|stack| - 1])
        == view.Keys + Open(stack);
  }

  /** parseXMLTree: for every token sequence the new nodes form exactly the tree of the stack
      machine, elements left open included; a decoder error gives no tree. */
  method ParseXMLTree(tokens: seq<Token>, failed: bool) returns (root: XmlNode?, ghost view: map<XmlNode, Tree>)
    ensures failed <==> root == null
    ensures fresh(view.Keys) && Models(view)
    ensures root != null ==> root in view && view[root] == CloseAll(AdvanceAll(START, tokens))
    ensures Unshared(view.Keys) && forall m, i | m in view && 0 <= i < |m.children| :: m.children[i] != root
  {
    var r := new XmlNode(ROOT);
    var stack := [r];
    ghost var frames := START;
    ghost var places: Places := map[];
    view := map[];
    assert Holds(stack, frames, view, 0);
    for k := 0 to |tokens|
      invariant fresh(stack) && fresh(view.Keys)
      invariant Loop(stack, frames, view, places, r)
      invariant frames == AdvanceAll(START, tokens[..k])
    {
      assert tokens[..k + 1][..k] == tokens[..k];
      var top := stack[|stack| - 1];
      match tokens[k] {
        case StartElement(name) =>
          var n;
          n, places := StartTag(stack, frames, view, places, r, top, name);
          stack := stack + [n];
        case EndElement =>
          if |stack| > 1 {
            EndTag(stack, frames, view, places, r);
            view := view[top := Close(frames[|frames| - 1])];
            stack := stack[..|stack| - 1];
          }
        case CharData(chars) =>
          Characters(stack, frames, view, places, r, top, chars);
        case Other =>
      }
      frames := Advance(frames, tokens[k]);
    }
    assert tokens[..|tokens|] == tokens;
    if failed {
      return null, map[];
    }
    root := r;
    view := CloseRest(stack, frames, view);
  }
}
