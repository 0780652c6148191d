/** The generic tree a response body is parsed into (soap.go): documents, their token
    streams and the trees they denote, and the search functions on trees. */
module XmlTree {

  /** The content of an element, in document order; Misc is a comment or a processing instruction. */
  datatype Xml = Text(chars: string) | Elem(name: string, content: seq<Xml>) | Misc

  /** The tokens encoding/xml delivers; names are local names. */
  datatype Token = StartElement(name: string) | EndElement | CharData(chars: string) | Other

  /** The value of an xmlNode and everything below it. */
  datatype Tree = Node(name: string, text: string, children: seq<Tree>)

  const ROOT := "#root"

  /** The tokens of a piece of content: section 3.1 of XML 1.0, start and end tags nest. */
  function Tokens(content: seq<Xml>): seq<Token> {
    if content == [] then []
    else Tokens(content[..|content| - 1]) + TokensOf(content[|content| - 1])
  }

  function TokensOf(x: Xml): seq<Token> {
    match x
    case Text(chars) => [CharData(chars)]
    case Elem(name, content) => [StartElement(name)] + Tokens(content) + [EndElement]
    case Misc => [Other]
  }

  /** The direct character data of some content, concatenated. */
  function DirectText(content: seq<Xml>): string {
    if content == [] then ""
    else
      var last := content[|content| - 1];
      DirectText(content[..|content| - 1]) + if last.Text? then last.chars else ""
  }

  /** The trees of the direct child elements, in order. */
  function Elements(content: seq<Xml>): seq<Tree> {
    if content == [] then []
    else
      var last := content[|content| - 1];
      Elements(content[..|content| - 1]) + if last.Elem? then [Node(last.name, DirectText(last.content), Elements(last.content))] else []
  }

  /** The tree an element denotes. */
  function TreeOf(name: string, content: seq<Xml>): Tree {
    Node(name, DirectText(content), Elements(content))
  }

  lemma {:induction false} ContentConcat(a: seq<Xml>, b: seq<Xml>)
    ensures DirectText(a + b) == DirectText(a) + DirectText(b)
    ensures Elements(a + b) == Elements(a) + Elements(b)
  {
    if b == [] {
      assert a + b == a;
    } else {
      assert (a + b)[..|a + b| - 1] == a + b[..|b| - 1];
      ContentConcat(a, b[..|b| - 1]);
    }
  }

  // ----- the stack machine on values -----

  /** An open element: its name, the text so far and its finished children. */
  datatype Frame = Frame(name: string, text: string, done: seq<Tree>)

  type Stack = s: seq<Frame> | |s| > 0 witness [Frame(ROOT, "", [])]

  function Close(f: Frame): Tree {
    Node(f.name, f.text, f.done)
  }

  /** One token of parseXMLTree. An end tag with only the root open is ignored. */
  function Advance(stack: Stack, t: Token): Stack {
    var top := stack[|stack| - 1];
    var below := stack[..|stack| - 1];
    match t
    case StartElement(name) => stack + [Frame(name, "", [])]
    case EndElement =>
      if |stack| == 1 then stack
      else
        var parent := below[|below| - 1];
        below[|below| - 1 := parent.(done := parent.done + [Close(top)])]
    case CharData(chars) => below + [top.(text := top.text + chars)]
    case Other => stack
  }

  function AdvanceAll(stack: Stack, tokens: seq<Token>): Stack {
    if tokens == [] then stack
    else Advance(AdvanceAll(stack, tokens[..|tokens| - 1]), tokens[|tokens| - 1])
  }

  /** What remains when every open element is closed, as the end of the input does to the tree. */
  function CloseAll(stack: Stack): Tree
    decreases |stack|
  {
    if |stack| == 1 then Close(stack[0]) else CloseAll(Advance(stack, EndElement))
  }

  const START: Stack := [Frame(ROOT, "", [])]

  lemma {:induction false} AdvanceConcat(stack: Stack, a: seq<Token>, b: seq<Token>)
    ensures AdvanceAll(stack, a + b) == AdvanceAll(AdvanceAll(stack, a), b)
  {
    if b == [] {
      assert a + b == a;
    } else {
      assert (a + b)[..|a + b| - 1] == a + b[..|b| - 1];
      AdvanceConcat(stack, a, b[..|b| - 1]);
    }
  }

  /** The stack with some text and some finished children added to the open element. */
  function Extended(stack: Stack, text: string, trees: seq<Tree>): Stack {
    var top := stack[|stack| - 1];
    stack[|stack| - 1 := Frame(top.name, top.text + text, top.done + trees)]
  }

  lemma ExtendedTwice(stack: Stack, text: string, trees: seq<Tree>, text': string, trees': seq<Tree>)
    ensures Extended(Extended(stack, text, trees), text', trees') == Extended(stack, text + text', trees + trees')
  {
    var top := stack[|stack| - 1];
    assert (top.text + text) + text' == top.text + (text + text');
    assert (top.done + trees) + trees' == top.done + (trees + trees');
  }

  function TextOf(x: Xml): string {
    if x.Text? then x.chars else ""
  }

  function ElementOf(x: Xml): seq<Tree> {
    if x.Elem? then [TreeOf(x.name, x.content)] else []
  }

  /** The tokens of any content leave the stack as deep as before and add exactly the direct
      text and the child trees of that content to the open element. */
  lemma {:induction false} ContentOnStack(stack: Stack, content: seq<Xml>)
    ensures AdvanceAll(stack, Tokens(content)) == Extended(stack, DirectText(content), Elements(content))
    decreases content
  {
    if content == [] {
      var top := stack[|stack| - 1];
      assert top.text + "" == top.text && top.done + [] == top.done;
    } else {
      var init, last := content[..|content| - 1], content[|content| - 1];
      AdvanceConcat(stack, Tokens(init), TokensOf(last));
      ContentOnStack(stack, init);
      var before := Extended(stack, DirectText(init), Elements(init));
      ElementOnStack(before, last);
      ExtendedTwice(stack, DirectText(init), Elements(init), TextOf(last), ElementOf(last));
    }
  }

  lemma {:induction false} ElementOnStack(stack: Stack, x: Xml)
    ensures AdvanceAll(stack, TokensOf(x)) == Extended(stack, TextOf(x), ElementOf(x))
    decreases x
  {
    var top := stack[|stack| - 1];
    assert top.text + "" == top.text && top.done + [] == top.done;
    match x
    case Elem(name, content) =>
      var inside: Stack := stack + [Frame(name, "", [])];
      var filled: Stack := stack + [Frame(name, DirectText(content), Elements(content))];
      AdvanceSingle(stack, StartElement(name));
      ContentOnStack(inside, content);
      assert "" + DirectText(content) == DirectText(content) && [] + Elements(content) == Elements(content);
      assert Extended(inside, DirectText(content), Elements(content)) == filled;
      AdvanceConcat(stack, [StartElement(name)], Tokens(content));
      AdvanceConcat(stack, [StartElement(name)] + Tokens(content), [EndElement]);
      AdvanceSingle(filled, EndElement);
      assert filled[..|filled| - 1] == stack;
    case Text(chars) =>
      AdvanceSingle(stack, CharData(chars));
      assert stack[..|stack| - 1] + [top.(text := top.text + chars)] == Extended(stack, chars, []);
    case Misc =>
      AdvanceSingle(stack, Other);
  }

  lemma AdvanceSingle(stack: Stack, t: Token)
    ensures AdvanceAll(stack, [t]) == Advance(stack, t)
  {
    assert AdvanceAll(stack, [t][..0]) == stack;
  }

  /** Parsing the tokens of any document rebuilds the tree of that document, and only the root
      is left open. */
  lemma ParseRebuilds(document: seq<Xml>)
    ensures |AdvanceAll(START, Tokens(document))| == 1
    ensures CloseAll(AdvanceAll(START, Tokens(document))) == TreeOf(ROOT, document)
  {
    ContentOnStack(START, document);
  }

  // ----- searching -----

  datatype Search = NotFound | Found(node: Tree)

  /** find: the first descendant with the given name, depth first. */
  function Find(t: Tree, name: string): Search {
    FindIn(t.children, name)
  }

  function FindIn(nodes: seq<Tree>, name: string): Search {
    if nodes == [] then NotFound
    else if nodes[0].name == name then Found(nodes[0])
    else
      var below := Find(nodes[0], name);
      if below.Found? then below else FindIn(nodes[1..], name)
  }

  /** childText: the text of the first direct child with the given name. */
  function ChildText(nodes: seq<Tree>, name: string): string {
    if nodes == [] then ""
    else if nodes[0].name == name then nodes[0].text
    else ChildText(nodes[1..], name)
  }

  /** The descendants of some nodes and the nodes themselves, in document order. */
  function Preorder(nodes: seq<Tree>): seq<Tree> {
    if nodes == [] then []
    else [nodes[0]] + Preorder(nodes[0].children) + Preorder(nodes[1..])
  }

  /** The first element with a name. */
  function FirstNamed(nodes: seq<Tree>, name: string): Search {
    if nodes == [] then NotFound
    else if nodes[0].name == name then Found(nodes[0])
    else FirstNamed(nodes[1..], name)
  }

  lemma {:induction false} FirstNamedConcat(a: seq<Tree>, b: seq<Tree>, name: string)
    ensures FirstNamed(a + b, name) == if FirstNamed(a, name).Found? then FirstNamed(a, name) else FirstNamed(b, name)
  {
    if a == [] {
      assert a + b == b;
    } else {
      assert (a + b)[1..] == a[1..] + b;
      FirstNamedConcat(a[1..], b, name);
    }
  }

  /** find returns the first match of the preorder walk, and nothing exactly when there is none. */
  lemma {:induction false} FindIsFirst(nodes: seq<Tree>, name: string)
    ensures FindIn(nodes, name) == FirstNamed(Preorder(nodes), name)
    decreases nodes
  {
    if nodes != [] {
      FindIsFirst(nodes[0].children, name);
      FindIsFirst(nodes[1..], name);
      FirstNamedConcat([nodes[0]] + Preorder(nodes[0].children), Preorder(nodes[1..]), name);
      FirstNamedConcat([nodes[0]], Preorder(nodes[0].children), name);
      assert FirstNamed([nodes[0]][1..], name) == NotFound;
    }
  }

  /** No element below some nodes, nor one of them, has the name. */
  predicate Absent(nodes: seq<Tree>, name: string) {
    forall i | 0 <= i < |nodes| :: AbsentAt(nodes[i], name)
  }

  predicate AbsentAt(t: Tree, name: string) {
    t.name != name && forall i | 0 <= i < |t.children| :: AbsentAt(t.children[i], name)
  }

  lemma {:induction false} FindAbsent(nodes: seq<Tree>, name: string)
    ensures FindIn(nodes, name) == NotFound <==> Absent(nodes, name)
    decreases nodes
  {
    if nodes != [] {
      FindAbsent(nodes[0].children, name);
      FindAbsent(nodes[1..], name);
      assert Absent(nodes, name) <==> AbsentAt(nodes[0], name) && Absent(nodes[1..], name);
    }
  }
}
