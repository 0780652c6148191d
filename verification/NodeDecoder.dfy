/** find, childText and toValue on the nodes the parser builds (soap.go): recursion over the
    heap with a loop per shape, proved against the functions on trees. The view gives the tree
    of every node; it exists only for the proof. */
module NodeDecoder {
  import opened Text
  import opened Values
  import opened XmlTree
  import opened XmlParser
  import D = Decoder

  ghost predicate Known(view: map<XmlNode, Tree>, n: XmlNode)
    reads view.Keys
  {
    Models(view) && n in view
  }

  /** The trees of the first i children. */
  ghost function Prefix(view: map<XmlNode, Tree>, n: XmlNode, i: nat): seq<Tree>
    requires n in view && i <= |view[n].children|
  {
    view[n].children[..i]
  }

  lemma PrefixSnoc(view: map<XmlNode, Tree>, n: XmlNode, i: nat)
    requires n in view && i < |view[n].children|
    ensures |Prefix(view, n, i + 1)| == i + 1
    ensures Prefix(view, n, i + 1)[..i] == Prefix(view, n, i)
    ensures Prefix(view, n, i + 1)[i] == view[n].children[i]
    ensures Prefix(view, n, |view[n].children|) == view[n].children
  {
  }

  /** find: a node of the tree that is the first match, or null when there is none. */
  method Find(n: XmlNode, name: string, ghost view: map<XmlNode, Tree>) returns (r: XmlNode?)
    requires Known(view, n)
    ensures r == null ==> XmlTree.Find(view[n], name) == NotFound
    ensures r != null ==> r in view && XmlTree.Find(view[n], name) == Found(view[r])
    decreases view[n]
  {
    ghost var trees := view[n].children;
    assert Agrees(view, n);
    for i := 0 to |n.children|
      invariant FindIn(trees, name) == FindIn(trees[i..], name)
    {
      var c := n.children[i];
      assert trees[i..][0] == view[c] && trees[i..][1..] == trees[i + 1..];
      if c.name == name {
        assert Agrees(view, c);
        return c;
      }
      assert Agrees(view, c);
      var found := Find(c, name, view);
      if found != null {
        return found;
      }
    }
    return null;
  }

  /** childText: the text of the first direct child with the name, or "". */
  method ChildTextOf(n: XmlNode, name: string, ghost view: map<XmlNode, Tree>) returns (text: string)
    requires Known(view, n)
    ensures text == ChildText(view[n].children, name)
  {
    ghost var trees := view[n].children;
    assert Agrees(view, n);
    for i := 0 to |n.children|
      invariant ChildText(trees, name) == ChildText(trees[i..], name)
    {
      var c := n.children[i];
      assert trees[i..][0] == view[c] && trees[i..][1..] == trees[i + 1..];
      assert Agrees(view, c);
      if c.name == name {
        return c.text;
      }
    }
    return "";
  }

  method HasKey(n: XmlNode, ghost view: map<XmlNode, Tree>) returns (hasKey: bool)
    requires Known(view, n)
    ensures hasKey <==> D.HasNamed(view[n].children, "key")
  {
    hasKey := false;
    assert Agrees(view, n);
    for i := 0 to |n.children|
      invariant hasKey <==> exists j | 0 <= j < i :: view[n].children[j].name == "key"
    {
      assert Agrees(view, n.children[i]);
      if n.children[i].name == "key" {
        hasKey := true;
      }
    }
  }

  method IsKeyValueMap(n: XmlNode, ghost view: map<XmlNode, Tree>) returns (ok: bool)
    requires Known(view, n)
    ensures ok <==> D.IsKeyValueMap(view[n].children)
  {
    assert Agrees(view, n);
    if |n.children| == 0 {
      return false;
    }
    for i := 0 to |n.children|
      invariant forall j | 0 <= j < i ::
        view[n].children[j].name == "item" && D.HasNamed(view[n].children[j].children, "key")
    {
      var c := n.children[i];
      assert Agrees(view, c);
      if c.name != "item" {
        return false;
      }
      var hasKey := HasKey(c, view);
      if !hasKey {
        return false;
      }
    }
    return true;
  }

  method AllNamed(n: XmlNode, name: string, ghost view: map<XmlNode, Tree>) returns (ok: bool)
    requires Known(view, n)
    ensures ok <==> D.AllNamed(view[n].children, name)
  {
    assert Agrees(view, n);
    if |n.children| == 0 {
      return false;
    }
    for i := 0 to |n.children|
      invariant forall j | 0 <= j < i :: view[n].children[j].name == name
    {
      assert Agrees(view, n.children[i]);
      if n.children[i].name != name {
        return false;
      }
    }
    return true;
  }

  /** toValue. */
  method ToValue(n: XmlNode, ghost view: map<XmlNode, Tree>) returns (v: Value)
    requires Known(view, n)
    ensures v == D.ToValue(view[n])
    decreases view[n], 2
  {
    assert Agrees(view, n);
    if |n.children| == 0 {
      return Str(Trim(n.text));
    }
    var keyed := IsKeyValueMap(n, view);
    if keyed {
      var m := MapValue(n, view);
      return Map(m);
    }
    var listed := AllNamed(n, "item", view);
    if listed {
      var items := ListValue(n, view);
      return List(items);
    }
    var fields := StructValue(n, view);
    return Map(fields);
  }

  /** The inner loop of mapValue over one item. */
  method EntryOf(item: XmlNode, ghost view: map<XmlNode, Tree>) returns (key: string, val: Value)
    requires Known(view, item)
    ensures (key, val) == D.EntryOf(view[item].children)
    decreases view[item], 0
  {
    key, val := "", Str("");
    assert Agrees(view, item);
    for i := 0 to |item.children|
      invariant (key, val) == D.EntryOf(Prefix(view, item, i))
    {
      var kv := item.children[i];
      PrefixSnoc(view, item, i);
      assert Agrees(view, kv);
      if kv.name == "key" {
        key := Trim(kv.text);
      } else if kv.name == "value" {
        val := ToValue(kv, view);
      }
    }
    assert Prefix(view, item, |item.children|) == view[item].children;
  }

  /** mapValue. */
  method MapValue(n: XmlNode, ghost view: map<XmlNode, Tree>) returns (m: map<string, Value>)
    requires Known(view, n)
    ensures m == D.MapValue(view[n].children)
    decreases view[n], 1
  {
    m := map[];
    assert Agrees(view, n);
    for i := 0 to |n.children|
      invariant m == D.MapValue(Prefix(view, n, i))
    {
      PrefixSnoc(view, n, i);
      var key, val := EntryOf(n.children[i], view);
      m := m[key := val];
    }
    assert Prefix(view, n, |n.children|) == view[n].children;
  }

  /** listValue. */
  method ListValue(n: XmlNode, ghost view: map<XmlNode, Tree>) returns (list: seq<Value>)
    requires Known(view, n)
    ensures list == D.ListValue(view[n].children)
    decreases view[n], 1
  {
    list := [];
    assert Agrees(view, n);
    for i := 0 to |n.children|
      invariant list == D.ListValue(Prefix(view, n, i))
    {
      PrefixSnoc(view, n, i);
      var v := ToValue(n.children[i], view);
      list := list + [v];
    }
    assert Prefix(view, n, |n.children|) == view[n].children;
  }

  /** structValue. */
  method StructValue(n: XmlNode, ghost view: map<XmlNode, Tree>) returns (m: map<string, Value>)
    requires Known(view, n)
    ensures m == D.StructValue(view[n].children)
    decreases view[n], 1
  {
    m := map[];
    assert Agrees(view, n);
    for i := 0 to |n.children|
      invariant m == D.StructValue(Prefix(view, n, i))
    {
      var c := n.children[i];
      PrefixSnoc(view, n, i);
      assert Agrees(view, c);
      var v := ToValue(c, view);
      if c.name !in m {
        m := m[c.name := v];
      } else if m[c.name].List? {
        m := m[c.name := List(m[c.name].items + [v])];
      } else {
        m := m[c.name := List([m[c.name], v])];
      }
    }
    assert Prefix(view, n, |n.children|) == view[n].children;
  }
}
