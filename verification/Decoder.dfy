/** The conversion of a tree to a value (soap.go): apache Map, SOAP-ENC array, struct and scalar. */
module Decoder {
  import opened Text
  import opened Values
  import opened XmlTree

  predicate HasNamed(nodes: seq<Tree>, name: string) {
    exists i | 0 <= i < |nodes| :: nodes[i].name == name
  }

  predicate AllNamed(nodes: seq<Tree>, name: string) {
    nodes != [] && forall i | 0 <= i < |nodes| :: nodes[i].name == name
  }

  predicate IsKeyValueMap(nodes: seq<Tree>) {
    nodes != [] && forall i | 0 <= i < |nodes| :: nodes[i].name == "item" && HasNamed(nodes[i].children, "key")
  }

  /** toValue. */
  function ToValue(t: Tree): Value
    decreases t, 1
  {
    if t.children == [] then Str(Trim(t.text))
    else if IsKeyValueMap(t.children) then Map(MapValue(t.children))
    else if AllNamed(t.children, "item") then List(ListValue(t.children))
    else Map(StructValue(t.children))
  }

  /** The key and the value of one map item: the last of each, or the empty string. */
  function EntryOf(parts: seq<Tree>): (string, Value)
    decreases parts, 0
  {
    if parts == [] then ("", Str(""))
    else
      var last := parts[|parts| - 1];
      var (key, val) := EntryOf(parts[..|parts| - 1]);
      if last.name == "key" then (Trim(last.text), val)
      else if last.name == "value" then (key, ToValue(last))
      else (key, val)
  }

  /** mapValue: a later key overrides an earlier one. */
  function MapValue(items: seq<Tree>): map<string, Value>
    decreases items, 0
  {
    if items == [] then map[]
    else
      var (key, val) := EntryOf(items[|items| - 1].children);
      MapValue(items[..|items| - 1])[key := val]
  }

  /** listValue. */
  function ListValue(items: seq<Tree>): seq<Value>
    decreases items, 0
  {
    if items == [] then [] else ListValue(items[..|items| - 1]) + [ToValue(items[|items| - 1])]
  }

  /** One child added to a struct: a repeated name collects into a list. */
  function Collect(m: map<string, Value>, name: string, v: Value): map<string, Value> {
    if name !in m then m[name := v]
    else if m[name].List? then m[name := List(m[name].items + [v])]
    else m[name := List([m[name], v])]
  }

  /** structValue. */
  function StructValue(nodes: seq<Tree>): map<string, Value>
    decreases nodes, 0
  {
    if nodes == [] then map[]
    else
      var last := nodes[|nodes| - 1];
      Collect(StructValue(nodes[..|nodes| - 1]), last.name, ToValue(last))
  }

  /** The values of all children with a name, in order. */
  function ValuesNamed(nodes: seq<Tree>, name: string): seq<Value> {
    if nodes == [] then []
    else
      var last := nodes[|nodes| - 1];
      ValuesNamed(nodes[..|nodes| - 1], name) + if last.name == name then [ToValue(last)] else []
  }

  /** What a struct holds under a name with the given values: the one value, or a list. A first
      value that is a list itself is extended instead of wrapped. */
  function Collected(values: seq<Value>): Value
    requires values != []
  {
    if |values| == 1 then values[0]
    else if values[0].List? then List(values[0].items + values[1..])
    else List(values)
  }

  /** A struct has exactly the names of its children; each maps to its collected values. */
  lemma {:induction false} StructCollects(nodes: seq<Tree>, name: string)
    ensures name in StructValue(nodes) <==> ValuesNamed(nodes, name) != []
    ensures ValuesNamed(nodes, name) != [] ==> StructValue(nodes)[name] == Collected(ValuesNamed(nodes, name))
  {
    if nodes != [] {
      var init, last := nodes[..|nodes| - 1], nodes[|nodes| - 1];
      StructCollects(init, name);
      var before := ValuesNamed(init, name);
      if last.name == name && before != [] {
        var v := ToValue(last);
        assert (before + [v])[1..] == before[1..] + [v];
        if before[0].List? {
          assert before[0].items + (before[1..] + [v]) == (before[0].items + before[1..]) + [v];
          assert |before| == 1 ==> before[0].items + before[1..] == before[0].items;
        } else if |before| == 1 {
          assert before + [v] == [before[0], v];
        }
      }
    }
  }

  /** A name that occurs more than once maps to the list of all its values, in order, exactly
      when the first of them is not itself a list. */
  lemma StructRepeats(nodes: seq<Tree>, name: string)
    requires |ValuesNamed(nodes, name)| > 1
    ensures name in StructValue(nodes)
    ensures StructValue(nodes)[name] == List(ValuesNamed(nodes, name)) <==> !ValuesNamed(nodes, name)[0].List?
  {
    StructCollects(nodes, name);
  }

  // ----- the three shapes -----

  /** An element without children is its trimmed text, and nothing else is a text. */
  lemma ScalarValue(t: Tree)
    ensures ToValue(t).Str? <==> t.children == []
    ensures t.children == [] ==> ToValue(t) == Str(Trim(t.text))
  {
  }

  lemma {:induction false} ValuesNamedExist(nodes: seq<Tree>, name: string)
    ensures ValuesNamed(nodes, name) != [] <==> exists i | 0 <= i < |nodes| :: nodes[i].name == name
  {
    if nodes != [] {
      var init := nodes[..|nodes| - 1];
      ValuesNamedExist(init, name);
      if exists i | 0 <= i < |nodes| :: nodes[i].name == name {
        var i :| 0 <= i < |nodes| && nodes[i].name == name;
        assert i < |init| ==> init[i].name == name;
      }
      if ValuesNamed(nodes, name) != [] {
        if nodes[|nodes| - 1].name == name {
        } else {
          var i :| 0 <= i < |init| && init[i].name == name;
          assert nodes[i].name == name;
        }
      }
    }
  }

  /** An element with a child that is not called item is a struct: a map with exactly the names of its
      children, each mapped to the collected values of its children of that name. */
  lemma StructIsMap(t: Tree, name: string)
    requires exists i | 0 <= i < |t.children| :: t.children[i].name != "item"
    ensures ToValue(t).Map?
    ensures name in ToValue(t).fields <==> exists i | 0 <= i < |t.children| :: t.children[i].name == name
    ensures name in ToValue(t).fields ==>
      ValuesNamed(t.children, name) != [] && ToValue(t).fields[name] == Collected(ValuesNamed(t.children, name))
  {
    StructCollects(t.children, name);
    ValuesNamedExist(t.children, name);
  }

  lemma {:induction false} ListIsPointwise(items: seq<Tree>)
    ensures |ListValue(items)| == |items|
    ensures forall i | 0 <= i < |items| :: ListValue(items)[i] == ToValue(items[i])
  {
    if items != [] {
      ListIsPointwise(items[..|items| - 1]);
    }
  }

  predicate Keyless(t: Tree) {
    forall i | 0 <= i < |t.children| :: t.children[i].name != "key"
  }

  /** An element all of whose children are called item, one of them without a key, is the list of their
      values, in order. */
  lemma ItemsAreList(t: Tree)
    requires t.children != [] && forall i | 0 <= i < |t.children| :: t.children[i].name == "item"
    requires exists i | 0 <= i < |t.children| :: Keyless(t.children[i])
    ensures ToValue(t).List? && |ToValue(t).items| == |t.children|
    ensures forall i | 0 <= i < |t.children| :: ToValue(t).items[i] == ToValue(t.children[i])
  {
    hide MapValue, StructValue, ListValue;
    var i :| 0 <= i < |t.children| && Keyless(t.children[i]);
    assert !HasNamed(t.children[i].children, "key");
    ListIsPointwise(t.children);
  }

  /** The last part with a name. */
  predicate IsLastNamed(parts: seq<Tree>, name: string, i: int) {
    0 <= i < |parts| && parts[i].name == name && forall j | i < j < |parts| :: parts[j].name != name
  }

  /** The key of an item is the trimmed text of its last key. */
  lemma {:induction false} KeyIsLast(parts: seq<Tree>, i: nat)
    requires i < |parts| && IsLastNamed(parts, "key", i)
    ensures EntryOf(parts).0 == Trim(parts[i].text)
  {
    hide ToValue;
    if i < |parts| - 1 {
      assert parts[|parts| - 1].name != "key";
      KeyIsLast(parts[..|parts| - 1], i);
    }
  }

  /** The value of an item is that of its last value, and an empty string if it has none. */
  lemma {:induction false} ValueIsLast(parts: seq<Tree>, i: nat)
    requires i < |parts| && IsLastNamed(parts, "value", i)
    ensures EntryOf(parts).1 == ToValue(parts[i])
  {
    hide ToValue;
    if i < |parts| - 1 {
      assert parts[|parts| - 1].name != "value";
      ValueIsLast(parts[..|parts| - 1], i);
    }
  }

  lemma {:induction false} NoValue(parts: seq<Tree>)
    requires forall i | 0 <= i < |parts| :: parts[i].name != "value"
    ensures EntryOf(parts).1 == Str("")
  {
    hide ToValue;
    if parts != [] {
      NoValue(parts[..|parts| - 1]);
    }
  }

  /** The last item with a key. */
  predicate IsLastEntry(items: seq<Tree>, key: string, i: int) {
    && 0 <= i < |items| && EntryOf(items[i].children).0 == key
    && forall j | i < j < |items| :: EntryOf(items[j].children).0 != key
  }

  lemma {:induction false} MapKeepsLast(items: seq<Tree>, key: string)
    ensures key in MapValue(items) <==> exists i | 0 <= i < |items| :: EntryOf(items[i].children).0 == key
    ensures forall i | 0 <= i < |items| && IsLastEntry(items, key, i) ::
      key in MapValue(items) && MapValue(items)[key] == EntryOf(items[i].children).1
  {
    hide EntryOf, IsLastEntry;
    if items != [] {
      var init, n := items[..|items| - 1], |items| - 1;
      MapKeepsLast(init, key);
      assert MapValue(items) == MapValue(init)[EntryOf(items[n].children).0 := EntryOf(items[n].children).1];
      assert forall i | 0 <= i < n :: items[i] == init[i];
      if key in MapValue(items) {
        if EntryOf(items[n].children).0 == key {
        } else {
          var i :| 0 <= i < |init| && EntryOf(init[i].children).0 == key;
          assert EntryOf(items[i].children).0 == key;
        }
      }
      forall i | 0 <= i < |items| && IsLastEntry(items, key, i)
        ensures key in MapValue(items) && MapValue(items)[key] == EntryOf(items[i].children).1
      {
        LastOfInit(items, key, i);
      }
    }
  }

  lemma LastOfInit(items: seq<Tree>, key: string, i: int)
    requires items != [] && IsLastEntry(items, key, i)
    ensures 0 <= i < |items|
    ensures i < |items| - 1 ==>
      IsLastEntry(items[..|items| - 1], key, i) && EntryOf(items[|items| - 1].children).0 != key
    ensures i == |items| - 1 ==> EntryOf(items[i].children).0 == key
  {
    hide EntryOf;
  }

  /** An element all of whose children are items with a key is a map with exactly their keys, each mapped to
      the value of the last item with that key. */
  lemma EntriesAreMap(t: Tree, key: string)
    requires t.children != []
    requires forall i | 0 <= i < |t.children| :: t.children[i].name == "item" && !Keyless(t.children[i])
    ensures ToValue(t).Map?
    ensures key in ToValue(t).fields <==> exists i | 0 <= i < |t.children| :: EntryOf(t.children[i].children).0 == key
    ensures forall i | 0 <= i < |t.children| && IsLastEntry(t.children, key, i) ::
      key in ToValue(t).fields && ToValue(t).fields[key] == EntryOf(t.children[i].children).1
  {
    MapKeepsLast(t.children, key);
    forall i | 0 <= i < |t.children|
      ensures HasNamed(t.children[i].children, "key")
    {
    }
  }

  /** Every value the decoder produces is free of nil. */
  lemma {:induction false} ToValueDecodable(t: Tree)
    ensures Decodable(ToValue(t))
    decreases t, 1
  {
    MapDecodable(t.children);
    ListDecodable(t.children);
    StructDecodable(t.children);
  }

  lemma {:induction false} EntryDecodable(parts: seq<Tree>)
    ensures Decodable(EntryOf(parts).1)
    decreases parts, 0
  {
    if parts != [] {
      EntryDecodable(parts[..|parts| - 1]);
      ToValueDecodable(parts[|parts| - 1]);
    }
  }

  lemma {:induction false} MapDecodable(items: seq<Tree>)
    ensures forall k | k in MapValue(items) :: Decodable(MapValue(items)[k])
    decreases items, 0
  {
    if items != [] {
      MapDecodable(items[..|items| - 1]);
      EntryDecodable(items[|items| - 1].children);
    }
  }

  lemma {:induction false} ListDecodable(items: seq<Tree>)
    ensures forall i | 0 <= i < |ListValue(items)| :: Decodable(ListValue(items)[i])
    decreases items, 0
  {
    if items != [] {
      ListDecodable(items[..|items| - 1]);
      ToValueDecodable(items[|items| - 1]);
    }
  }

  lemma {:induction false} StructDecodable(nodes: seq<Tree>)
    ensures forall k | k in StructValue(nodes) :: Decodable(StructValue(nodes)[k])
    decreases nodes, 0
  {
    if nodes != [] {
      StructDecodable(nodes[..|nodes| - 1]);
      ToValueDecodable(nodes[|nodes| - 1]);
    }
  }
}
