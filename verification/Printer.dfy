/** The notation a KAS server answers in (kasapitest/server.go): an apache Map is one <item>
    with <key> and <value> per entry, an array is one <item> per element. */
module Printer {
  import opened Text
  import opened Values
  import opened XmlTree
  import opened Decoder

  /** A value as it is printed: the entries of a map come in some order. */
  datatype Doc = Scalar(chars: string) | Items(docs: seq<Doc>) | Entries(entries: seq<Entry>)
  datatype Entry = Entry(key: string, doc: Doc)

  /** MapItem. */
  function MapItem(key: seq<Xml>, value: seq<Xml>): Xml {
    Elem("item", [Elem("key", key), Elem("value", value)])
  }

  /** The content a value is printed as. */
  function Print(d: Doc): seq<Xml> {
    match d
    case Scalar(chars) => [Xml.Text(chars)]
    case Items(docs) => PrintItems(docs)
    case Entries(entries) => PrintEntries(entries)
  }

  function PrintItems(docs: seq<Doc>): seq<Xml> {
    if docs == [] then []
    else PrintItems(docs[..|docs| - 1]) + [Elem("item", Print(docs[|docs| - 1]))]
  }

  function PrintEntries(entries: seq<Entry>): seq<Xml> {
    if entries == [] then []
    else
      var last := entries[|entries| - 1];
      PrintEntries(entries[..|entries| - 1]) + [MapItem([Xml.Text(last.key)], Print(last.doc))]
  }

  /** The value a document stands for. */
  function Denote(d: Doc): Value {
    match d
    case Scalar(chars) => Str(chars)
    case Items(docs) => List(seq(|docs|, i requires 0 <= i < |docs| => Denote(docs[i])))
    case Entries(entries) => Map(DenoteEntries(entries))
  }

  function DenoteEntries(entries: seq<Entry>): map<string, Value> {
    if entries == [] then map[]
    else
      var last := entries[|entries| - 1];
      DenoteEntries(entries[..|entries| - 1])[last.key := Denote(last.doc)]
  }

  /** The value that arrives: keys and strings are trimmed, an empty list or map is "". */
  function Arrives(d: Doc): Value {
    match d
    case Scalar(chars) => Str(Trim(chars))
    case Items(docs) => if docs == [] then Str("") else List(ArriveItems(docs))
    case Entries(entries) => if entries == [] then Str("") else Map(ArriveEntries(entries))
  }

  function ArriveItems(docs: seq<Doc>): (items: seq<Value>)
    ensures |items| == |docs|
  {
    if docs == [] then [] else ArriveItems(docs[..|docs| - 1]) + [Arrives(docs[|docs| - 1])]
  }

  function ArriveEntries(entries: seq<Entry>): map<string, Value> {
    if entries == [] then map[]
    else
      var last := entries[|entries| - 1];
      ArriveEntries(entries[..|entries| - 1])[Trim(last.key) := Arrives(last.doc)]
  }

  /** Printed lists and maps hold no direct text, and one element per entry, all named item. */
  lemma {:induction false} ItemsShape(docs: seq<Doc>)
    ensures DirectText(PrintItems(docs)) == ""
    ensures Elements(PrintItems(docs)) == ItemTrees(docs)
  {
    if docs != [] {
      var init, last := docs[..|docs| - 1], docs[|docs| - 1];
      ItemsShape(init);
      var printed := PrintItems(docs);
      assert printed[..|printed| - 1] == PrintItems(init);
      assert ItemTrees(docs) == ItemTrees(init) + [TreeOf("item", Print(last))];
    }
  }

  function ItemTrees(docs: seq<Doc>): seq<Tree> {
    seq(|docs|, i requires 0 <= i < |docs| => TreeOf("item", Print(docs[i])))
  }

  lemma {:induction false} EntriesShape(entries: seq<Entry>)
    ensures DirectText(PrintEntries(entries)) == ""
    ensures |Elements(PrintEntries(entries))| == |entries|
    ensures forall i | 0 <= i < |entries| :: Elements(PrintEntries(entries))[i] == EntryTree(entries[i])
  {
    if entries != [] {
      var init, last := entries[..|entries| - 1], entries[|entries| - 1];
      EntriesShape(init);
      EntryShape(last);
      var item := MapItem([Xml.Text(last.key)], Print(last.doc));
      SingleShape(item);
      ContentConcat(PrintEntries(init), [item]);
      assert Elements(PrintEntries(entries)) == Elements(PrintEntries(init)) + [EntryTree(last)];
    }
  }

  lemma EntryShape(e: Entry)
    ensures ElementOf(MapItem([Xml.Text(e.key)], Print(e.doc))) == [EntryTree(e)]
    ensures TextOf(MapItem([Xml.Text(e.key)], Print(e.doc))) == ""
  {
    PairShape([Xml.Text(e.key)], Print(e.doc));
  }

  function EntryTree(e: Entry): Tree {
    Node("item", "", [TreeOf("key", [Xml.Text(e.key)]), TreeOf("value", Print(e.doc))])
  }

  /** Content of one piece. */
  lemma SingleShape(x: Xml)
    ensures DirectText([x]) == TextOf(x)
    ensures Elements([x]) == ElementOf(x)
  {
    assert [x][..0] == [];
    assert "" + TextOf(x) == TextOf(x) && [] + ElementOf(x) == ElementOf(x);
  }

  lemma PairShape(key: seq<Xml>, value: seq<Xml>)
    ensures DirectText([Elem("key", key), Elem("value", value)]) == ""
    ensures Elements([Elem("key", key), Elem("value", value)]) == [TreeOf("key", key), TreeOf("value", value)]
  {
    var k, v := Elem("key", key), Elem("value", value);
    SingleShape(k);
    SingleShape(v);
    ContentConcat([k], [v]);
    assert [k] + [v] == [k, v];
  }

  lemma TextShape(chars: string)
    ensures DirectText([Xml.Text(chars)]) == chars
    ensures Elements([Xml.Text(chars)]) == []
  {
    SingleShape(Xml.Text(chars));
  }

  /** No child of a printed list entry is named key: a list is never taken for a map. */
  lemma NoKeyInside(d: Doc)
    ensures !HasNamed(Elements(Print(d)), "key")
  {
    match d
    case Scalar(chars) => TextShape(chars);
    case Items(docs) => ItemsShape(docs);
    case Entries(entries) => EntriesShape(entries);
  }

  /** Decoding what was printed, for every document and whatever element it is printed in. */
  lemma {:induction false} DecodePrinted(d: Doc, name: string)
    ensures ToValue(TreeOf(name, Print(d))) == Arrives(d)
    decreases d, 1
  {
    match d
    case Scalar(chars) =>
      TextShape(chars);
    case Items(docs) =>
      ItemsShape(docs);
      assert Trimmed("");
      if docs != [] {
        PrintedList(docs);
        DecodeItems(docs);
      }
    case Entries(entries) =>
      EntriesShape(entries);
      assert Trimmed("");
      if entries != [] {
        PrintedMap(entries);
        DecodeEntries(entries);
      }
  }

  /** A printed list is a list and no map. */
  lemma PrintedList(docs: seq<Doc>)
    requires docs != []
    ensures !IsKeyValueMap(Elements(PrintItems(docs)))
    ensures Decoder.AllNamed(Elements(PrintItems(docs)), "item")
  {
    ItemsShape(docs);
    NoKeyInside(docs[0]);
    assert Elements(PrintItems(docs))[0].children == Elements(Print(docs[0]));
  }

  /** A printed map is a map. */
  lemma PrintedMap(entries: seq<Entry>)
    requires entries != []
    ensures IsKeyValueMap(Elements(PrintEntries(entries)))
  {
    EntriesShape(entries);
    forall i | 0 <= i < |entries|
      ensures HasNamed(Elements(PrintEntries(entries))[i].children, "key")
    {
      assert EntryTree(entries[i]).children[0].name == "key";
    }
  }

  lemma {:induction false} DecodeItems(docs: seq<Doc>)
    ensures ListValue(Elements(PrintItems(docs))) == ArriveItems(docs)
    decreases docs, 0
  {
    if docs != [] {
      var init, last := docs[..|docs| - 1], docs[|docs| - 1];
      DecodeItems(init);
      DecodePrinted(last, "item");
      var nodes := Elements(PrintItems(docs));
      assert nodes == Elements(PrintItems(init)) + [TreeOf("item", Print(last))];
      assert nodes[..|nodes| - 1] == Elements(PrintItems(init));
    }
  }

  lemma {:induction false} DecodeEntries(entries: seq<Entry>)
    ensures MapValue(Elements(PrintEntries(entries))) == ArriveEntries(entries)
    decreases entries, 0
  {
    if entries != [] {
      var init, last := entries[..|entries| - 1], entries[|entries| - 1];
      DecodeEntries(init);
      DecodePrinted(last.doc, "value");
      PairShape([Xml.Text(last.key)], Print(last.doc));
      PairEntry(last.key, TreeOf("value", Print(last.doc)));
      var nodes := Elements(PrintEntries(entries));
      assert nodes == Elements(PrintEntries(init)) + [EntryTree(last)];
      assert nodes[..|nodes| - 1] == Elements(PrintEntries(init));
    }
  }

  lemma PairEntry(key: string, value: Tree)
    requires value.name == "value"
    ensures EntryOf([TreeOf("key", [Xml.Text(key)]), value]) == (Trim(key), ToValue(value))
  {
    TextShape(key);
    var k := TreeOf("key", [Xml.Text(key)]);
    assert [k, value][..1] == [k] && [k][..0] == [];
    assert EntryOf([k]) == (Trim(key), Str(""));
  }

  // ----- which values survive -----

  predicate DistinctKeys(entries: seq<Entry>) {
    forall i, j | 0 <= i < j < |entries| :: entries[i].key != entries[j].key
  }

  /** The maps of a document have distinct keys, as the maps it stands for do. */
  predicate WellFormed(d: Doc) {
    match d
    case Scalar(_) => true
    case Items(docs) => forall i | 0 <= i < |docs| :: WellFormed(docs[i])
    case Entries(entries) =>
      DistinctKeys(entries) && forall i | 0 <= i < |entries| :: WellFormed(entries[i].doc)
  }

  /** Strings and keys are trimmed, and no list or map is empty. */
  predicate Clean(d: Doc) {
    match d
    case Scalar(chars) => Trimmed(chars)
    case Items(docs) => docs != [] && forall i | 0 <= i < |docs| :: Clean(docs[i])
    case Entries(entries) =>
      entries != [] && forall i | 0 <= i < |entries| :: Trimmed(entries[i].key) && Clean(entries[i].doc)
  }

  /** A value arrives unchanged exactly when it is clean. */
  lemma {:induction false} RoundTrip(d: Doc, name: string)
    requires WellFormed(d)
    ensures ToValue(TreeOf(name, Print(d))) == Denote(d) <==> Clean(d)
  {
    DecodePrinted(d, name);
    ArrivesIffClean(d);
  }

  lemma {:induction false} ArrivesIffClean(d: Doc)
    requires WellFormed(d)
    ensures Arrives(d) == Denote(d) <==> Clean(d)
    decreases d
  {
    match d
    case Scalar(chars) =>
    case Items(docs) =>
      forall i | 0 <= i < |docs|
        ensures ArriveItems(docs)[i] == Denote(d).items[i] <==> Clean(docs[i])
      {
        ArriveItemsAt(docs, i);
        ArrivesIffClean(docs[i]);
      }
      if Clean(d) {
        assert ArriveItems(docs) == Denote(d).items;
      } else if docs != [] {
        var i :| 0 <= i < |docs| && !Clean(docs[i]);
        assert ArriveItems(docs)[i] != Denote(d).items[i];
      }
    case Entries(entries) =>
      forall i | 0 <= i < |entries|
        ensures Arrives(entries[i].doc) == Denote(entries[i].doc) <==> Clean(entries[i].doc)
      {
        ArrivesIffClean(entries[i].doc);
      }
      DenoteKeys(entries);
      ArriveKeys(entries);
      if Clean(d) {
        SameEntries(entries);
      }
      if Arrives(d) == Denote(d) && entries != [] {
        forall i | 0 <= i < |entries|
          ensures Trimmed(entries[i].key)
        {
          assert entries[i].key in DenoteEntries(entries);
        }
        ArriveAt(entries);
        DenoteAt(entries);
        assert forall i | 0 <= i < |entries| :: Arrives(entries[i].doc) == Denote(entries[i].doc);
      }
  }

  lemma {:induction false} ArriveItemsAt(docs: seq<Doc>, i: nat)
    requires i < |docs|
    ensures ArriveItems(docs)[i] == Arrives(docs[i])
  {
    if i < |docs| - 1 {
      ArriveItemsAt(docs[..|docs| - 1], i);
    }
  }

  lemma {:induction false} SameEntries(entries: seq<Entry>)
    requires forall i | 0 <= i < |entries| ::
      Trimmed(entries[i].key) && Arrives(entries[i].doc) == Denote(entries[i].doc)
    ensures ArriveEntries(entries) == DenoteEntries(entries)
  {
    if entries != [] {
      SameEntries(entries[..|entries| - 1]);
    }
  }

  lemma {:induction false} DenoteKeys(entries: seq<Entry>)
    ensures forall k :: k in DenoteEntries(entries) <==> exists i | 0 <= i < |entries| :: entries[i].key == k
  {
    if entries != [] {
      var init, last := entries[..|entries| - 1], entries[|entries| - 1];
      DenoteKeys(init);
      forall k
        ensures k in DenoteEntries(entries) <==> exists i | 0 <= i < |entries| :: entries[i].key == k
      {
        if exists i | 0 <= i < |entries| :: entries[i].key == k {
          var i :| 0 <= i < |entries| && entries[i].key == k;
          assert i < |init| ==> init[i].key == k;
        }
      }
    }
  }

  lemma {:induction false} ArriveKeys(entries: seq<Entry>)
    ensures forall k | k in ArriveEntries(entries) :: Trimmed(k)
  {
    if entries != [] {
      ArriveKeys(entries[..|entries| - 1]);
    }
  }

  lemma {:induction false} DenoteAt(entries: seq<Entry>)
    requires DistinctKeys(entries)
    ensures forall i | 0 <= i < |entries| ::
      entries[i].key in DenoteEntries(entries) && DenoteEntries(entries)[entries[i].key] == Denote(entries[i].doc)
  {
    if entries != [] {
      DenoteAt(entries[..|entries| - 1]);
      assert forall i | 0 <= i < |entries| - 1 :: entries[..|entries| - 1][i] == entries[i];
    }
  }

  lemma {:induction false} ArriveAt(entries: seq<Entry>)
    requires DistinctKeys(entries) && forall i | 0 <= i < |entries| :: Trimmed(entries[i].key)
    ensures forall i | 0 <= i < |entries| ::
      entries[i].key in ArriveEntries(entries) && ArriveEntries(entries)[entries[i].key] == Arrives(entries[i].doc)
  {
    if entries != [] {
      ArriveAt(entries[..|entries| - 1]);
      assert forall i | 0 <= i < |entries| - 1 :: entries[..|entries| - 1][i] == entries[i];
    }
  }

  /** Every value without nil has a printed form. */
  lemma {:induction false} Printable(v: Value) returns (d: Doc)
    requires Decodable(v)
    ensures WellFormed(d) && Denote(d) == v
    decreases v, 1
  {
    match v
    case Str(chars) => d := Scalar(chars);
    case List(items) => d := PrintableList(v);
    case Map(fields) => d := PrintableMap(v);
  }

  lemma {:induction false} PrintableList(v: Value) returns (d: Doc)
    requires v.List? && Decodable(v)
    ensures WellFormed(d) && Denote(d) == v
    decreases v, 0
  {
    var docs: seq<Doc> := [];
    for i := 0 to |v.items|
      invariant |docs| == i
      invariant forall j | 0 <= j < i :: WellFormed(docs[j]) && Denote(docs[j]) == v.items[j]
    {
      var item := Printable(v.items[i]);
      docs := docs + [item];
    }
    d := Items(docs);
    assert Denote(d).items == v.items;
  }

  lemma {:induction false} PrintableMap(v: Value) returns (d: Doc)
    requires v.Map? && Decodable(v)
    ensures WellFormed(d) && Denote(d) == v
    decreases v, 0
  {
    var entries: seq<Entry> := [];
    var todo := v.fields.Keys;
    while todo != {}
      invariant todo <= v.fields.Keys && Lists(entries, v.fields, todo)
      decreases |todo|
    {
      var k :| k in todo;
      var doc := Printable(v.fields[k]);
      ListsOne(entries, v.fields, todo, k, doc);
      entries := entries + [Entry(k, doc)];
      todo := todo - {k};
    }
    d := Entries(entries);
    assert DenoteEntries(entries) == v.fields;
  }

  /** Some entries list all fields but those still to do. */
  ghost predicate Lists(entries: seq<Entry>, fields: map<string, Value>, todo: set<string>) {
    && (forall i | 0 <= i < |entries| :: WellFormed(entries[i].doc) && entries[i].key in fields.Keys - todo)
    && DistinctKeys(entries)
    && DenoteEntries(entries).Keys == fields.Keys - todo
    && (forall k | k in DenoteEntries(entries) :: DenoteEntries(entries)[k] == fields[k])
  }

  lemma ListsOne(entries: seq<Entry>, fields: map<string, Value>, todo: set<string>, k: string, doc: Doc)
    requires todo <= fields.Keys && Lists(entries, fields, todo) && k in todo
    requires WellFormed(doc) && Denote(doc) == fields[k]
    ensures Lists(entries + [Entry(k, doc)], fields, todo - {k})
  {
    hide WellFormed, Denote;
    assert (entries + [Entry(k, doc)])[..|entries|] == entries;
  }

  /** The names used in printed content. */
  lemma {:induction false} PrintedNames(d: Doc, name: string)
    requires name !in {"item", "key", "value"}
    ensures Absent(Elements(Print(d)), name)
    decreases d
  {
    match d
    case Scalar(chars) => TextShape(chars);
    case Items(docs) =>
      ItemsShape(docs);
      forall i | 0 <= i < |docs|
        ensures AbsentAt(Elements(Print(d))[i], name)
      {
        PrintedNames(docs[i], name);
      }
    case Entries(entries) =>
      EntriesShape(entries);
      forall i | 0 <= i < |entries|
        ensures AbsentAt(Elements(Print(d))[i], name)
      {
        PrintedNames(entries[i].doc, name);
        TextShape(entries[i].key);
        var t := EntryTree(entries[i]);
        assert AbsentAt(t.children[0], name) && AbsentAt(t.children[1], name);
      }
  }
}
