/** The in-process fake KAS server (kasapitest/server.go): what it answers, as the
    content of the document it writes. White space between elements is always GAP here. */
module FakeServer {
  import opened Text
  import opened Values
  import opened XmlTree
  import opened Decoder
  import opened Printer
  import opened Soap
  import opened Caller

  /** What its user configures; digest is the hexadecimal SHA-1. raw is the content an XML parser reads where
      a text is written unescaped: the token, the flood delay, the action and what the handler answers. */
  datatype Setup = Setup(password: string, digest: string -> string, token: string, otp: string, floodDelay: string,
                         raw: string -> seq<Xml>)

  /** The check of kas_auth_type and kas_auth_data. */
  predicate Accepts(s: Setup, authType: AuthType, authData: string) {
    match authType
    case Sha1 => authData == s.digest(s.password)
    case Plain => authData == s.password
  }

  /** What a handler returns: a ReturnInfo fragment, or a non-empty fault code. */
  datatype Answer = Answer(info: string, fault: string)

  /** The answers to actions and parameters; the number of earlier calls is what a handler may remember. */
  type Handler = (nat, string, Params) -> Answer

  datatype Http = Http(status: int, body: seq<Xml>)

  const STATUS_INTERNAL_SERVER_ERROR := 500
  const GAP := "\n  "

  // ----- the documents -----

  /** Elements on lines of their own. */
  function Lines(elements: seq<Xml>): seq<Xml> {
    if elements == [] then [Xml.Text(GAP)]
    else Lines(elements[..|elements| - 1]) + [elements[|elements| - 1], Xml.Text(GAP)]
  }

  function Document(inBody: Xml): seq<Xml> {
    [Misc] + Lines([Elem("Envelope", Lines([Elem("Body", [inBody])]))])
  }

  /** Envelope. */
  function Envelope(inner: seq<Xml>): seq<Xml> {
    Document(Elem("Response", inner))
  }

  function FaultElement(code: seq<Xml>): Xml {
    Elem("Fault", Lines([Elem("faultcode", [Xml.Text("SOAP-ENV:Server")]), Elem("faultstring", code)]))
  }

  /** WriteFault. */
  function WriteFault(code: seq<Xml>): Http {
    Http(STATUS_INTERNAL_SERVER_ERROR, Document(FaultElement(code)))
  }

  /** WriteFault with a code of the server's own. */
  function WriteCode(code: string): Http {
    WriteFault([Xml.Text(code)])
  }

  /** A map entry as the server writes it. */
  datatype Pair = Pair(key: string, value: seq<Xml>)

  function ItemOf(p: Pair): Xml {
    MapItem([Xml.Text(p.key)], p.value)
  }

  function ItemsOf(pairs: seq<Pair>): seq<Xml> {
    seq(|pairs|, i requires 0 <= i < |pairs| => ItemOf(pairs[i]))
  }

  function RequestPairs(action: seq<Xml>, echo: seq<Entry>): seq<Pair> {
    [Pair("KasRequestType", action), Pair("KasRequestParams", PrintEntries(echo))]
  }

  function ResponsePairs(floodDelay: seq<Xml>, info: seq<Xml>): seq<Pair> {
    [Pair("KasFloodDelay", floodDelay), Pair("ReturnString", [Xml.Text("TRUE")]), Pair("ReturnInfo", info)]
  }

  function ReturnPairs(action: seq<Xml>, echo: seq<Entry>, floodDelay: seq<Xml>, info: seq<Xml>): seq<Pair> {
    [Pair("Request", Lines(ItemsOf(RequestPairs(action, echo)))),
     Pair("Response", Lines(ItemsOf(ResponsePairs(floodDelay, info))))]
  }

  /** serveAuth. A PIN of "" stands for a request without one. */
  function ServeAuth(s: Setup, authType: AuthType, authData: string, pin: string): Http {
    if !Accepts(s, authType, authData) then WriteCode("kas_login_incorrect")
    else if s.otp != "" && pin != s.otp then WriteCode("kas_2fa_incorrect")
    else Http(STATUS_OK, Envelope([Elem("return", s.raw(s.token))]))
  }

  /** serve, for KasApi: the action is echoed as it is, and the parameters as any printed entries. */
  function ServeApi(s: Setup, token: string, action: string, echo: seq<Entry>, answer: Answer): Http {
    if token != s.token then WriteCode("session_expired")
    else if answer.fault != "" then WriteFault(s.raw(answer.fault))
    else Http(STATUS_OK, Envelope([Elem("return", ReturnContent(s, action, echo, answer))]))
  }

  function ReturnContent(s: Setup, action: string, echo: seq<Entry>, answer: Answer): seq<Xml> {
    Lines(ItemsOf(ReturnPairs(s.raw(action), echo, s.raw(s.floodDelay), s.raw(answer.info))))
  }

  /** Faults are sent with status 500, bodies without a request turned down with 400, and all else is 200. */
  lemma Statuses(s: Setup, authType: AuthType, authData: string, pin: string, token: string, action: string,
                 echo: seq<Entry>, answer: Answer)
    ensures ServeAuth(s, authType, authData, pin).status ==
      if Accepts(s, authType, authData) && (s.otp == "" || pin == s.otp) then 200 else 500
    ensures ServeApi(s, token, action, echo, answer).status ==
      if token == s.token && answer.fault == "" then 200 else 500
  {
  }

  /** What soapCall makes of an answer. */
  function ReplyTo(h: Http): Reply {
    Classify(h.status, TreeOf(ROOT, h.body))
  }

  /** So soapCall takes it, parsing the tokens of the document. */
  lemma ReplyIsParsed(h: Http)
    ensures ReplyTo(h) == Classify(h.status, CloseAll(AdvanceAll(START, Tokens(h.body))))
  {
    ParseRebuilds(h.body);
  }

  // ----- searching the documents -----

  lemma {:induction false} FindConcat(a: seq<Tree>, b: seq<Tree>, name: string)
    ensures FindIn(a + b, name) == if FindIn(a, name).Found? then FindIn(a, name) else FindIn(b, name)
  {
    if a == [] {
      assert a + b == b;
    } else {
      assert (a + b)[1..] == a[1..] + b;
      FindConcat(a[1..], b, name);
    }
  }

  lemma FindInOne(t: Tree, name: string)
    ensures FindIn([t], name) == if t.name == name then Found(t) else FindIn(t.children, name)
  {
    assert FindIn([t][1..], name) == NotFound;
  }

  lemma {:induction false} LinesShape(elements: seq<Xml>)
    ensures Elements(Lines(elements)) == Elements(elements)
  {
    SingleShape(Xml.Text(GAP));
    if elements != [] {
      var init, last := elements[..|elements| - 1], elements[|elements| - 1];
      LinesShape(init);
      ContentConcat(Lines(init), [last, Xml.Text(GAP)]);
      ContentConcat([last], [Xml.Text(GAP)]);
      SingleShape(last);
      assert [last] + [Xml.Text(GAP)] == [last, Xml.Text(GAP)];
    }
  }

  lemma OneLine(x: Xml)
    ensures Elements(Lines([x])) == ElementOf(x)
  {
    LinesShape([x]);
    SingleShape(x);
  }

  /** Searching a document for anything but its frame is searching what is in its body. */
  lemma FindInDocument(inBody: Xml, name: string)
    requires name != "Envelope" && name != "Body" && inBody.Elem?
    ensures Find(TreeOf(ROOT, Document(inBody)), name) == FindIn([TreeOf(inBody.name, inBody.content)], name)
  {
    var body := Elem("Body", [inBody]);
    var envelope := Elem("Envelope", Lines([body]));
    SingleShape(Misc);
    OneLine(envelope);
    ContentConcat([Misc], Lines([envelope]));
    OneLine(body);
    SingleShape(inBody);
    FindInOne(TreeOf("Envelope", envelope.content), name);
    FindInOne(TreeOf("Body", body.content), name);
  }

  lemma ItemShape(p: Pair)
    ensures Elements([ItemOf(p)]) == [PairTree(p)]
  {
    PairShape([Xml.Text(p.key)], p.value);
    SingleShape(ItemOf(p));
  }

  function TreesOf(pairs: seq<Pair>): seq<Tree> {
    seq(|pairs|, i requires 0 <= i < |pairs| => PairTree(pairs[i]))
  }

  lemma {:induction false} ItemsOfShape(pairs: seq<Pair>)
    ensures Elements(ItemsOf(pairs)) == TreesOf(pairs)
  {
    hide DirectText;
    if pairs != [] {
      var init, last := pairs[..|pairs| - 1], pairs[|pairs| - 1];
      ItemsOfShape(init);
      assert ItemsOf(pairs) == ItemsOf(init) + [ItemOf(last)];
      ItemShape(last);
      ContentConcat(ItemsOf(init), [ItemOf(last)]);
      assert TreesOf(pairs) == TreesOf(init) + [PairTree(last)];
    }
  }

  function PairTree(p: Pair): Tree {
    Node("item", "", [TreeOf("key", [Xml.Text(p.key)]), TreeOf("value", p.value)])
  }

  /** The first match inside the values of some pairs. */
  function FindInPairs(pairs: seq<Pair>, name: string): Search {
    if pairs == [] then NotFound
    else
      var before := FindInPairs(pairs[..|pairs| - 1], name);
      if before.Found? then before else FindIn(Elements(pairs[|pairs| - 1].value), name)
  }

  predicate NotOfMap(name: string) {
    name != "item" && name != "key" && name != "value"
  }

  lemma FindInPair(p: Pair, name: string)
    requires NotOfMap(name)
    ensures FindIn([PairTree(p)], name) == FindIn(Elements(p.value), name)
  {
    var k, v := TreeOf("key", [Xml.Text(p.key)]), TreeOf("value", p.value);
    TextShape(p.key);
    FindInOne(PairTree(p), name);
    FindConcat([k], [v], name);
    assert [k] + [v] == [k, v];
    FindInOne(k, name);
    FindInOne(v, name);
  }

  lemma {:induction false} FindInItems(pairs: seq<Pair>, name: string)
    requires NotOfMap(name)
    ensures FindIn(Elements(Lines(ItemsOf(pairs))), name) == FindInPairs(pairs, name)
  {
    LinesShape(ItemsOf(pairs));
    if pairs != [] {
      var init, last := pairs[..|pairs| - 1], pairs[|pairs| - 1];
      FindInItems(init, name);
      LinesShape(ItemsOf(init));
      ItemsOfShape(pairs);
      ItemsOfShape(init);
      assert Elements(ItemsOf(pairs)) == Elements(ItemsOf(init)) + [PairTree(last)];
      FindConcat(Elements(ItemsOf(init)), [PairTree(last)], name);
      FindInPair(last, name);
    }
  }

  lemma FindInTwo(p: Pair, q: Pair, name: string)
    ensures FindInPairs([p, q], name) ==
      if FindIn(Elements(p.value), name).Found? then FindIn(Elements(p.value), name) else FindIn(Elements(q.value), name)
  {
    assert [p, q][..1] == [p] && [p][..0] == [];
    assert FindInPairs([p], name) == FindIn(Elements(p.value), name);
  }

  /** The first match in three pieces of content. */
  function FirstOfThree(a: seq<Xml>, b: seq<Xml>, c: seq<Xml>, name: string): Search {
    if FindIn(Elements(a), name).Found? then FindIn(Elements(a), name)
    else if FindIn(Elements(b), name).Found? then FindIn(Elements(b), name)
    else FindIn(Elements(c), name)
  }

  /** An element of any other name is found in a response exactly where it is in the echoed action, the
      flood delay or the handler's part: the echoed parameters and the frame hold none. */
  lemma FindInReturn(action: seq<Xml>, echo: seq<Entry>, floodDelay: seq<Xml>, info: seq<Xml>, name: string)
    requires NotOfMap(name)
    ensures FindIn(Elements(Lines(ItemsOf(ReturnPairs(action, echo, floodDelay, info)))), name)
         == FirstOfThree(action, floodDelay, info, name)
  {
    hide Elements, Lines, ItemsOf, DirectText, FindIn, FindInPairs;
    var outer := ReturnPairs(action, echo, floodDelay, info);
    FindInItems(outer, name);
    FindInTwo(outer[0], outer[1], name);
    FindInRequest(action, echo, name);
    FindInResponse(floodDelay, info, name);
  }

  lemma FindInRequest(action: seq<Xml>, echo: seq<Entry>, name: string)
    requires NotOfMap(name)
    ensures FindIn(Elements(Lines(ItemsOf(RequestPairs(action, echo)))), name) == FindIn(Elements(action), name)
  {
    var request := RequestPairs(action, echo);
    FindInItems(request, name);
    FindInTwo(request[0], request[1], name);
    PrintedNames(Entries(echo), name);
    FindAbsent(Elements(PrintEntries(echo)), name);
  }

  lemma FindInResponse(floodDelay: seq<Xml>, info: seq<Xml>, name: string)
    requires NotOfMap(name)
    ensures FindIn(Elements(Lines(ItemsOf(ResponsePairs(floodDelay, info)))), name) ==
      if FindIn(Elements(floodDelay), name).Found? then FindIn(Elements(floodDelay), name) else FindIn(Elements(info), name)
  {
    var response := ResponsePairs(floodDelay, info);
    FindInItems(response, name);
    TextShape("TRUE");
    assert response[..2] == [response[0], response[1]];
    FindInTwo(response[0], response[1], name);
  }

  // ----- decoding the documents -----

  function PairsValue(pairs: seq<Pair>): map<string, Value> {
    if pairs == [] then map[]
    else
      var last := pairs[|pairs| - 1];
      PairsValue(pairs[..|pairs| - 1])[Trim(last.key) := ToValue(TreeOf("value", last.value))]
  }

  lemma {:induction false} ItemsValue(pairs: seq<Pair>)
    ensures MapValue(Elements(ItemsOf(pairs))) == PairsValue(pairs)
  {
    hide Elements, DirectText, ToValue, EntryOf;
    ItemsOfShape(pairs);
    if pairs != [] {
      var init, last := pairs[..|pairs| - 1], pairs[|pairs| - 1];
      ItemsValue(init);
      ItemsOfShape(init);
      assert TreesOf(pairs)[..|pairs| - 1] == TreesOf(init);
      PairEntry(last.key, TreeOf("value", last.value));
    }
  }

  lemma PairsAreMap(pairs: seq<Pair>)
    requires pairs != []
    ensures TreesOf(pairs) != [] && IsKeyValueMap(TreesOf(pairs))
  {
    forall i | 0 <= i < |pairs|
      ensures HasNamed(TreesOf(pairs)[i].children, "key")
    {
      assert TreesOf(pairs)[i].children[0].name == "key";
    }
  }

  /** Items on lines decode to the map of their values. */
  lemma LinesValue(pairs: seq<Pair>, name: string)
    requires pairs != []
    ensures ToValue(TreeOf(name, Lines(ItemsOf(pairs)))) == Map(PairsValue(pairs))
  {
    hide TreesOf, IsKeyValueMap, MapValue, Elements, DirectText, Lines, ItemsOf, PairsValue;
    LinesShape(ItemsOf(pairs));
    ItemsOfShape(pairs);
    ItemsValue(pairs);
    PairsAreMap(pairs);
  }

  lemma TwoValue(p: Pair, q: Pair)
    requires Trimmed(p.key) && Trimmed(q.key) && p.key != q.key
    ensures PairsValue([p, q]) ==
      map[p.key := ToValue(TreeOf("value", p.value)), q.key := ToValue(TreeOf("value", q.value))]
  {
    assert [p, q][..1] == [p] && [p][..0] == [];
    assert PairsValue([p]) == map[p.key := ToValue(TreeOf("value", p.value))];
  }

  lemma ThreeValue(p: Pair, q: Pair, r: Pair)
    requires Trimmed(p.key) && Trimmed(q.key) && Trimmed(r.key)
    requires p.key != q.key && p.key != r.key && q.key != r.key
    ensures PairsValue([p, q, r]) ==
      map[p.key := ToValue(TreeOf("value", p.value)), q.key := ToValue(TreeOf("value", q.value)),
          r.key := ToValue(TreeOf("value", r.value))]
  {
    hide ToValue, Trim, DirectText, Elements;
    TwoValue(p, q);
    assert [p, q, r][..2] == [p, q];
    assert Trim(r.key) == r.key;
  }

  lemma ScalarValue(chars: string, name: string)
    ensures ToValue(TreeOf(name, [Xml.Text(chars)])) == Str(Trim(chars))
  {
    DecodePrinted(Scalar(chars), name);
    assert Arrives(Scalar(chars)) == Str(Trim(chars));
  }

  /** What the server puts into Response. */
  function ResponseOf(floodDelay: Value, info: Value): Value {
    Map(map["KasFloodDelay" := floodDelay, "ReturnString" := Str("TRUE"), "ReturnInfo" := info])
  }

  lemma ResponseValue(floodDelay: seq<Xml>, info: seq<Xml>)
    ensures ToValue(TreeOf("value", Lines(ItemsOf(ResponsePairs(floodDelay, info)))))
         == ResponseOf(ToValue(TreeOf("value", floodDelay)), ToValue(TreeOf("value", info)))
  {
    hide Lines, Elements, DirectText, Trim, ToValue, ItemsOf;
    var pairs := ResponsePairs(floodDelay, info);
    LinesValue(pairs, "value");
    ThreeValue(pairs[0], pairs[1], pairs[2]);
    ScalarValue("TRUE", "value");
    assert Trimmed("TRUE");
  }

  /** What the server puts into Request. */
  function RequestOf(action: Value, params: Value): Value {
    Map(map["KasRequestType" := action, "KasRequestParams" := params])
  }

  lemma RequestValue(action: seq<Xml>, echo: seq<Entry>)
    ensures ToValue(TreeOf("value", Lines(ItemsOf(RequestPairs(action, echo)))))
         == RequestOf(ToValue(TreeOf("value", action)), ToValue(TreeOf("value", PrintEntries(echo))))
  {
    hide Lines, Elements, DirectText, Trim, ToValue, ItemsOf, PrintEntries;
    var pairs := RequestPairs(action, echo);
    LinesValue(pairs, "value");
    TwoValue(pairs[0], pairs[1]);
  }

  /** The decoded response holds the request as it was, and the flood delay, TRUE and the handler's content;
      the top level holds nothing else. */
  lemma ReturnValue(action: seq<Xml>, echo: seq<Entry>, floodDelay: seq<Xml>, info: seq<Xml>, name: string)
    ensures var ret := ToValue(TreeOf(name, Lines(ItemsOf(ReturnPairs(action, echo, floodDelay, info)))));
      && ret.Map? && ret.fields.Keys == {"Request", "Response"}
      && ret.fields["Request"] == RequestOf(ToValue(TreeOf("value", action)), ToValue(TreeOf("value", PrintEntries(echo))))
      && ret.fields["Response"] == ResponseOf(ToValue(TreeOf("value", floodDelay)), ToValue(TreeOf("value", info)))
  {
    hide Lines, Elements, DirectText, Trim, ToValue, ItemsOf, PrintEntries;
    var outer := ReturnPairs(action, echo, floodDelay, info);
    RequestValue(action, echo);
    LinesValue(outer, name);
    TwoValue(outer[0], outer[1]);
    ResponseValue(floodDelay, info);
  }

  lemma ReadResponse(cfg: Config, ret: Value, floodDelay: Value, info: Value)
    requires ret.Map? && ret.fields.Keys == {"Request", "Response"}
    requires ret.fields["Response"] == ResponseOf(floodDelay, info)
    ensures ResponseResult(ret) == Ok(info)
    ensures var d := AsFloat(cfg, floodDelay); DelaySeconds(cfg, ret) == if d > 0.0 then d else 2.0
  {
  }

  // ----- the replies -----

  /** The code a client reads from a fault. */
  function CodeRead(code: seq<Xml>): string {
    if Trim(DirectText(code)) != "" then Trim(DirectText(code)) else "SOAP-ENV:Server"
  }

  lemma ElementsOfTwo(a: Xml, b: Xml)
    ensures Elements([a, b]) == ElementOf(a) + ElementOf(b)
  {
    SingleShape(a);
    SingleShape(b);
    ContentConcat([a], [b]);
    assert [a] + [b] == [a, b];
  }

  lemma ChildTextOfTwo(a: Tree, b: Tree, name: string)
    ensures ChildText([a, b], name) == if a.name == name then a.text else if b.name == name then b.text else ""
  {
    assert [a, b][1..] == [b] && [b][1..] == [];
    assert ChildText([b], name) == if b.name == name then b.text else "";
  }

  lemma FaultContent(code: seq<Xml>)
    ensures Elements(FaultElement(code).content) ==
      [Node("faultcode", "SOAP-ENV:Server", []), TreeOf("faultstring", code)]
  {
    var faultcode, faultstring := Elem("faultcode", [Xml.Text("SOAP-ENV:Server")]), Elem("faultstring", code);
    LinesShape([faultcode, faultstring]);
    ElementsOfTwo(faultcode, faultstring);
    TextShape("SOAP-ENV:Server");
  }

  lemma FaultReply(code: seq<Xml>)
    ensures ReplyTo(WriteFault(code)) == Fault(CodeRead(code))
  {
    hide Lines, Elements, DirectText, FindIn, ChildText, Trim;
    var fault := FaultElement(code);
    FindInDocument(fault, "Fault");
    FindInOne(TreeOf(fault.name, fault.content), "Fault");
    FaultContent(code);
    var a, b := Node("faultcode", "SOAP-ENV:Server", []), TreeOf("faultstring", code);
    ChildTextOfTwo(a, b, "faultstring");
    ChildTextOfTwo(a, b, "faultcode");
    assert Trimmed("SOAP-ENV:Server");
  }

  lemma CodeReply(code: string)
    requires code != "" && Trimmed(code)
    ensures ReplyTo(WriteCode(code)) == Fault(code)
  {
    hide Lines, Elements, DirectText, FindIn;
    FaultReply([Xml.Text(code)]);
    TextShape(code);
  }

  /** What a client sees of a handler's answer. */
  datatype Seen = Value(value: Values.Value) | Refusal(code: string)

  /** The first <Fault> where the server writes unescaped text into a response. */
  function FaultIn(s: Setup, action: string, answer: Answer): Search {
    FirstOfThree(s.raw(action), s.raw(s.floodDelay), s.raw(answer.info), "Fault")
  }

  /** A <Fault> in unescaped text is taken for one. */
  function See(s: Setup, action: string, answer: Answer): Seen {
    if answer.fault != "" then Refusal(CodeRead(s.raw(answer.fault)))
    else
      match FaultIn(s, action, answer)
      case Found(fault) => Refusal(CodeOf(fault))
      case NotFound => Value(ToValue(TreeOf("value", s.raw(answer.info))))
  }

  predicate NoFault(content: seq<Xml>) {
    Absent(Elements(content), "Fault")
  }

  /** A client sees a value exactly if the handler answers one and neither its fragment nor the action nor
      the flood delay brings a <Fault> into the response. */
  lemma SeenValue(s: Setup, action: string, answer: Answer)
    ensures See(s, action, answer).Value? <==>
      answer.fault == "" && NoFault(s.raw(action)) && NoFault(s.raw(s.floodDelay)) && NoFault(s.raw(answer.info))
    ensures See(s, action, answer).Value? ==>
      See(s, action, answer) == Value(ToValue(TreeOf("value", s.raw(answer.info))))
  {
    hide Absent, Elements, ToValue;
    FindAbsent(Elements(s.raw(action)), "Fault");
    FindAbsent(Elements(s.raw(s.floodDelay)), "Fault");
    FindAbsent(Elements(s.raw(answer.info)), "Fault");
  }

  /** It happens: an action that is itself a <Fault> element is answered with a fault without a code,
      whatever value the handler gives. */
  lemma ActionTakenForFault(s: Setup, info: string)
    requires s.raw("<Fault/>") == [Elem("Fault", [])]
    ensures See(s, "<Fault/>", Answer(info, "")) == Refusal("")
  {
    hide Trim, FindIn;
    SingleShape(Elem("Fault", []));
    FindInOne(TreeOf("Fault", []), "Fault");
    assert Trimmed("");
    assert CodeOf(TreeOf("Fault", [])) == "";
  }

  /** A text is read as it is, as every text without markup is. */
  predicate ReadsAsIs(s: Setup, text: string) {
    DirectText(s.raw(text)) == text && Elements(s.raw(text)) == []
  }

  /** So with an action and a flood delay without markup the client sees what the handler answers. */
  lemma PlainTextIsHarmless(s: Setup, action: string)
    requires ReadsAsIs(s, action) && ReadsAsIs(s, s.floodDelay)
    ensures NoFault(s.raw(action)) && NoFault(s.raw(s.floodDelay))
  {
  }

  lemma ReturnReply(content: seq<Xml>)
    ensures ReplyTo(Http(STATUS_OK, Envelope([Elem("return", content)]))) ==
      match FindIn(Elements(content), "Fault")
      case Found(fault) => Fault(CodeOf(fault))
      case NotFound => Decoded(ToValue(TreeOf("return", content)))
  {
    var ret := Elem("return", content);
    var response := Elem("Response", [ret]);
    SingleShape(ret);
    FindInDocument(response, "Fault");
    FindInDocument(response, "return");
    FindInOne(TreeOf("Response", [ret]), "Fault");
    FindInOne(TreeOf("Response", [ret]), "return");
    FindInOne(TreeOf("return", content), "Fault");
    FindInOne(TreeOf("return", content), "return");
  }

  /** What the client gets for the token. */
  function TokenReply(s: Setup): Reply {
    match FindIn(Elements(s.raw(s.token)), "Fault")
    case Found(fault) => Fault(CodeOf(fault))
    case NotFound => Decoded(ToValue(TreeOf("return", s.raw(s.token))))
  }

  /** The token the client ends up with. */
  function Issued(s: Setup): string {
    if TokenReply(s).Decoded? then TokenOf(TokenReply(s).value) else ""
  }

  /** A token without markup arrives as it is exactly if it is trimmed. */
  lemma PlainTokenIssued(s: Setup)
    requires ReadsAsIs(s, s.token)
    ensures Issued(s) == s.token <==> Trimmed(s.token)
  {
    hide Trim, Elements, DirectText;
  }

  /** A token that arrives as it is. */
  predicate PlainToken(s: Setup) {
    s.token != "" && Trimmed(s.token) && s.raw(s.token) == [Xml.Text(s.token)]
  }

  lemma PlainTokenArrives(s: Setup)
    requires PlainToken(s)
    ensures TokenReply(s) == Decoded(Str(s.token)) && Issued(s) == s.token
  {
    TextShape(s.token);
    ScalarValue(s.token, "return");
  }

  lemma AuthReply(s: Setup, authType: AuthType, authData: string, pin: string)
    ensures ReplyTo(ServeAuth(s, authType, authData, pin)) ==
      if !Accepts(s, authType, authData) then Fault("kas_login_incorrect")
      else if s.otp != "" && pin != s.otp then Fault("kas_2fa_incorrect")
      else TokenReply(s)
  {
    hide Lines, Elements, DirectText, ChildText, Trim, ToValue, FindIn;
    CodeReply("kas_login_incorrect");
    CodeReply("kas_2fa_incorrect");
    ReturnReply(s.raw(s.token));
  }

  /** A request with the server's token is answered as the handler says, whatever parameters are echoed; any
      other gets session_expired. The client waits for the server's flood delay, or 2 s if that is no
      positive number. */
  lemma ApiReply(cfg: Config, s: Setup, token: string, action: string, echo: seq<Entry>, answer: Answer)
    ensures var reply := ReplyTo(ServeApi(s, token, action, echo, answer));
      if token != s.token then reply == Fault("session_expired")
      else match See(s, action, answer)
        case Refusal(code) => reply == Fault(code)
        case Value(v) =>
          && reply.Decoded? && reply.value.Map? && ResponseResult(reply.value) == Ok(v)
          && (var d := AsFloat(cfg, ToValue(TreeOf("value", s.raw(s.floodDelay))));
              DelaySeconds(cfg, reply.value) == if d > 0.0 then d else 2.0)
  {
    hide Lines, Elements, DirectText, FindIn, ChildText, Trim, ToValue, ResponseResult, DelaySeconds, FirstOfThree;
    CodeReply("session_expired");
    FaultReply(s.raw(answer.fault));
    var content := ReturnContent(s, action, echo, answer);
    ReturnReply(content);
    FindInReturn(s.raw(action), echo, s.raw(s.floodDelay), s.raw(answer.info), "Fault");
    ReturnValue(s.raw(action), echo, s.raw(s.floodDelay), s.raw(answer.info), "return");
    ReadResponse(cfg, ToValue(TreeOf("return", content)), ToValue(TreeOf("value", s.raw(s.floodDelay))),
                 ToValue(TreeOf("value", s.raw(answer.info))));
    if token == s.token && answer.fault == "" {
      assert ReplyTo(ServeApi(s, token, action, echo, answer))
          == ReplyTo(Http(STATUS_OK, Envelope([Elem("return", content)])));
    }
  }

  // ----- the order of the echo -----

  predicate Ascending(keys: seq<string>) {
    forall i, j | 0 <= i < j < |keys| :: Less(keys[i], keys[j])
  }

  /** All of some keys, each once, in ascending order. */
  ghost predicate Sorts(keys: seq<string>, all: set<string>) {
    Ascending(keys) && (forall k :: k in keys <==> k in all)
  }

  /** Where a key goes among ascending ones. */
  function PlaceOf(keys: seq<string>, k: string): (n: nat)
    ensures n <= |keys|
    ensures forall i | 0 <= i < n :: Less(keys[i], k)
    ensures n < |keys| ==> !Less(keys[n], k)
  {
    if keys == [] || !Less(keys[0], k) then 0 else 1 + PlaceOf(keys[1..], k)
  }

  lemma LessThanRest(keys: seq<string>, k: string, i: nat)
    requires Ascending(keys) && k !in keys && PlaceOf(keys, k) <= i < |keys|
    ensures Less(k, keys[i])
  {
    var n := PlaceOf(keys, k);
    assert keys[n] in keys;
    LessTotal(k, keys[n]);
    if n < i {
      LessTransitive(k, keys[n], keys[i]);
    }
  }

  lemma SortsWith(keys: seq<string>, k: string, n: nat, all: set<string>)
    requires Sorts(keys, all) && k !in all && n == PlaceOf(keys, k)
    ensures Sorts(keys[..n] + [k] + keys[n..], all + {k})
  {
    hide Less, PlaceOf;
    assert k !in keys;
    forall i | n <= i < |keys|
      ensures Less(k, keys[i])
    {
      LessThanRest(keys, k, i);
    }
    assert keys == keys[..n] + keys[n..];
  }

  /** Only one order of some keys is ascending. */
  lemma {:induction false} SortsUnique(a: seq<string>, b: seq<string>, all: set<string>)
    requires Sorts(a, all) && Sorts(b, all)
    ensures a == b
    decreases |a|
  {
    assert b != [] ==> b[0] in a;
    if a != [] {
      assert a[0] in b;
      var i :| 0 <= i < |b| && b[i] == a[0];
      var j :| 0 <= j < |a| && a[j] == b[0];
      LessTotal(a[0], b[0]);
      assert a[0] == b[0];
      RestSorts(a, all);
      RestSorts(b, all);
      SortsUnique(a[1..], b[1..], all - {a[0]});
      assert a == [a[0]] + a[1..] && b == [b[0]] + b[1..];
    }
  }

  lemma RestSorts(keys: seq<string>, all: set<string>)
    requires Sorts(keys, all) && keys != []
    ensures Sorts(keys[1..], all - {keys[0]})
  {
    LessTotal(keys[0], keys[0]);
    forall k
      ensures k in keys[1..] <==> k in all - {keys[0]}
    {
      if k in keys[1..] {
        var i :| 0 <= i < |keys[1..]| && keys[1..][i] == k;
        assert Less(keys[0], keys[i + 1]);
        assert keys[i + 1] in keys;
      }
    }
  }

  /** The keys of some parameters in ascending order. */
  ghost function SortedKeys(params: Params): (keys: seq<string>)
    ensures Sorts(keys, params.Keys)
  {
    KeysSort(params.Keys);
    var keys :| Sorts(keys, params.Keys);
    keys
  }

  lemma {:induction false} KeysSort(all: set<string>)
    ensures exists keys :: Sorts(keys, all)
  {
    if all == {} {
      assert Sorts([], all);
    } else {
      var k :| k in all;
      KeysSort(all - {k});
      var keys :| Sorts(keys, all - {k});
      var n := PlaceOf(keys, k);
      SortsWith(keys, k, n, all - {k});
      assert all - {k} + {k} == all;
    }
  }

  /** The echo of some parameters in the order of their keys. */
  ghost function Echo(sprint: Value -> string, params: Params): seq<Entry> {
    EchoOf(sprint, params, SortedKeys(params))
  }

  function EchoOf(sprint: Value -> string, params: Params, keys: seq<string>): seq<Entry>
    requires forall k | k in keys :: k in params
  {
    seq(|keys|, i requires 0 <= i < |keys| => Entry(keys[i], Scalar(sprint(params[keys[i]]))))
  }

  lemma {:induction false} EchoArrives(sprint: Value -> string, params: Params, keys: seq<string>)
    requires forall k | k in keys :: k in params && Trimmed(k)
    ensures forall k :: k in ArriveEntries(EchoOf(sprint, params, keys)) <==> k in keys
    ensures forall k | k in keys :: ArriveEntries(EchoOf(sprint, params, keys))[k] == Str(Trim(sprint(params[k])))
  {
    hide ArriveEntries, EchoOf, Trim;
    if keys == [] {
      NoEcho(sprint, params);
    } else {
      var init, last := keys[..|keys| - 1], keys[|keys| - 1];
      assert keys == init + [last];
      EchoArrives(sprint, params, init);
      EchoSnoc(sprint, params, init, last);
    }
  }

  lemma NoEcho(sprint: Value -> string, params: Params)
    ensures ArriveEntries(EchoOf(sprint, params, [])) == map[]
  {
  }

  lemma EchoSnoc(sprint: Value -> string, params: Params, keys: seq<string>, k: string)
    requires (forall l | l in keys :: l in params) && k in params && Trimmed(k)
    ensures ArriveEntries(EchoOf(sprint, params, keys + [k]))
         == ArriveEntries(EchoOf(sprint, params, keys))[k := Str(Trim(sprint(params[k])))]
  {
    hide Trim;
    assert EchoOf(sprint, params, keys + [k])[..|keys|] == EchoOf(sprint, params, keys);
    assert Trim(k) == k;
  }

  /** What a client decodes of the echo: every parameter under its key, trimmed as it is printed, or an empty
      string if there are none. */
  lemma EchoDecoded(sprint: Value -> string, params: Params)
    requires forall k | k in params :: Trimmed(k)
    ensures ToValue(TreeOf("value", PrintEntries(Echo(sprint, params)))) ==
      if params == map[] then Str("") else Map(map k | k in params :: Str(Trim(sprint(params[k]))))
  {
    hide ToValue, Elements, DirectText, Less, Trim;
    var keys := SortedKeys(params);
    var doc := Entries(Echo(sprint, params));
    DecodePrinted(doc, "value");
    EchoArrives(sprint, params, keys);
    if params == map[] {
      SortsUnique(keys, [], params.Keys);
    } else {
      var k :| k in params;
      assert k in keys;
      assert ArriveEntries(doc.entries) == map k | k in params :: Str(Trim(sprint(params[k])));
    }
  }

  // ----- the server itself -----

  /** A body as serve reads it. */
  datatype Body = NoParams | BadJson(problem: string) | Parsed(request: Request)

  const STATUS_BAD_REQUEST := 400

  /** The answer to a body that holds no request. */
  function BadRequest(body: Body): Http
    requires !body.Parsed?
  {
    Http(STATUS_BAD_REQUEST, [Xml.Text(if body.NoParams? then "no Params\n" else "bad json: " + body.problem + "\n")])
  }

  /** A client takes it for an error that is no fault. */
  lemma BadRequestReply(body: Body)
    requires !body.Parsed?
    ensures BadRequest(body).status == 400 && ReplyTo(BadRequest(body)) == Broken
  {
    var chars := BadRequest(body).body[0].chars;
    TextShape(chars);
    assert BadRequest(body).body == [Xml.Text(chars)];
    assert Find(TreeOf(ROOT, BadRequest(body).body), "Fault") == NotFound;
  }

  /** The server's counters and its answers. */
  class Server {
    const setup: Setup
    const sprint: Value -> string
    const handler: Handler
    var authCalls: nat
    var apiCalls: nat
    var handled: nat
    var sessionLifetime: int

    constructor (setup: Setup, sprint: Value -> string, handler: Handler)
      ensures this.setup == setup && this.sprint == sprint && this.handler == handler
      ensures authCalls == 0 && apiCalls == 0 && handled == 0 && sessionLifetime == 0
    {
      this.setup, this.sprint, this.handler := setup, sprint, handler;
      authCalls, apiCalls, handled, sessionLifetime := 0, 0, 0, 0;
    }

    /** sort.Strings on the keys of a map. */
    method KeysInOrder(params: Params) returns (keys: seq<string>)
      ensures keys == SortedKeys(params)
    {
      keys := [];
      var todo := params.Keys;
      while todo != {}
        invariant todo <= params.Keys && Sorts(keys, params.Keys - todo)
        decreases |todo|
      {
        var k :| k in todo;
        var n := PlaceOf(keys, k);
        SortsWith(keys, k, n, params.Keys - todo);
        assert params.Keys - todo + {k} == params.Keys - (todo - {k});
        keys := keys[..n] + [k] + keys[n..];
        todo := todo - {k};
      }
      SortsUnique(keys, SortedKeys(params), params.Keys);
    }

    /** paramItems. */
    method ParamItems(params: Params) returns (content: seq<Xml>)
      ensures content == PrintEntries(Echo(sprint, params))
    {
      var keys := KeysInOrder(params);
      content := [];
      for i := 0 to |keys|
        invariant content == PrintEntries(EchoOf(sprint, params, keys[..i]))
      {
        content := content + [MapItem([Xml.Text(keys[i])], [Xml.Text(sprint(params[keys[i]]))])];
        assert EchoOf(sprint, params, keys[..i + 1])[..i] == EchoOf(sprint, params, keys[..i]);
      }
      assert keys[..|keys|] == keys;
    }

    /** serve and serveAuth. A body without a request is counted nowhere. The handler runs for a KasApi
        request with the server's token and for no other; a KasAuth request that is turned down leaves the
        lifetime alone. */
    method Serve(body: Body) returns (http: Http)
      modifies this
      ensures !body.Parsed? ==>
        && http == BadRequest(body)
        && authCalls == old(authCalls) && apiCalls == old(apiCalls) && handled == old(handled)
        && sessionLifetime == old(sessionLifetime)
      ensures body.Parsed? && body.request.AuthRequest? ==>
        && http == ServeAuth(setup, body.request.authType, body.request.authData, body.request.pin)
        && authCalls == old(authCalls) + 1 && apiCalls == old(apiCalls) && handled == old(handled)
        && sessionLifetime == if http.status == STATUS_OK then body.request.lifetime else old(sessionLifetime)
      ensures body.Parsed? && body.request.ApiRequest? ==>
        && http == ServeApi(setup, body.request.token, body.request.action, Echo(sprint, body.request.params),
                            handler(old(handled), body.request.action, body.request.params))
        && authCalls == old(authCalls) && apiCalls == old(apiCalls) + 1 && sessionLifetime == old(sessionLifetime)
        && handled == old(handled) + if body.request.token == setup.token then 1 else 0
    {
      match body
      case NoParams => return Http(STATUS_BAD_REQUEST, [Xml.Text("no Params\n")]);
      case BadJson(problem) => return Http(STATUS_BAD_REQUEST, [Xml.Text("bad json: " + problem + "\n")]);
      case Parsed(request) => http := ServeRequest(request);
    }

    method ServeRequest(request: Request) returns (http: Http)
      modifies this
      ensures request.AuthRequest? ==>
        && http == ServeAuth(setup, request.authType, request.authData, request.pin)
        && authCalls == old(authCalls) + 1 && apiCalls == old(apiCalls) && handled == old(handled)
        && sessionLifetime == if http.status == STATUS_OK then request.lifetime else old(sessionLifetime)
      ensures request.ApiRequest? ==>
        && http == ServeApi(setup, request.token, request.action, Echo(sprint, request.params),
                            handler(old(handled), request.action, request.params))
        && authCalls == old(authCalls) && apiCalls == old(apiCalls) + 1 && sessionLifetime == old(sessionLifetime)
        && handled == old(handled) + if request.token == setup.token then 1 else 0
    {
      match request
      case AuthRequest(authType, authData, pin, lifetime) =>
        authCalls := authCalls + 1;
        var ok := false;
        match authType {
          case Sha1 => ok := authData == setup.digest(setup.password);
          case Plain => ok := authData == setup.password;
        }
        if !ok {
          return WriteCode("kas_login_incorrect");
        }
        if setup.otp != "" && pin != setup.otp {
          return WriteCode("kas_2fa_incorrect");
        }
        sessionLifetime := lifetime;
        return Http(STATUS_OK, Envelope([Elem("return", setup.raw(setup.token))]));
      case ApiRequest(token, action, params) =>
        apiCalls := apiCalls + 1;
        if token != setup.token {
          return WriteCode("session_expired");
        }
        var answer := handler(handled, action, params);
        handled := handled + 1;
        if answer.fault != "" {
          return WriteFault(setup.raw(answer.fault));
        }
        var echoed := ParamItems(params);
        var ret := Return(setup.raw(action), Echo(sprint, params), echoed, setup.raw(answer.info));
        return Http(STATUS_OK, Envelope([Elem("return", ret)]));
    }

    /** The layout of a real response. */
    method Return(action: seq<Xml>, ghost echo: seq<Entry>, echoed: seq<Xml>, info: seq<Xml>) returns (ret: seq<Xml>)
      requires echoed == PrintEntries(echo)
      ensures ret == Lines(ItemsOf(ReturnPairs(action, echo, setup.raw(setup.floodDelay), info)))
    {
      var request := [MapItem([Xml.Text("KasRequestType")], action),
                      MapItem([Xml.Text("KasRequestParams")], echoed)];
      var response := [MapItem([Xml.Text("KasFloodDelay")], setup.raw(setup.floodDelay)),
                       MapItem([Xml.Text("ReturnString")], [Xml.Text("TRUE")]),
                       MapItem([Xml.Text("ReturnInfo")], info)];
      ret := Lines([MapItem([Xml.Text("Request")], Lines(request)), MapItem([Xml.Text("Response")], Lines(response))]);
      assert request == ItemsOf(RequestPairs(action, echo));
      assert response == ItemsOf(ResponsePairs(setup.raw(setup.floodDelay), info));
      assert ItemsOf(ReturnPairs(action, echo, setup.raw(setup.floodDelay), info))
          == [MapItem([Xml.Text("Request")], Lines(request)), MapItem([Xml.Text("Response")], Lines(response))];
    }
  }
}
