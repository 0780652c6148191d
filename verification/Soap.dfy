/** What soapCall makes of a response body (soap.go). */
module Soap {
  import opened Text
  import opened Values
  import opened XmlTree
  import XmlParser
  import NodeDecoder
  import Decoder

  /** The result of one SOAP request: a fault is an *APIError; Broken is every other error,
      whether the request left, the body was malformed or the status was wrong. */
  datatype Reply = Fault(code: string) | Decoded(value: Value) | Broken

  const STATUS_OK := 200

  /** The symbolic code of a fault: faultstring, or faultcode when that is blank. */
  function CodeOf(fault: Tree): string {
    var code := Trim(ChildText(fault.children, "faultstring"));
    if code != "" then code else Trim(ChildText(fault.children, "faultcode"))
  }

  /** A fault wins over the status, and the status over the content. */
  function Classify(status: int, root: Tree): Reply {
    match Find(root, "Fault")
    case Found(fault) => Fault(CodeOf(fault))
    case NotFound =>
      if status != STATUS_OK then Broken
      else match Find(root, "return")
        case Found(ret) => Decoded(Decoder.ToValue(ret))
        case NotFound => Broken
  }

  /** The second half of soapCall: parse the body, look for a fault, decode <return>. */
  method SoapCall(status: int, tokens: seq<Token>, failed: bool) returns (reply: Reply)
    ensures failed ==> reply == Broken
    ensures !failed ==> reply == Classify(status, CloseAll(AdvanceAll(START, tokens)))
  {
    var root, view := XmlParser.ParseXMLTree(tokens, failed);
    if root == null {
      return Broken;
    }
    var fault := NodeDecoder.Find(root, "Fault", view);
    if fault != null {
      var code := NodeDecoder.ChildTextOf(fault, "faultstring", view);
      code := Trim(code);
      if code == "" {
        code := NodeDecoder.ChildTextOf(fault, "faultcode", view);
        code := Trim(code);
      }
      return Fault(code);
    }
    if status != STATUS_OK {
      return Broken;
    }
    var ret := NodeDecoder.Find(root, "return", view);
    if ret == null {
      return Broken;
    }
    var value := NodeDecoder.ToValue(ret, view);
    return Decoded(value);
  }

  /** A response with a fault anywhere in it is that fault, whatever its status. Without one it is a
      value exactly when the status is 200 and there is a <return> element. */
  lemma ClassifyCases(status: int, root: Tree)
    ensures Classify(status, root).Fault? <==> !Absent(root.children, "Fault")
    ensures Classify(status, root).Decoded? <==>
      Absent(root.children, "Fault") && status == 200 && !Absent(root.children, "return")
  {
    FindAbsent(root.children, "Fault");
    FindAbsent(root.children, "return");
  }
}
