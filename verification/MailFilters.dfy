/** The standard filter parameter of a mailbox (mail.go): name or name:action, joined by ";". */
module MailFilters {
  import opened Text

  datatype MailFilter = MailFilter(name: string, action: string)

  datatype Outcome = Accepted(parameter: string) | Rejected

  /** MailFilter.String. */
  function Render(f: MailFilter): string {
    if f.action == "" then f.name else f.name + ":" + f.action
  }

  /** MailFilter.validate returns no error; isAddress stands for mail.ParseAddress. */
  predicate Valid(f: MailFilter, isAddress: string -> bool) {
    && f.name != ""
    && Free(f.name, {';', ':'}) && Free(f.action, {';'})
    && (f.action in ["", "delete", "mark"]
        || var (kind, arg, found) := Cut(f.action, '=');
           found && arg != "" && (kind == "move" || (kind == "forward" && isAddress(arg))))
  }

  /** The actions that are accepted: none, delete, mark, move to a folder and forward to an address. */
  lemma AcceptedActions(name: string, arg: string, isAddress: string -> bool)
    requires name != "" && ';' !in name && ':' !in name && ';' !in arg
    ensures Valid(MailFilter(name, ""), isAddress)
    ensures Valid(MailFilter(name, "delete"), isAddress) && Valid(MailFilter(name, "mark"), isAddress)
    ensures Valid(MailFilter(name, "move=" + arg), isAddress) <==> arg != ""
    ensures Valid(MailFilter(name, "forward=" + arg), isAddress) <==> arg != "" && isAddress(arg)
  {
    hide Valid, Cut;
    PlainAction(name, "", isAddress);
    PlainAction(name, "delete", isAddress);
    PlainAction(name, "mark", isAddress);
    assert "move=" + arg == "move" + ['='] + arg && "forward=" + arg == "forward" + ['='] + arg;
    ActionWith(name, "move", arg, isAddress);
    ActionWith(name, "forward", arg, isAddress);
  }

  lemma PlainAction(name: string, action: string, isAddress: string -> bool)
    requires name != "" && ';' !in name && ':' !in name && action in ["", "delete", "mark"]
    ensures Valid(MailFilter(name, action), isAddress)
  {
    hide Cut;
  }

  lemma ActionWith(name: string, kind: string, arg: string, isAddress: string -> bool)
    requires name != "" && ';' !in name && ':' !in name && ';' !in arg && (kind == "move" || kind == "forward")
    ensures Valid(MailFilter(name, kind + ['='] + arg), isAddress) <==>
      arg != "" && (kind == "forward" ==> isAddress(arg))
  {
    hide Cut;
    CutConcat(kind, arg, '=');
    var action := kind + ['='] + arg;
    assert action[|kind|] == '=';
    assert action !in ["", "delete", "mark"];
    assert Free(action, {';'});
  }

  /** And no others; a name is not empty and holds no separator, an action no semicolon. */
  lemma AcceptedOnly(f: MailFilter, isAddress: string -> bool)
    requires Valid(f, isAddress)
    ensures f.name != "" && ';' !in f.name && ':' !in f.name && ';' !in f.action
    ensures f.action in ["", "delete", "mark"] || "move=" <= f.action || "forward=" <= f.action
  {
    if f.action !in ["", "delete", "mark"] {
      var (kind, arg, _) := Cut(f.action, '=');
      assert f.action == kind + ['='] + arg;
    }
  }

  /** A filter is written as its name, with a colon and its action if it has one. */
  lemma RenderedParts(name: string, action: string)
    requires ':' !in name
    ensures Render(MailFilter(name, "")) == name
    ensures action != "" ==> Render(MailFilter(name, action)) == name + [':'] + action
    ensures ':' in Render(MailFilter(name, action)) <==> action != ""
  {
    if action != "" {
      assert Render(MailFilter(name, action))[|name|] == ':';
    }
  }

  predicate AllValid(filters: seq<MailFilter>, isAddress: string -> bool) {
    forall i | 0 <= i < |filters| :: Valid(filters[i], isAddress)
  }

  function RenderAll(filters: seq<MailFilter>): (parts: seq<string>)
    ensures |parts| == |filters|
    ensures forall i | 0 <= i < |filters| :: parts[i] == Render(filters[i])
  {
    seq(|filters|, i requires 0 <= i < |filters| => Render(filters[i]))
  }

  /** The filter parameter SetFilters sends: rejected without filters or with an invalid one. */
  method FilterParameter(filters: seq<MailFilter>, isAddress: string -> bool) returns (out: Outcome)
    ensures out.Accepted? <==> filters != [] && AllValid(filters, isAddress)
    ensures out.Accepted? ==> out.parameter == Join(RenderAll(filters), ';')
  {
    if |filters| == 0 {
      return Rejected;
    }
    var parts: seq<string> := [];
    for i := 0 to |filters|
      invariant |parts| == i
      invariant forall j | 0 <= j < i :: Valid(filters[j], isAddress) && parts[j] == Render(filters[j])
    {
      if !Valid(filters[i], isAddress) {
        return Rejected;
      }
      parts := parts + [Render(filters[i])];
    }
    assert parts == RenderAll(filters);
    return Accepted(Join(parts, ';'));
  }

  /** The reader of one part: the command line cuts it at its first ":". */
  function ParsePart(part: string): MailFilter {
    var (name, action, _) := Cut(part, ':');
    MailFilter(name, action)
  }

  function ParseParameter(parameter: string): (filters: seq<MailFilter>) {
    var parts := Split(parameter, {';'});
    seq(|parts|, i requires 0 <= i < |parts| => ParsePart(parts[i]))
  }

  lemma PartRoundTrip(f: MailFilter, isAddress: string -> bool)
    requires Valid(f, isAddress)
    ensures ParsePart(Render(f)) == f
    ensures Free(Render(f), {';'})
  {
    assert ':' !in f.name by {
      assert Free(f.name, {';', ':'});
    }
    if f.action != "" {
      CutConcat(f.name, f.action, ':');
    }
  }

  /** The parameter is uniquely decodable: splitting it at ";" and every part at its first ":"
      returns exactly the names and actions, in order, although an action may hold ":". */
  lemma ParameterRoundTrip(filters: seq<MailFilter>, isAddress: string -> bool)
    requires filters != [] && AllValid(filters, isAddress)
    ensures ParseParameter(Join(RenderAll(filters), ';')) == filters
  {
    forall i | 0 <= i < |filters|
      ensures Free(RenderAll(filters)[i], {';'})
      ensures ParsePart(RenderAll(filters)[i]) == filters[i]
    {
      PartRoundTrip(filters[i], isAddress);
    }
    SplitJoin(RenderAll(filters), ';', {';'});
  }

  /** Different lists of valid filters never share a parameter. */
  lemma ParameterInjective(a: seq<MailFilter>, b: seq<MailFilter>, isAddress: string -> bool)
    requires a != [] && AllValid(a, isAddress)
    requires b != [] && AllValid(b, isAddress)
    requires Join(RenderAll(a), ';') == Join(RenderAll(b), ';')
    ensures a == b
  {
    ParameterRoundTrip(a, isAddress);
    ParameterRoundTrip(b, isAddress);
  }
}
