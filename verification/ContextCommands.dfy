/** The commands that change the configuration (cmd/kascli/config.go): each loads the file, changes the
    configuration and saves it. Seen from outside they are operations on a map of contexts. */
module ContextCommands {
  import opened ContextStore

  datatype Switch = Unchanged | Switched(on: bool)

  /** The flags of set-context; stdin is what a password is read from. */
  datatype Flags = Flags(login: string, authType: string, password: string, passwordStdin: bool, stdin: string,
                         setCurrent: bool, twoFactor: Switch)

  datatype Problem = NotFound | BadAuthType | TwoPasswords | NoInput | NoLogin

  datatype Status = Success | Failure(problem: Problem)

  datatype Applied = Refused(problem: Problem) | Accepted(context: Context)

  // ----- flags -----

  /** The first line of the input, its end included. */
  function FirstLine(s: string): (line: string)
    ensures line <= s
    ensures '\n' !in s ==> line == s
  {
    if s == "" then "" else if s[0] == '\n' then ['\n'] else [s[0]] + FirstLine(s[1..])
  }

  /** strings.TrimRight(s, "\r\n"). */
  function TrimLineEnd(s: string): (r: string)
    ensures r <= s
    ensures r != "" ==> r[|r| - 1] != '\r' && r[|r| - 1] != '\n'
  {
    if s != "" && (s[|s| - 1] == '\r' || s[|s| - 1] == '\n') then TrimLineEnd(s[..|s| - 1]) else s
  }

  predicate GivesPassword(f: Flags) {
    f.password != "" || f.passwordStdin
  }

  /** The password that is given. */
  function PasswordOf(f: Flags): string {
    if f.password != "" then f.password else TrimLineEnd(FirstLine(f.stdin))
  }

  lemma {:induction false} FirstLineEnds(line: string, rest: string)
    requires '\n' !in line
    ensures FirstLine(line + "\n" + rest) == line + "\n"
    ensures FirstLine(line) == line
  {
    if line != "" {
      FirstLineEnds(line[1..], rest);
      assert (line + "\n" + rest)[1..] == line[1..] + "\n" + rest;
    }
  }

  lemma {:induction false} LineEndTrimmed(line: string, end: string)
    requires line != "" ==> line[|line| - 1] != '\r' && line[|line| - 1] != '\n'
    requires forall i | 0 <= i < |end| :: end[i] == '\r' || end[i] == '\n'
    ensures TrimLineEnd(line + end) == line
  {
    if end == "" {
      assert line + end == line;
    } else {
      assert (line + end)[..|line + end| - 1] == line + end[..|end| - 1];
      LineEndTrimmed(line, end[..|end| - 1]);
    }
  }

  /** A password from the input is its first line without the line end, a carriage return in front of it
      included; the rest of the input does not matter. */
  lemma PasswordFromInput(f: Flags, line: string, end: string, rest: string)
    requires f.password == "" && f.passwordStdin
    requires '\n' !in line && (line != "" ==> line[|line| - 1] != '\r')
    requires f.stdin in [line + end + "\n" + rest, line + end] && forall i | 0 <= i < |end| :: end[i] == '\r'
    ensures GivesPassword(f) && PasswordOf(f) == line
  {
    FirstLineEnds(line + end, rest);
    LineEndTrimmed(line, end);
    LineEndTrimmed(line, end + "\n");
    assert line + end + "\n" == line + (end + "\n");
  }

  /** The context with exactly the given flags changed. */
  function Changed(f: Flags, c: Context): Context {
    Context(c.name,
            if f.login != "" then f.login else c.login,
            if f.authType != "" then f.authType else c.authType,
            if GivesPassword(f) then PasswordOf(f) else c.password,
            if f.twoFactor.Switched? then f.twoFactor.on else c.twoFactor)
  }

  /** What apply makes of a context: the given flags, unless something is wrong with them. */
  function AppliedTo(f: Flags, c: Context): Applied {
    if f.authType != "" && f.authType != "sha1" && f.authType != "plain" then Refused(BadAuthType)
    else if f.password != "" && f.passwordStdin then Refused(TwoPasswords)
    else if f.passwordStdin && f.stdin == "" then Refused(NoInput)
    else if f.login == "" && c.login == "" then Refused(NoLogin)
    else Accepted(Changed(f, c))
  }

  /** What is wrong with the flags, and when nothing is. */
  lemma RefusedExactly(f: Flags, c: Context)
    ensures AppliedTo(f, c).Refused? <==>
      || (f.authType != "" && f.authType != "sha1" && f.authType != "plain")
      || (f.passwordStdin && (f.password != "" || f.stdin == ""))
      || (f.login == "" && c.login == "")
  {
  }

  /** A flag that is given wins over what is stored, and what is not given stays. */
  lemma FlagsWin(f: Flags, c: Context)
    requires AppliedTo(f, c).Accepted?
    ensures
      var new_ := AppliedTo(f, c).context;
      && new_.name == c.name
      && (f.login != "" ==> new_.login == f.login) && (f.login == "" ==> new_.login == c.login)
      && (f.authType != "" ==> new_.authType == f.authType) && (f.authType == "" ==> new_.authType == c.authType)
      && (f.password != "" ==> new_.password == f.password)
      && (f.password == "" && !f.passwordStdin ==> new_.password == c.password)
      && (f.password == "" && f.passwordStdin ==> new_.password == TrimLineEnd(FirstLine(f.stdin)))
      && (f.twoFactor == Switched(true) ==> new_.twoFactor)
      && (f.twoFactor == Switched(false) ==> !new_.twoFactor)
      && (f.twoFactor == Unchanged ==> new_.twoFactor == c.twoFactor)
  {
  }

  datatype NewPassword = Bad(problem: Problem) | NotGiven | Given(password: string)

  /** newPassword. */
  method ReadPassword(f: Flags) returns (r: NewPassword)
    ensures r.Given? ==> GivesPassword(f) && r.password == PasswordOf(f)
    ensures r.NotGiven? <==> !GivesPassword(f)
    ensures r.Bad? <==> f.passwordStdin && (f.password != "" || f.stdin == "")
    ensures r.Bad? ==> r.problem == if f.password != "" then TwoPasswords else NoInput
  {
    if f.password != "" && f.passwordStdin {
      return Bad(TwoPasswords);
    }
    if f.password != "" {
      return Given(f.password);
    }
    if !f.passwordStdin {
      return NotGiven;
    }
    var line := FirstLine(f.stdin);
    if line == "" {
      return Bad(NoInput);
    }
    return Given(TrimLineEnd(line));
  }

  /** apply. */
  method Apply(f: Flags, c: Context) returns (r: Applied)
    ensures r == AppliedTo(f, c)
  {
    var ctx := c;
    if f.login != "" {
      ctx := ctx.(login := f.login);
    }
    if f.authType != "" {
      if f.authType != "sha1" && f.authType != "plain" {
        return Refused(BadAuthType);
      }
      ctx := ctx.(authType := f.authType);
    }
    var pw := ReadPassword(f);
    match pw {
      case Bad(problem) => return Refused(problem);
      case Given(password) => ctx := ctx.(password := password);
      case NotGiven =>
    }
    if f.twoFactor.Switched? {
      ctx := ctx.(twoFactor := f.twoFactor.on);
    }
    if ctx.login == "" {
      return Refused(NoLogin);
    }
    return Accepted(ctx);
  }

  // ----- the commands on maps -----

  datatype View = View(current: string, contexts: map<string, Context>)

  datatype Command = UseContext(name: string) | SetContext(name: string, flags: Flags) | DeleteContext(name: string)

  /** The context set-context starts from. */
  function Existing(v: View, name: string): Context {
    if name in v.contexts then v.contexts[name] else Context(name, "", "", "", false)
  }

  function Effect(v: View, cmd: Command): View {
    match cmd
    case UseContext(name) => if name in v.contexts then v.(current := name) else v
    case SetContext(name, flags) =>
      (match AppliedTo(flags, Existing(v, name))
       case Refused(_) => v
       case Accepted(c) =>
         View(if flags.setCurrent || v.current == "" then name else v.current, v.contexts[name := c]))
    case DeleteContext(name) =>
      if name in v.contexts then View(if v.current == name then "" else v.current, v.contexts - {name}) else v
  }

  function StatusOf(v: View, cmd: Command): Status {
    match cmd
    case SetContext(name, flags) =>
      (match AppliedTo(flags, Existing(v, name)) case Refused(p) => Failure(p) case Accepted(_) => Success)
    case _ => if cmd.name in v.contexts then Success else Failure(NotFound)
  }

  /** use-context and delete-context fail exactly for a name that is not stored; use-context makes the name the
      current one and nothing else, delete-context takes it away and leaves no current context if it was
      that. */
  lemma NamedCommands(v: View, name: string)
    ensures StatusOf(v, UseContext(name)) == StatusOf(v, DeleteContext(name))
      == if name in v.contexts then Success else Failure(NotFound)
    ensures name in v.contexts ==> Effect(v, UseContext(name)) == View(name, v.contexts)
    ensures name in v.contexts ==> name !in Effect(v, DeleteContext(name)).contexts
    ensures forall other | other in v.contexts && other != name ::
      var after := Effect(v, DeleteContext(name)).contexts; other in after && after[other] == v.contexts[other]
    ensures v.current != name ==> Effect(v, DeleteContext(name)).current == v.current
    ensures v.current == name && name in v.contexts ==> Effect(v, DeleteContext(name)).current == ""
  {
  }

  /** set-context stores the context with the flags applied, on top of what is stored or of a context with
      nothing but its name, leaves the others alone, and makes it the current one if it is told to or there
      is none. */
  lemma SetCommand(v: View, name: string, flags: Flags)
    ensures
      var before := if name in v.contexts then v.contexts[name] else Context(name, "", "", "", false);
      var after := Effect(v, SetContext(name, flags));
      if AppliedTo(flags, before).Refused?
      then after == v && StatusOf(v, SetContext(name, flags)) == Failure(AppliedTo(flags, before).problem)
      else
        && StatusOf(v, SetContext(name, flags)) == Success
        && after.contexts.Keys == v.contexts.Keys + {name} && after.contexts[name] == AppliedTo(flags, before).context
        && (forall other | other in v.contexts && other != name :: after.contexts[other] == v.contexts[other])
        && (flags.setCurrent || v.current == "" ==> after.current == name)
        && (!flags.setCurrent && v.current != "" ==> after.current == v.current)
  {
  }

  function EffectOfAll(v: View, cmds: seq<Command>): View {
    if cmds == [] then v else Effect(EffectOfAll(v, cmds[..|cmds| - 1]), cmds[|cmds| - 1])
  }

  /** The map a file stands for. */
  function ViewOf(f: File): View {
    View(f.current, AsMap(ToContexts(f.entries)))
  }

  predicate Distinct(f: File) {
    DistinctNames(ToContexts(f.entries))
  }

  predicate Sorted(f: File) {
    StrictlyOrdered(ToContexts(f.entries))
  }

  /** The current context of a file is empty or one of its contexts. */
  predicate CurrentNamed(f: File) {
    f.current == "" || Named(ToContexts(f.entries), f.current)
  }

  /** What a command does to a file: it works on the map if no name occurs twice, it keeps the current
      context empty or stored in any case, and a command that fails leaves the file alone. */
  predicate Does(before: File, after: File, cmd: Command, status: Status) {
    && (Distinct(before) ==>
          && Distinct(after) && ViewOf(after) == Effect(ViewOf(before), cmd)
          && status == StatusOf(ViewOf(before), cmd))
    && (CurrentNamed(before) ==> CurrentNamed(after))
    && (if status.Failure? then after == before else Distinct(before) ==> Sorted(after))
  }

  /** The command line client, with the file it works on. */
  class Tool {
    var file: File

    constructor (file: File)
      ensures this.file == file
    {
      this.file := file;
    }

    method Open() returns (cfg: Config)
      ensures fresh(cfg) && cfg.current == file.current
      ensures Ordered(cfg.contexts) && multiset(cfg.contexts) == multiset(ToContexts(file.entries))
      ensures Distinct(file) ==> StrictlyOrdered(cfg.contexts) && DistinctNames(cfg.contexts)
      ensures Distinct(file) ==> AsMap(cfg.contexts) == ViewOf(file).contexts
      ensures CurrentNamed(file) ==> cfg.current == "" || Named(cfg.contexts, cfg.current)
    {
      cfg := new Config.Load(file);
      if Distinct(file) {
        PermutedNames(ToContexts(file.entries), cfg.contexts);
        PermutedMap(ToContexts(file.entries), cfg.contexts);
        StrictIsDistinct(cfg.contexts);
      }
      if CurrentNamed(file) && file.current != "" {
        SameNames(ToContexts(file.entries), cfg.contexts, file.current);
      }
    }

    /** use-context. */
    method Use(name: string) returns (status: Status)
      modifies this
      ensures Does(old(file), file, UseContext(name), status)
    {
      var cfg := Open();
      NamedInMap(cfg.contexts, name);
      var found := cfg.Get(name);
      if found.NoContext? {
        return Failure(NotFound);
      }
      cfg.current := name;
      file := cfg.Save();
      return Success;
    }

    /** set-context. */
    method Set(name: string, flags: Flags) returns (status: Status)
      modifies this
      ensures Does(old(file), file, SetContext(name, flags), status)
    {
      hide Ordered, StrictlyOrdered, DistinctNames, Named, AsMap;
      var cfg := Open();
      var ctx := Context(name, "", "", "", false);
      var existing := cfg.Get(name);
      if existing.SomeContext? {
        ctx := existing.context;
        NamedInMap(cfg.contexts, name);
      }
      var applied := Apply(flags, ctx);
      if applied.Refused? {
        return Failure(applied.problem);
      }
      ghost var before := cfg.contexts;
      cfg.Set(applied.context);
      SetIsKept(before, cfg.contexts, applied.context, cfg.current);
      if flags.setCurrent || cfg.current == "" {
        cfg.current := name;
      }
      file := cfg.Save();
      return Success;
    }

    /** delete-context. */
    method Delete(name: string) returns (status: Status)
      modifies this
      ensures Does(old(file), file, DeleteContext(name), status)
    {
      var cfg := Open();
      NamedInMap(cfg.contexts, name);
      DeleteIsKept(cfg.contexts, name, cfg.current);
      var ok := cfg.Delete(name);
      if !ok {
        return Failure(NotFound);
      }
      file := cfg.Save();
      return Success;
    }

    /** A run of commands is a run on the map, keeps a sorted list sorted, and keeps the current context
        empty or stored. */
    method Run(cmds: seq<Command>)
      modifies this
      ensures old(Distinct(file)) ==> Distinct(file) && ViewOf(file) == EffectOfAll(old(ViewOf(file)), cmds)
      ensures old(Sorted(file)) ==> Sorted(file)
      ensures old(CurrentNamed(file)) ==> CurrentNamed(file)
    {
      StrictIsDistinct(ToContexts(file.entries));
      for i := 0 to |cmds|
        invariant old(Distinct(file)) ==> Distinct(file) && ViewOf(file) == EffectOfAll(old(ViewOf(file)), cmds[..i])
        invariant old(Sorted(file)) ==> Sorted(file)
        invariant old(CurrentNamed(file)) ==> CurrentNamed(file)
      {
        assert cmds[..i + 1][..i] == cmds[..i];
        match cmds[i] {
          case UseContext(name) => var _ := Use(name);
          case SetContext(name, flags) => var _ := Set(name, flags);
          case DeleteContext(name) => var _ := Delete(name);
        }
      }
      assert cmds[..|cmds|] == cmds;
    }
  }

  lemma SetIsKept(before: seq<Context>, after: seq<Context>, ctx: Context, current: string)
    requires IsSet(before, after, ctx) && Ordered(before)
    ensures DistinctNames(before) ==> AsMap(after) == AsMap(before)[ctx.name := ctx] && StrictlyOrdered(after)
    ensures DistinctNames(before) ==> DistinctNames(after)
    ensures Named(after, ctx.name) && (Named(before, current) ==> Named(after, current))
  {
    if DistinctNames(before) {
      SetUpdates(before, after, ctx);
    }
    SetNames(before, after, ctx, ctx.name);
    if Named(before, current) {
      SetNames(before, after, ctx, current);
    }
  }

  lemma DeleteIsKept(cs: seq<Context>, name: string, current: string)
    requires Ordered(cs)
    ensures DistinctNames(cs) ==> AsMap(Without(cs, name)) == AsMap(cs) - {name} && StrictlyOrdered(Without(cs, name))
    ensures DistinctNames(cs) ==> DistinctNames(Without(cs, name))
    ensures Named(cs, current) && current != name ==> Named(Without(cs, name), current)
  {
    if DistinctNames(cs) {
      DeleteRemoves(cs, name);
    }
    if Named(cs, current) && current != name {
      DeleteNames(cs, name, current);
    }
  }

  // ----- what every run keeps -----

  /** Every context is stored under its own name, has a login and an auth type the client knows. */
  predicate WellKept(v: View) {
    forall name | name in v.contexts :: WellFormed(name, v.contexts[name])
  }

  predicate WellFormed(name: string, c: Context) {
    c.name == name && c.login != "" && (c.authType == "" || c.authType == "sha1" || c.authType == "plain")
  }

  /** Every run keeps every context well kept. */
  lemma {:induction false} RunKeepsContexts(v: View, cmds: seq<Command>)
    requires WellKept(v)
    ensures WellKept(EffectOfAll(v, cmds))
  {
    if cmds != [] {
      RunKeepsContexts(v, cmds[..|cmds| - 1]);
      EffectKeepsContexts(EffectOfAll(v, cmds[..|cmds| - 1]), cmds[|cmds| - 1]);
    }
  }

  lemma EffectKeepsContexts(v: View, cmd: Command)
    requires WellKept(v)
    ensures WellKept(Effect(v, cmd))
  {
    var w := Effect(v, cmd);
    forall name | name in w.contexts
      ensures WellFormed(name, w.contexts[name])
    {
      assert name in v.contexts ==> WellFormed(name, v.contexts[name]);
    }
  }
}
