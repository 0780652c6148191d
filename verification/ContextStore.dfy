/** The configuration file of the command line client (internal/kasconfig/kasconfig.go): a list of
    named contexts that is kept sorted, seen as a map from name to context. */
module ContextStore {
  import opened Text

  datatype Context = Context(name: string, login: string, authType: string, password: string, twoFactor: bool)

  /** The file: an entry has the fields of a context. */
  datatype File = File(apiVersion: string, kind: string, current: string, entries: seq<FileEntry>)
  datatype FileEntry = FileEntry(name: string, login: string, authType: string, password: string, twoFactor: bool)

  datatype Lookup = NoContext | SomeContext(context: Context)

  // ----- lists of contexts -----

  /** What sort.Slice by name guarantees; equal names come in any order. */
  predicate Ordered(cs: seq<Context>) {
    forall i, j | 0 <= i < j < |cs| :: !Less(cs[j].name, cs[i].name)
  }

  /** Sorted, and no name twice. */
  predicate StrictlyOrdered(cs: seq<Context>) {
    forall i, j | 0 <= i < j < |cs| :: Less(cs[i].name, cs[j].name)
  }

  predicate DistinctNames(cs: seq<Context>) {
    forall i, j | 0 <= i < j < |cs| :: cs[i].name != cs[j].name
  }

  /** The map a list stands for: the first context of a name counts. */
  function AsMap(cs: seq<Context>): map<string, Context> {
    if cs == [] then map[] else AsMap(cs[1..])[cs[0].name := cs[0]]
  }

  predicate Named(cs: seq<Context>, name: string) {
    exists i | 0 <= i < |cs| :: cs[i].name == name
  }

  /** The list with the first context of ctx's name replaced. */
  function Replaced(cs: seq<Context>, ctx: Context): seq<Context> {
    if cs == [] then []
    else if cs[0].name == ctx.name then [ctx] + cs[1..]
    else [cs[0]] + Replaced(cs[1..], ctx)
  }

  /** The list without the first context of a name. */
  function Without(cs: seq<Context>, name: string): seq<Context> {
    if cs == [] then []
    else if cs[0].name == name then cs[1..]
    else [cs[0]] + Without(cs[1..], name)
  }

  function Occurrences(cs: seq<Context>, name: string): nat {
    if cs == [] then 0 else (if cs[0].name == name then 1 else 0) + Occurrences(cs[1..], name)
  }

  lemma {:induction false} NamedInMap(cs: seq<Context>, name: string)
    ensures name in AsMap(cs) <==> Named(cs, name)
    ensures name in AsMap(cs) ==> AsMap(cs)[name] in cs && AsMap(cs)[name].name == name
    ensures name in AsMap(cs) <==> Occurrences(cs, name) > 0
  {
    if cs != [] {
      NamedInMap(cs[1..], name);
      if Named(cs, name) && cs[0].name != name {
        var i :| 0 <= i < |cs| && cs[i].name == name;
        assert cs[1..][i - 1].name == name;
      }
    }
  }

  /** Replacing in place is updating the map, for every list. */
  lemma {:induction false} ReplacedMap(cs: seq<Context>, ctx: Context)
    requires Named(cs, ctx.name)
    ensures AsMap(Replaced(cs, ctx)) == AsMap(cs)[ctx.name := ctx]
  {
    if cs[0].name == ctx.name {
      assert ([ctx] + cs[1..])[1..] == cs[1..];
    } else {
      var i :| 0 <= i < |cs| && cs[i].name == ctx.name;
      assert cs[1..][i - 1].name == ctx.name;
      ReplacedMap(cs[1..], ctx);
    }
  }

  lemma UpdateApart(m: map<string, Context>, n: map<string, Context>, name: string, c: Context)
    requires m - {name} == n - {name} && c.name != name
    ensures m[c.name := c] - {name} == n[c.name := c] - {name}
  {
    assert m[c.name := c] - {name} == (m - {name})[c.name := c];
    assert n[c.name := c] - {name} == (n - {name})[c.name := c];
  }

  /** Removing the first context of a name leaves all others, and takes the name out of the map
      exactly when it does not occur again. */
  lemma {:induction false} WithoutMap(cs: seq<Context>, name: string)
    ensures AsMap(Without(cs, name)) - {name} == AsMap(cs) - {name}
    ensures name !in AsMap(Without(cs, name)) <==> Occurrences(cs, name) <= 1
  {
    if cs != [] {
      if cs[0].name == name {
        NamedInMap(cs[1..], name);
      } else {
        WithoutMap(cs[1..], name);
        assert Without(cs, name)[1..] == Without(cs[1..], name);
        UpdateApart(AsMap(Without(cs[1..], name)), AsMap(cs[1..]), name, cs[0]);
      }
    }
  }

  lemma {:induction false} OccursOnce(cs: seq<Context>, name: string)
    requires DistinctNames(cs)
    ensures Occurrences(cs, name) <= 1
  {
    if cs != [] {
      OccursOnce(cs[1..], name);
      NamedInMap(cs[1..], name);
    }
  }

  // ----- order -----

  lemma StrictIsDistinct(cs: seq<Context>)
    ensures StrictlyOrdered(cs) <==> Ordered(cs) && DistinctNames(cs)
  {
    forall i, j | 0 <= i < j < |cs|
      ensures Less(cs[i].name, cs[j].name) <==> !Less(cs[j].name, cs[i].name) && cs[i].name != cs[j].name
    {
      LessTotal(cs[i].name, cs[j].name);
    }
  }

  lemma TwiceInMultiset(cs: seq<Context>, i: nat, j: nat)
    requires i < j < |cs| && cs[i] == cs[j]
    ensures multiset(cs)[cs[i]] >= 2
  {
    assert cs == cs[..j] + cs[j..];
    assert cs[..j][i] == cs[i] && cs[j..][0] == cs[i];
    assert multiset(cs) == multiset(cs[..j]) + multiset(cs[j..]);
  }

  lemma OnceInMultiset(cs: seq<Context>, p: nat)
    requires DistinctNames(cs) && p < |cs|
    ensures multiset(cs)[cs[p]] == 1
  {
    assert cs == cs[..p] + [cs[p]] + cs[p + 1..];
    assert cs[p] !in cs[..p] && cs[p] !in cs[p + 1..];
  }

  /** Names stay distinct in every order. */
  lemma PermutedNames(a: seq<Context>, b: seq<Context>)
    requires multiset(a) == multiset(b) && DistinctNames(a)
    ensures DistinctNames(b)
  {
    forall i, j | 0 <= i < j < |b|
      ensures b[i].name != b[j].name
    {
      assert b[i] in multiset(a) && b[j] in multiset(a);
      var p :| 0 <= p < |a| && a[p] == b[i];
      var q :| 0 <= q < |a| && a[q] == b[j];
      OnceInMultiset(a, p);
      if p == q {
        TwiceInMultiset(b, i, j);
      }
    }
  }

  lemma {:induction false} DistinctMap(cs: seq<Context>, c: Context)
    requires DistinctNames(cs)
    ensures c in cs <==> c.name in AsMap(cs) && AsMap(cs)[c.name] == c
  {
    NamedInMap(cs, c.name);
    if c in cs {
      var i :| 0 <= i < |cs| && cs[i] == c;
      assert Named(cs, c.name);
      var d := AsMap(cs)[c.name];
      var j :| 0 <= j < |cs| && cs[j] == d;
      assert i == j;
    }
  }

  /** A list of distinct names stands for the same map in every order. */
  lemma PermutedMap(a: seq<Context>, b: seq<Context>)
    requires multiset(a) == multiset(b) && DistinctNames(a)
    ensures AsMap(a) == AsMap(b)
  {
    PermutedNames(a, b);
    forall name
      ensures name in AsMap(a) <==> name in AsMap(b)
      ensures name in AsMap(a) ==> AsMap(a)[name] == AsMap(b)[name]
    {
      NamedInMap(a, name);
      NamedInMap(b, name);
      if name in AsMap(a) {
        assert AsMap(a)[name] in multiset(b);
        DistinctMap(b, AsMap(a)[name]);
      }
      if name in AsMap(b) {
        assert AsMap(b)[name] in multiset(a);
        DistinctMap(a, AsMap(b)[name]);
      }
    }
  }

  lemma SameLength(a: seq<Context>, b: seq<Context>)
    requires multiset(a) == multiset(b)
    ensures |a| == |b|
  {
    assert |multiset(a)| == |a| && |multiset(b)| == |b|;
  }

  lemma SameHead(a: seq<Context>, b: seq<Context>)
    requires multiset(a) == multiset(b) && StrictlyOrdered(a) && Ordered(b) && a != [] && b != []
    ensures a[0] == b[0]
  {
    assert a[0] in multiset(b) && b[0] in multiset(a);
    var i :| 0 <= i < |a| && a[i] == b[0];
    var k :| 0 <= k < |b| && b[k] == a[0];
  }

  lemma MultisetTail(a: seq<Context>)
    requires a != []
    ensures multiset(a[1..]) == multiset(a) - multiset{a[0]}
  {
    assert a == [a[0]] + a[1..];
  }

  /** Only one order of distinct names is sorted: what sort.Slice leaves open does not matter. */
  lemma {:induction false} SortedIsUnique(a: seq<Context>, b: seq<Context>)
    requires multiset(a) == multiset(b) && StrictlyOrdered(a) && Ordered(b)
    ensures a == b
  {
    SameLength(a, b);
    if a != [] {
      SameHead(a, b);
      MultisetTail(a);
      MultisetTail(b);
      SortedIsUnique(a[1..], b[1..]);
      assert a == [a[0]] + a[1..] && b == [b[0]] + b[1..];
    }
  }

  lemma {:induction false} WithoutAt(cs: seq<Context>, name: string, i: nat)
    requires i < |cs| && cs[i].name == name && forall k | 0 <= k < i :: cs[k].name != name
    ensures Without(cs, name) == cs[..i] + cs[i + 1..]
  {
    if i > 0 {
      WithoutAt(cs[1..], name, i - 1);
    }
  }

  lemma {:induction false} ReplacedAt(cs: seq<Context>, ctx: Context, i: nat)
    requires i < |cs| && cs[i].name == ctx.name && forall k | 0 <= k < i :: cs[k].name != ctx.name
    ensures Replaced(cs, ctx) == cs[i := ctx]
  {
    if i > 0 {
      ReplacedAt(cs[1..], ctx, i - 1);
    }
  }

  /** Where a context goes among sorted ones. */
  method Insert(cs: seq<Context>, c: Context) returns (r: seq<Context>)
    requires Ordered(cs)
    ensures Ordered(r) && multiset(r) == multiset(cs) + multiset{c}
  {
    var k := 0;
    while k < |cs| && !Less(c.name, cs[k].name)
      invariant k <= |cs|
      invariant forall i | 0 <= i < k :: !Less(c.name, cs[i].name)
    {
      k := k + 1;
    }
    r := cs[..k] + [c] + cs[k..];
    assert cs == cs[..k] + cs[k..];
    forall j | k <= j < |cs|
      ensures !Less(cs[j].name, c.name)
    {
      if Less(cs[j].name, c.name) {
        LessTransitive(cs[j].name, c.name, cs[k].name);
        LessTotal(cs[k].name, cs[k].name);
      }
    }
  }

  /** sort.Slice by name. */
  method Sort(cs: seq<Context>) returns (r: seq<Context>)
    ensures Ordered(r) && multiset(r) == multiset(cs)
  {
    r := [];
    for i := 0 to |cs|
      invariant Ordered(r) && multiset(r) == multiset(cs[..i])
    {
      r := Insert(r, cs[i]);
      assert cs[..i + 1] == cs[..i] + [cs[i]];
    }
    assert cs[..|cs|] == cs;
  }

  // ----- the operations on maps -----

  lemma {:induction false} ReplacedNames(cs: seq<Context>, ctx: Context)
    ensures |Replaced(cs, ctx)| == |cs|
    ensures forall i | 0 <= i < |cs| :: Replaced(cs, ctx)[i].name == cs[i].name
  {
    if cs != [] && cs[0].name != ctx.name {
      ReplacedNames(cs[1..], ctx);
    }
  }

  /** What Set leaves. */
  predicate IsSet(before: seq<Context>, after: seq<Context>, ctx: Context) {
    if Named(before, ctx.name) then after == Replaced(before, ctx)
    else Ordered(after) && multiset(after) == multiset(before) + multiset{ctx}
  }

  /** Set is a map update, and keeps the list sorted and free of duplicates. */
  lemma SetUpdates(before: seq<Context>, after: seq<Context>, ctx: Context)
    requires IsSet(before, after, ctx) && DistinctNames(before)
    ensures AsMap(after) == AsMap(before)[ctx.name := ctx]
    ensures DistinctNames(after) && (Ordered(before) ==> StrictlyOrdered(after))
  {
    hide Named, Replaced, Ordered, DistinctNames, StrictlyOrdered, AsMap;
    if Named(before, ctx.name) {
      ReplacedMap(before, ctx);
      ReplacedIsKept(before, ctx);
    } else {
      AddedIsKept(before, after, ctx);
    }
    StrictIsDistinct(after);
  }

  lemma ReplacedIsKept(before: seq<Context>, ctx: Context)
    ensures DistinctNames(before) ==> DistinctNames(Replaced(before, ctx))
    ensures Ordered(before) ==> Ordered(Replaced(before, ctx))
  {
    ReplacedNames(before, ctx);
  }

  lemma AddedIsKept(before: seq<Context>, after: seq<Context>, ctx: Context)
    requires !Named(before, ctx.name) && DistinctNames(before)
    requires multiset(after) == multiset(before) + multiset{ctx}
    ensures AsMap(after) == AsMap(before)[ctx.name := ctx] && DistinctNames(after)
  {
    var extended := [ctx] + before;
    assert extended[1..] == before;
    assert DistinctNames(extended);
    PermutedNames(extended, after);
    PermutedMap(extended, after);
  }

  lemma WithoutIsShorter(cs: seq<Context>, name: string)
    ensures DistinctNames(cs) ==> DistinctNames(Without(cs, name))
    ensures Ordered(cs) ==> Ordered(Without(cs, name))
  {
    if Named(cs, name) {
      var i := FirstNamed(cs, name);
      WithoutAt(cs, name, i);
    } else {
      NothingWithout(cs, name);
    }
  }

  lemma {:induction false} FirstNamed(cs: seq<Context>, name: string) returns (i: nat)
    requires Named(cs, name)
    ensures i < |cs| && cs[i].name == name && forall k | 0 <= k < i :: cs[k].name != name
  {
    i := 0;
    while cs[i].name != name
      invariant i < |cs| && forall k | 0 <= k < i :: cs[k].name != name
      decreases |cs| - i
    {
      i := i + 1;
    }
  }

  /** Delete is a map removal, and keeps the list sorted and free of duplicates. */
  lemma DeleteRemoves(cs: seq<Context>, name: string)
    requires DistinctNames(cs)
    ensures AsMap(Without(cs, name)) == AsMap(cs) - {name}
    ensures DistinctNames(Without(cs, name)) && (Ordered(cs) ==> StrictlyOrdered(Without(cs, name)))
  {
    WithoutMap(cs, name);
    OccursOnce(cs, name);
    WithoutIsShorter(cs, name);
    StrictIsDistinct(Without(cs, name));
  }

  // ----- runs -----

  datatype Change = Setting(context: Context) | Deleting(name: string)

  /** What one Set or Delete does to the list. */
  predicate Changes(before: seq<Context>, after: seq<Context>, change: Change) {
    match change
    case Setting(ctx) => IsSet(before, after, ctx)
    case Deleting(name) => after == Without(before, name)
  }

  /** The same on a map. */
  function ChangedMap(m: map<string, Context>, changes: seq<Change>): map<string, Context> {
    if changes == [] then m
    else
      var before := ChangedMap(m, changes[..|changes| - 1]);
      match changes[|changes| - 1]
      case Setting(ctx) => before[ctx.name := ctx]
      case Deleting(name) => before - {name}
  }

  /** From a sorted list without duplicates every run of Set and Delete is a run on the map, and the list
      stays sorted and free of duplicates. */
  lemma {:induction false} RunRefinesMap(lists: seq<seq<Context>>, changes: seq<Change>, k: nat)
    requires |lists| == |changes| + 1 && k < |lists|
    requires forall i | 0 <= i < |changes| :: Changes(lists[i], lists[i + 1], changes[i])
    requires StrictlyOrdered(lists[0])
    ensures StrictlyOrdered(lists[k])
    ensures AsMap(lists[k]) == ChangedMap(AsMap(lists[0]), changes[..k])
  {
    if k > 0 {
      RunRefinesMap(lists, changes, k - 1);
      var before, after := lists[k - 1], lists[k - 1 + 1];
      assert Changes(before, after, changes[k - 1]);
      assert changes[..k][..k - 1] == changes[..k - 1];
      StrictIsDistinct(before);
      match changes[k - 1]
      case Setting(ctx) => SetUpdates(before, after, ctx);
      case Deleting(name) => DeleteRemoves(before, name);
    }
  }

  // ----- names, duplicates or not -----

  lemma SameNames(a: seq<Context>, b: seq<Context>, name: string)
    requires multiset(a) == multiset(b) && Named(a, name)
    ensures Named(b, name)
  {
    var i :| 0 <= i < |a| && a[i].name == name;
    assert a[i] in multiset(b);
  }

  /** Set keeps every name and adds its own. */
  lemma SetNames(before: seq<Context>, after: seq<Context>, ctx: Context, name: string)
    requires IsSet(before, after, ctx) && (Named(before, name) || name == ctx.name)
    ensures Named(after, name)
  {
    if Named(before, ctx.name) {
      ReplacedNames(before, ctx);
      var i :| 0 <= i < |before| && before[i].name == name;
      assert after[i].name == name;
    } else {
      var extended := before + [ctx];
      assert extended[|before|].name == ctx.name;
      if Named(before, name) {
        var i :| 0 <= i < |before| && before[i].name == name;
        assert extended[i].name == name;
      }
      SameNames(extended, after, name);
    }
  }

  /** Delete keeps every other name. */
  lemma DeleteNames(cs: seq<Context>, deleted: string, name: string)
    requires Named(cs, name) && name != deleted
    ensures Named(Without(cs, deleted), name)
  {
    WithoutMap(cs, deleted);
    NamedInMap(cs, name);
    NamedInMap(Without(cs, deleted), name);
    assert name in AsMap(cs) - {deleted};
  }

  // ----- the configuration -----

  function ToEntry(c: Context): FileEntry {
    FileEntry(c.name, c.login, c.authType, c.password, c.twoFactor)
  }

  function ToContext(e: FileEntry): Context {
    Context(e.name, e.login, e.authType, e.password, e.twoFactor)
  }

  function ToContexts(entries: seq<FileEntry>): seq<Context> {
    seq(|entries|, i requires 0 <= i < |entries| => ToContext(entries[i]))
  }

  /** Every field of a context has its place in the file, and is read from there. */
  lemma FieldsKept(name: string, login: string, authType: string, password: string, twoFactor: bool)
    ensures
      var e := ToEntry(Context(name, login, authType, password, twoFactor));
      e.name == name && e.login == login && e.authType == authType && e.password == password && e.twoFactor == twoFactor
    ensures
      var c := ToContext(FileEntry(name, login, authType, password, twoFactor));
      c.name == name && c.login == login && c.authType == authType && c.password == password && c.twoFactor == twoFactor
  {
  }

  class Config {
    var current: string
    var contexts: seq<Context>

    /** Load: the contexts of the file, sorted. */
    constructor Load(f: File)
      ensures current == f.current
      ensures Ordered(contexts) && multiset(contexts) == multiset(ToContexts(f.entries))
    {
      current, contexts := f.current, [];
      new;
      for i := 0 to |f.entries|
        invariant current == f.current && contexts == ToContexts(f.entries[..i])
      {
        contexts := contexts + [ToContext(f.entries[i])];
      }
      assert f.entries[..|f.entries|] == f.entries;
      contexts := Sort(contexts);
    }

    /** Save: the file written. */
    method Save() returns (f: File)
      ensures f.current == current && ToContexts(f.entries) == contexts
      ensures f.apiVersion == "v1" && f.kind == "Config"
    {
      var entries: seq<FileEntry> := [];
      for i := 0 to |contexts|
        invariant ToContexts(entries) == contexts[..i]
      {
        entries := entries + [ToEntry(contexts[i])];
      }
      f := File("v1", "Config", current, entries);
    }

    /** Get. */
    method Get(name: string) returns (r: Lookup)
      ensures r == if name in AsMap(contexts) then SomeContext(AsMap(contexts)[name]) else NoContext
    {
      for i := 0 to |contexts|
        invariant forall k | 0 <= k < i :: contexts[k].name != name
      {
        if contexts[i].name == name {
          FirstInMap(contexts, name, i);
          return SomeContext(contexts[i]);
        }
      }
      NamedInMap(contexts, name);
      return NoContext;
    }

    /** Set: replaces the first context of the name in place, or adds the context and sorts. */
    method Set(ctx: Context)
      modifies this`contexts
      ensures IsSet(old(contexts), contexts, ctx)
    {
      for i := 0 to |contexts|
        invariant contexts == old(contexts)
        invariant forall k | 0 <= k < i :: contexts[k].name != ctx.name
      {
        if contexts[i].name == ctx.name {
          ReplacedAt(contexts, ctx, i);
          contexts := contexts[i := ctx];
          return;
        }
      }
      contexts := contexts + [ctx];
      contexts := Sort(contexts);
    }

    /** Delete: shifts the contexts behind the first of the name, and clears the current context with it. */
    method Delete(name: string) returns (ok: bool)
      modifies this
      ensures ok <==> Named(old(contexts), name)
      ensures contexts == Without(old(contexts), name)
      ensures current == if ok && old(current) == name then "" else old(current)
      ensures ok ==> (name !in AsMap(contexts) <==> Occurrences(old(contexts), name) == 1)
    {
      WithoutMap(contexts, name);
      NamedInMap(contexts, name);
      for i := 0 to |contexts|
        invariant contexts == old(contexts) && current == old(current)
        invariant forall k | 0 <= k < i :: contexts[k].name != name
      {
        if contexts[i].name == name {
          WithoutAt(contexts, name, i);
          contexts := contexts[..i] + contexts[i + 1..];
          if current == name {
            current := "";
          }
          return true;
        }
      }
      NothingWithout(contexts, name);
      return false;
    }
  }

  lemma {:induction false} FirstInMap(cs: seq<Context>, name: string, i: nat)
    requires i < |cs| && cs[i].name == name && forall k | 0 <= k < i :: cs[k].name != name
    ensures name in AsMap(cs) && AsMap(cs)[name] == cs[i]
  {
    if i > 0 {
      FirstInMap(cs[1..], name, i - 1);
    }
  }

  lemma {:induction false} NothingWithout(cs: seq<Context>, name: string)
    requires forall k | 0 <= k < |cs| :: cs[k].name != name
    ensures Without(cs, name) == cs
  {
    if cs != [] {
      NothingWithout(cs[1..], name);
    }
  }
}
