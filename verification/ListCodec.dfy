/** The separated string lists of KAS: comma or semicolon (params.go) and newline
    (mailinglist.go, account.go). */
module ListCodec {
  import opened Text

  const LIST_SEPARATORS: set<char> := {',', ';'}
  const LINE_SEPARATORS: set<char> := {'\n'}

  /** The trimmed, non-empty entries of parts, in order. */
  function Kept(parts: seq<string>): seq<string> {
    NonEmpty(Map(Trim, parts))
  }

  /** An entry that survives both codecs: not empty, trimmed, free of separators. */
  predicate Clean(e: string, seps: set<char>) {
    e != "" && Trimmed(e) && Free(e, seps)
  }

  predicate AllClean(entries: seq<string>, seps: set<char>) {
    forall i | 0 <= i < |entries| :: Clean(entries[i], seps)
  }

  /** What reading a list means: the kept parts between separators. */
  function Entries(s: string, seps: set<char>): seq<string> {
    Kept(Split(s, seps))
  }

  /** The loop of splitList and splitLines. */
  method KeepTrimmed(parts: seq<string>) returns (out: seq<string>)
    ensures out == Kept(parts)
  {
    out := [];
    for i := 0 to |parts|
      invariant out == Kept(parts[..i])
    {
      var part := Trim(parts[i]);
      KeptSnoc(parts[..i], parts[i]);
      assert parts[..i + 1] == parts[..i] + [parts[i]];
      if part != "" {
        out := out + [part];
      }
    }
    assert parts[..|parts|] == parts;
  }

  /** splitList: "" is no list; empty and blank entries are dropped. */
  method SplitList(s: string) returns (out: seq<string>)
    ensures out == Entries(s, LIST_SEPARATORS)
  {
    KeptNonEmpty(Split(s, LIST_SEPARATORS));
    if s == "" {
      return [];
    }
    out := KeepTrimmed(Fields(s, LIST_SEPARATORS));
  }

  /** splitLines. */
  method SplitLines(s: string) returns (out: seq<string>)
    ensures out == Entries(s, LINE_SEPARATORS)
  {
    out := KeepTrimmed(Split(s, LINE_SEPARATORS));
  }

  lemma KeptConcat(a: seq<string>, b: seq<string>)
    ensures Kept(a + b) == Kept(a) + Kept(b)
  {
    MapConcat(Trim, a, b);
    NonEmptyConcat(Map(Trim, a), Map(Trim, b));
  }

  lemma KeptSnoc(parts: seq<string>, p: string)
    ensures Kept(parts + [p]) == Kept(parts) + if Trim(p) == "" then [] else [Trim(p)]
  {
    KeptConcat(parts, [p]);
    assert Map(Trim, [p]) == [Trim(p)];
    NonEmptySingle(Trim(p));
  }

  lemma KeptCons(p: string, parts: seq<string>)
    ensures Kept([p] + parts) == (if Trim(p) == "" then [] else [Trim(p)]) + Kept(parts)
  {
    KeptConcat([p], parts);
    assert Map(Trim, [p]) == [Trim(p)];
    NonEmptySingle(Trim(p));
  }

  /** Dropping the empty parts first, as FieldsFunc does, changes nothing. */
  lemma {:induction false} KeptNonEmpty(parts: seq<string>)
    ensures Kept(NonEmpty(parts)) == Kept(parts)
  {
    if parts != [] {
      var p, rest := parts[0], parts[1..];
      KeptNonEmpty(rest);
      assert parts == [p] + rest;
      if p == "" {
        KeptCons(p, rest);
        assert Trimmed("") && NonEmpty(parts) == NonEmpty(rest);
      } else {
        assert NonEmpty(parts) == [p] + NonEmpty(rest);
        KeptCons(p, rest);
        KeptCons(p, NonEmpty(rest));
      }
    }
  }

  lemma KeptClean(parts: seq<string>, seps: set<char>)
    requires AllClean(parts, seps)
    ensures Kept(parts) == parts
  {
    forall i | 0 <= i < |parts|
      ensures Map(Trim, parts)[i] == parts[i] != ""
    {
      assert Clean(parts[i], seps);
    }
    assert Map(Trim, parts) == parts;
    NonEmptyKeeps(parts);
  }

  lemma {:induction false} NonEmptyKeeps(parts: seq<string>)
    requires forall i | 0 <= i < |parts| :: parts[i] != ""
    ensures NonEmpty(parts) == parts
  {
    if parts != [] {
      NonEmptyKeeps(parts[1..]);
    }
  }

  lemma {:induction false} KeptIsClean(parts: seq<string>, seps: set<char>)
    requires AllFree(parts, seps)
    ensures AllClean(Kept(parts), seps)
  {
    if parts != [] {
      var init, last := parts[..|parts| - 1], parts[|parts| - 1];
      TrimFree(last, seps);
      KeptIsClean(init, seps);
      KeptSnoc(init, last);
      assert parts == init + [last];
    }
  }

  /** Every list that is read is clean, whatever the text. */
  lemma EntriesAreClean(s: string, seps: set<char>)
    ensures AllClean(Entries(s, seps), seps)
  {
    SplitIsFree(s, seps);
    KeptIsClean(Split(s, seps), seps);
  }

  /** Writing a list and reading it back returns it exactly when every entry is clean. */
  lemma ReadWritten(entries: seq<string>, sep: char, seps: set<char>)
    requires sep in seps
    ensures Entries(Join(entries, sep), seps) == entries <==> AllClean(entries, seps)
  {
    EntriesAreClean(Join(entries, sep), seps);
    if AllClean(entries, seps) {
      if entries == [] {
        assert Map(Trim, [""]) == [""];
      } else {
        assert AllFree(entries, seps) by {
          forall i | 0 <= i < |entries| ensures Free(entries[i], seps) { assert Clean(entries[i], seps); }
        }
        SplitJoin(entries, sep, seps);
        KeptClean(entries, seps);
      }
    }
  }

  /** Reading, writing and reading again is the same as reading once: for every text. */
  lemma ReadNormalises(s: string, sep: char, seps: set<char>)
    requires sep in seps
    ensures Entries(Join(Entries(s, seps), sep), seps) == Entries(s, seps)
  {
    EntriesAreClean(s, seps);
    ReadWritten(Entries(s, seps), sep, seps);
  }

  /** The SSH keys UpdateSSH accepts: not empty and on one line. */
  predicate ValidKeys(keys: seq<string>) {
    forall i | 0 <= i < |keys| :: keys[i] != "" && Free(keys[i], {'\r', '\n'})
  }

  /** What Settings reads after UpdateSSH wrote valid keys: the same number of non-blank
      keys, each trimmed. They come back unchanged exactly when every key is trimmed. */
  lemma KeysReadBack(keys: seq<string>)
    requires ValidKeys(keys)
    ensures Entries(Join(keys, '\n'), LINE_SEPARATORS) == Kept(keys)
    ensures Entries(Join(keys, '\n'), LINE_SEPARATORS) == keys <==> forall i | 0 <= i < |keys| :: Trimmed(keys[i])
  {
    forall i | 0 <= i < |keys|
      ensures Free(keys[i], LINE_SEPARATORS)
    {
    }
    if keys != [] {
      SplitJoin(keys, '\n', LINE_SEPARATORS);
    }
    ReadWritten(keys, '\n', LINE_SEPARATORS);
  }

  // ----- what separates -----

  /** A list is split at every comma and at every semicolon, and a text with neither is one entry, or none if
      it is blank. */
  lemma SplitsAtBoth(a: string, sep: char, b: string)
    requires sep == ',' || sep == ';'
    ensures Entries(a + [sep] + b, LIST_SEPARATORS) == Entries(a, LIST_SEPARATORS) + Entries(b, LIST_SEPARATORS)
  {
    SplitSides(a, sep, b, LIST_SEPARATORS);
    KeptConcat(Split(a, LIST_SEPARATORS), Split(b, LIST_SEPARATORS));
  }

  lemma SplitsNowhereElse(s: string)
    requires ',' !in s && ';' !in s
    ensures Entries(s, LIST_SEPARATORS) == if Trim(s) == "" then [] else [Trim(s)]
  {
    SplitSeparatorFree(s, LIST_SEPARATORS);
    OneKept(s);
  }

  /** Lines are split at line feeds and nowhere else. */
  lemma SplitsAtLines(a: string, b: string)
    ensures Entries(a + ['\n'] + b, LINE_SEPARATORS) == Entries(a, LINE_SEPARATORS) + Entries(b, LINE_SEPARATORS)
    ensures '\n' !in a ==> Entries(a, LINE_SEPARATORS) == if Trim(a) == "" then [] else [Trim(a)]
  {
    SplitSides(a, '\n', b, LINE_SEPARATORS);
    KeptConcat(Split(a, LINE_SEPARATORS), Split(b, LINE_SEPARATORS));
    if '\n' !in a {
      SplitSeparatorFree(a, LINE_SEPARATORS);
      OneKept(a);
    }
  }

  lemma OneKept(s: string)
    ensures Kept([s]) == if Trim(s) == "" then [] else [Trim(s)]
  {
    assert Map(Trim, [s]) == [Trim(s)];
    NonEmptySingle(Trim(s));
  }
}
