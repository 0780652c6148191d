/** Go's strings package, as far as the modelled code uses it: TrimSpace, Split,
    FieldsFunc, Join, Cut and the order of strings. A string is a sequence of code points. */
module Text {

  /** unicode.IsSpace. */
  predicate IsSpace(c: char) {
    || '\t' <= c <= '\r'
    || c == ' '
    || c == '\U{0085}' || c == '\U{00A0}' || c == '\U{1680}'
    || '\U{2000}' <= c <= '\U{200A}'
    || c == '\U{2028}' || c == '\U{2029}' || c == '\U{202F}' || c == '\U{205F}' || c == '\U{3000}'
  }

  /** No white space at either end. */
  predicate Trimmed(s: string) {
    s != "" ==> !IsSpace(s[0]) && !IsSpace(s[|s| - 1])
  }

  /** The first position from i on that is not white space, or |s|. */
  function Lead(s: string, i: nat): (k: nat)
    requires i <= |s|
    ensures i <= k <= |s|
    ensures k < |s| ==> !IsSpace(s[k])
    ensures forall j | i <= j < k :: IsSpace(s[j])
    decreases |s| - i
  {
    if i < |s| && IsSpace(s[i]) then Lead(s, i + 1) else i
  }

  /** The last position up to i behind a character that is not white space, or from. */
  function Tail(s: string, from: nat, i: nat): (k: nat)
    requires from <= i <= |s|
    ensures from <= k <= i
    ensures k > from ==> !IsSpace(s[k - 1])
    ensures forall j | k <= j < i :: IsSpace(s[j])
  {
    if i > from && IsSpace(s[i - 1]) then Tail(s, from, i - 1) else i
  }

  /** strings.TrimSpace. */
  function Trim(s: string): (r: string)
    ensures Trimmed(r)
    ensures Trimmed(s) <==> r == s
  {
    var from := Lead(s, 0);
    s[from..Tail(s, from, |s|)]
  }

  /** Of the ASCII characters six are white space. */
  lemma AsciiSpace(c: char)
    requires c < '\U{0080}'
    ensures IsSpace(c) <==> c == ' ' || c == '\t' || c == '\n' || c == '\U{000B}' || c == '\U{000C}' || c == '\r'
  {
  }

  predicate AllSpace(s: string) {
    forall i | 0 <= i < |s| :: IsSpace(s[i])
  }

  /** Trimming takes away the white space around a text and nothing of the text. */
  lemma TrimCuts(before: string, s: string, after: string)
    requires AllSpace(before) && AllSpace(after) && s != "" && Trimmed(s)
    ensures Trim(before + s + after) == s
  {
    var all := before + s + after;
    var behind := |before| + |s|;
    assert forall i | 0 <= i < |before| :: IsSpace(before[i]) && all[i] == before[i];
    assert forall i | behind <= i < |all| :: IsSpace(after[i - behind]) && all[i] == after[i - behind];
    assert all[|before|] == s[0] && all[behind - 1] == s[|s| - 1];
    assert Lead(all, 0) == |before|;
    assert Tail(all, |before|, |all|) == behind;
    assert all[|before|..behind] == s;
  }

  lemma BlankTrims(s: string)
    ensures Trim(s) == "" <==> AllSpace(s)
  {
    var from := Lead(s, 0);
    if from < |s| {
      var end := Tail(s, from, |s|);
      assert end > from;
      assert Trim(s)[0] == s[from];
    }
  }

  /** No separator occurs in s. */
  predicate Free(s: string, seps: set<char>) {
    forall i | 0 <= i < |s| :: s[i] !in seps
  }

  lemma TrimFree(s: string, seps: set<char>)
    requires Free(s, seps)
    ensures Free(Trim(s), seps)
  {
  }

  predicate AllFree(parts: seq<string>, seps: set<char>) {
    forall i | 0 <= i < |parts| :: Free(parts[i], seps)
  }

  /** The parts of s between separators, empty ones included: at least one part.
      strings.Split with a one-character separator is the case of one element. */
  function Split(s: string, seps: set<char>): (parts: seq<string>)
    ensures |parts| >= 1
  {
    if s == "" then [""]
    else
      var rest := Split(s[1..], seps);
      if s[0] in seps then [""] + rest else [[s[0]] + rest[0]] + rest[1..]
  }

  /** strings.FieldsFunc: the non-empty parts between separators. */
  function Fields(s: string, seps: set<char>): seq<string> {
    NonEmpty(Split(s, seps))
  }

  function NonEmpty(parts: seq<string>): seq<string> {
    if parts == [] then []
    else (if parts[0] == "" then [] else [parts[0]]) + NonEmpty(parts[1..])
  }

  lemma {:induction false} NonEmptyConcat(a: seq<string>, b: seq<string>)
    ensures NonEmpty(a + b) == NonEmpty(a) + NonEmpty(b)
  {
    if a == [] {
      assert a + b == b;
    } else {
      assert (a + b)[1..] == a[1..] + b;
      NonEmptyConcat(a[1..], b);
    }
  }

  lemma NonEmptySingle(p: string)
    ensures NonEmpty([p]) == if p == "" then [] else [p]
  {
    assert NonEmpty([p][1..]) == [];
  }

  /** f applied to every part. */
  function Map(f: string -> string, parts: seq<string>): (r: seq<string>)
    ensures |r| == |parts|
    ensures forall i | 0 <= i < |r| :: r[i] == f(parts[i])
  {
    seq(|parts|, i requires 0 <= i < |parts| => f(parts[i]))
  }

  lemma MapConcat(f: string -> string, a: seq<string>, b: seq<string>)
    ensures Map(f, a + b) == Map(f, a) + Map(f, b)
  {
  }

  /** strings.Join with a one-character separator. */
  function Join(parts: seq<string>, sep: char): string {
    if parts == [] then ""
    else if |parts| == 1 then parts[0]
    else parts[0] + [sep] + Join(parts[1..], sep)
  }

  lemma {:induction false} SplitIsFree(s: string, seps: set<char>)
    ensures AllFree(Split(s, seps), seps)
  {
    if s != "" {
      SplitIsFree(s[1..], seps);
    }
  }

  lemma {:induction false} SplitSeparatorFree(s: string, seps: set<char>)
    requires Free(s, seps)
    ensures Split(s, seps) == [s]
  {
    if s != "" {
      SplitSeparatorFree(s[1..], seps);
      assert s == [s[0]] + s[1..];
    }
  }

  /** Splitting is splitting on both sides of any separator. */
  lemma {:induction false} SplitSides(a: string, sep: char, b: string, seps: set<char>)
    requires sep in seps
    ensures Split(a + [sep] + b, seps) == Split(a, seps) + Split(b, seps)
  {
    var s := a + [sep] + b;
    if a == "" {
      assert s[1..] == b;
    } else {
      assert s[1..] == a[1..] + [sep] + b;
      SplitSides(a[1..], sep, b, seps);
    }
  }

  /** Splitting distributes over a separator. */
  lemma {:induction false} SplitConcat(a: string, sep: char, b: string, seps: set<char>)
    requires sep in seps && Free(a, seps)
    ensures Split(a + [sep] + b, seps) == [a] + Split(b, seps)
  {
    var s := a + [sep] + b;
    if a == "" {
      assert s[1..] == b;
    } else {
      assert s[1..] == a[1..] + [sep] + b;
      SplitConcat(a[1..], sep, b, seps);
      assert a == [a[0]] + a[1..];
    }
  }

  /** Join is undone by Split on any non-empty list of separator-free parts. */
  lemma {:induction false} SplitJoin(parts: seq<string>, sep: char, seps: set<char>)
    requires parts != [] && sep in seps
    requires AllFree(parts, seps)
    ensures Split(Join(parts, sep), seps) == parts
  {
    if |parts| == 1 {
      SplitSeparatorFree(parts[0], seps);
    } else {
      SplitJoin(parts[1..], sep, seps);
      SplitConcat(parts[0], sep, Join(parts[1..], sep), seps);
    }
  }

  /** strings.Cut at a character: the text before and after its first occurrence. */
  function Cut(s: string, sep: char): (r: (string, string, bool))
    ensures r.2 <==> sep in s
    ensures !r.2 ==> r.0 == s && r.1 == ""
    ensures r.2 ==> s == r.0 + [sep] + r.1 && sep !in r.0
  {
    if s == "" then ("", "", false)
    else if s[0] == sep then ("", s[1..], true)
    else
      var (before, after, found) := Cut(s[1..], sep);
      ([s[0]] + before, after, found)
  }

  lemma {:induction false} CutConcat(a: string, b: string, sep: char)
    requires sep !in a
    ensures Cut(a + [sep] + b, sep) == (a, b, true)
  {
    var s := a + [sep] + b;
    if a == "" {
      assert s[1..] == b;
    } else {
      assert s[1..] == a[1..] + [sep] + b;
      CutConcat(a[1..], b, sep);
      assert a == [a[0]] + a[1..];
    }
  }

  /** Go's order on strings: lexicographic by code point. */
  predicate Less(a: string, b: string) {
    b != "" && (a == "" || a[0] < b[0] || (a[0] == b[0] && Less(a[1..], b[1..])))
  }

  lemma {:induction false} LessTotal(a: string, b: string)
    ensures a == b || Less(a, b) || Less(b, a)
    ensures !(Less(a, b) && Less(b, a))
    ensures !Less(a, a)
  {
    if a != "" {
      LessTotal(a[1..], a[1..]);
    }
    if a != "" && b != "" {
      LessTotal(a[1..], b[1..]);
      assert a == [a[0]] + a[1..] && b == [b[0]] + b[1..];
    }
  }

  /** It goes by the first character in which two strings differ, and a string comes before its extensions. */
  lemma {:induction false} LessByFirstDifference(common: string, c: char, a: string, d: char, b: string)
    ensures Less(common + [c] + a, common + [d] + b) <==> c < d || (c == d && Less(a, b))
    ensures Less(common, common + [d] + b) && !Less(common + [d] + b, common)
  {
    if common != "" {
      LessByFirstDifference(common[1..], c, a, d, b);
      assert (common + [c] + a)[1..] == common[1..] + [c] + a;
      assert (common + [d] + b)[1..] == common[1..] + [d] + b;
    } else {
      assert ("" + [c] + a)[1..] == a && ("" + [d] + b)[1..] == b;
    }
  }

  lemma {:induction false} LessTransitive(a: string, b: string, c: string)
    requires Less(a, b) && Less(b, c)
    ensures Less(a, c)
  {
    if a != "" && a[0] == b[0] == c[0] {
      LessTransitive(a[1..], b[1..], c[1..]);
    }
  }
}
