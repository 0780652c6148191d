/** The autoresponder parameter of a mailbox (mail.go) with the decimal integers it is
    written in (strconv.FormatInt and strconv.ParseInt, base 10, 64 bits). */
module Responder {
  import opened Text

  const MIN_INT64: int := -0x8000_0000_0000_0000
  const MAX_INT64: int := 0x7FFF_FFFF_FFFF_FFFF

  predicate IsInt64(n: int) {
    MIN_INT64 <= n <= MAX_INT64
  }

  // ----- decimal -----

  predicate IsDigit(c: char) {
    '0' <= c <= '9'
  }

  function DigitOf(d: nat): char
    requires d < 10
  {
    '0' + d as char
  }

  /** The decimal digits of n without leading zeros. */
  function FormatNat(n: nat): string {
    if n < 10 then [DigitOf(n)] else FormatNat(n / 10) + [DigitOf(n % 10)]
  }

  /** strconv.FormatInt(n, 10). */
  function FormatInt(n: int): string {
    if n < 0 then "-" + FormatNat(-n) else FormatNat(n)
  }

  predicate AllDigits(s: string) {
    forall i | 0 <= i < |s| :: IsDigit(s[i])
  }

  /** The number a digit string denotes. */
  function NatOf(s: string): nat
    requires AllDigits(s)
  {
    if s == "" then 0
    else NatOf(s[..|s| - 1]) * 10 + (s[|s| - 1] as int - '0' as int)
  }

  datatype Parsed = Malformed | Number(value: int)

  /** strconv.ParseInt(s, 10, 64): one optional sign, then digits, in range. */
  function ParseInt(s: string): (r: Parsed)
    ensures r.Number? ==> IsInt64(r.value)
  {
    var signed := s != "" && s[0] in {'+', '-'};
    var digits := if signed then s[1..] else s;
    if digits == "" || !AllDigits(digits) then Malformed
    else
      var magnitude: int := NatOf(digits);
      var n := if signed && s[0] == '-' then -magnitude else magnitude;
      if IsInt64(n) then Number(n) else Malformed
  }

  lemma {:induction false} NatRoundTrip(n: nat)
    ensures FormatNat(n) != "" && AllDigits(FormatNat(n))
    ensures NatOf(FormatNat(n)) == n
  {
    if n >= 10 {
      NatRoundTrip(n / 10);
      assert FormatNat(n)[..|FormatNat(n)| - 1] == FormatNat(n / 10);
    } else {
      assert FormatNat(n)[..0] == "";
    }
  }

  /** The digits are the decimal ones. */
  lemma DecimalDigits(d: nat)
    requires d < 10
    ensures DigitOf(d) == "0123456789"[d] && FormatNat(d) == ["0123456789"[d]] && NatOf(["0123456789"[d]]) == d
    ensures forall c :: IsDigit(c) <==> c in "0123456789"
  {
    assert AllDigits(["0123456789"[d]]) && ["0123456789"[d]][..0] == "";
  }

  /** A number is written in the one way that has no leading zero. */
  lemma {:induction false} Canonical(s: string)
    requires AllDigits(s) && s != ""
    ensures FormatNat(NatOf(s)) == s <==> s[0] != '0' || s == "0"
  {
    var init, last := s[..|s| - 1], s[|s| - 1];
    assert s == init + [last];
    if init == "" {
      assert s == [last];
    } else {
      Canonical(init);
      var n := NatOf(init);
      assert NatOf(s) / 10 == n && NatOf(s) % 10 == last as int - '0' as int;
      NatRoundTrip(n);
      NatRoundTrip(NatOf(s));
    }
  }

  /** What ParseInt accepts: digits, with a sign or without, in the range of 64 bits. */
  lemma SignedDigits(digits: string)
    requires digits != "" && AllDigits(digits)
    ensures var n: int := NatOf(digits);
      && ParseInt(digits) == ParseInt("+" + digits) == (if n <= 9223372036854775807 then Number(n) else Malformed)
      && ParseInt("-" + digits) == (if n <= 9223372036854775808 then Number(-n) else Malformed)
  {
    assert ("+" + digits)[1..] == digits && ("-" + digits)[1..] == digits;
    assert IsDigit(digits[0]);
  }

  lemma OnlySignedDigits(s: string)
    requires ParseInt(s).Number?
    ensures exists digits :: digits != "" && AllDigits(digits) && s in [digits, "+" + digits, "-" + digits]
  {
    var digits := if s[0] in {'+', '-'} then s[1..] else s;
    assert s[0] == '+' ==> s == "+" + digits;
    assert s[0] == '-' ==> s == "-" + digits;
    assert s in [digits, "+" + digits, "-" + digits];
  }

  /** Parsing undoes formatting on every 64-bit integer, and only on those. */
  lemma IntRoundTrip(n: int)
    ensures ParseInt(FormatInt(n)) == if IsInt64(n) then Number(n) else Malformed
  {
    var m: nat := if n < 0 then -n else n;
    NatRoundTrip(m);
    var s := FormatInt(n);
    if n < 0 {
      assert s[1..] == FormatNat(m);
    } else {
      assert IsDigit(s[0]);
    }
  }

  /** A formatted integer holds only a sign and digits, so no separator and no white space. */
  lemma IntPlain(n: int)
    ensures FormatInt(n) != "" && Trimmed(FormatInt(n)) && '|' !in FormatInt(n)
  {
    NatRoundTrip(if n < 0 then -n else n);
  }

  // ----- responder -----

  /** time.Time to the extent it matters: seconds since the epoch and nanoseconds. */
  datatype Time = Time(sec: int, nsec: nat)
  type Instant = t: Time | IsInt64(t.sec) && t.nsec < 1_000_000_000 witness Time(0, 0)

  /** The zero time.Time: year 1. */
  const ZERO: Instant := Time(-62135596800, 0)

  predicate Before(a: Instant, b: Instant) {
    a.sec < b.sec || (a.sec == b.sec && a.nsec < b.nsec)
  }

  datatype Responder = Responder(active: bool, start: Instant, end: Instant, text: string, contentType: string)

  /** validate returns no error. */
  predicate Valid(r: Responder) {
    !r.active ||
    (&& Trim(r.text) != ""
     && (r.start == ZERO <==> r.end == ZERO)
     && (r.start != ZERO ==> Before(r.start, r.end))
     && r.contentType in ["", "text", "html"])
  }

  /** responderValue: N, Y or the window as "start|end". */
  function ResponderValue(r: Responder): string {
    if !r.active then "N"
    else if r.start != ZERO then FormatInt(r.start.sec) + "|" + FormatInt(r.end.sec)
    else "Y"
  }

  function ToUpper(s: string): (r: string)
    ensures |r| == |s|
  {
    seq(|s|, i requires 0 <= i < |s| => if 'a' <= s[i] <= 'z' then (s[i] - 'a') + 'A' else s[i])
  }

  /** isYes: Y/N, TRUE/FALSE or the German j/n. */
  predicate IsYes(s: string) {
    ToUpper(Trim(s)) in ["Y", "J", "TRUE", "1"]
  }

  /** What responderFrom sets: the active flag and the window. */
  datatype Window = Window(active: bool, start: Instant, end: Instant)

  /** responderFrom, on the text of mail_responder. */
  function ResponderFrom(field: string): Window {
    var raw := Trim(field);
    var (start, end, found) := Cut(raw, '|');
    if found then
      match (ParseInt(Trim(start)), ParseInt(Trim(end)))
      case (Number(from), Number(to)) => Window(true, Time(from, 0), Time(to, 0))
      case _ => Window(false, ZERO, ZERO)
    else Window(IsYes(raw), ZERO, ZERO)
  }

  /** What is rejected of an active responder: a blank text, one date without the other, an end that is not
      after the start, and a content type that is neither text nor html. */
  lemma InvalidExactly(r: Responder)
    ensures !Valid(r) <==>
      && r.active
      && (|| AllSpace(r.text)
          || (r.start == Time(-62135596800, 0) && r.end != Time(-62135596800, 0))
          || (r.start != Time(-62135596800, 0) && r.end == Time(-62135596800, 0))
          || (r.start != Time(-62135596800, 0) &&
              r.end.sec * 1_000_000_000 + r.end.nsec <= r.start.sec * 1_000_000_000 + r.start.nsec)
          || (r.contentType != "" && r.contentType != "text" && r.contentType != "html"))
  {
    BlankTrims(r.text);
  }

  /** The words for on: Y, J, 1 and TRUE, in capitals or not. Everything else without a window is off. */
  lemma FlagWords(field: string)
    requires '|' !in Trim(field)
    ensures var w := Trim(field);
      ResponderFrom(field) ==
        Window(w in ["Y", "y", "J", "j", "1"] ||
               (|w| == 4 && w[0] in "Tt" && w[1] in "Rr" && w[2] in "Uu" && w[3] in "Ee"), ZERO, ZERO)
  {
    hide Trim, Cut;
    var w := Trim(field);
    assert Trim(w) == w;
    var u := ToUpper(w);
    assert |w| == 1 ==> u == [u[0]] && w == [w[0]];
    assert |w| == 4 ==> u == [u[0], u[1], u[2], u[3]];
  }

  /** A window is on exactly if both halves are integers. */
  lemma WindowRead(field: string, start: string, end: string)
    requires Trim(field) == start + "|" + end && '|' !in start
    ensures ResponderFrom(field) ==
      if ParseInt(Trim(start)).Number? && ParseInt(Trim(end)).Number?
      then Window(true, Time(ParseInt(Trim(start)).value, 0), Time(ParseInt(Trim(end)).value, 0))
      else Window(false, ZERO, ZERO)
  {
    CutConcat(start, end, '|');
  }

  lemma WindowText(a: int, b: int)
    ensures var s := FormatInt(a) + "|" + FormatInt(b);
      Trimmed(s) && Cut(s, '|') == (FormatInt(a), FormatInt(b), true)
  {
    IntPlain(a);
    IntPlain(b);
    CutConcat(FormatInt(a), FormatInt(b), '|');
  }

  /** Reading a flag without a window. */
  lemma ReadFlag(flag: string)
    requires flag == "Y" || flag == "N"
    ensures ResponderFrom(flag) == Window(flag == "Y", ZERO, ZERO)
  {
    assert Trim(flag) == flag;
    assert Cut(flag, '|') == (flag, "", false);
    assert ToUpper(flag) == flag;
  }

  /** Reading back what a valid responder is written as: the same flag always, and the same
      window in Unix seconds when it is active, before or after 1970. */
  lemma ReadWritten(r: Responder)
    requires Valid(r)
    ensures var w := ResponderFrom(ResponderValue(r));
      && w.active == r.active
      && (r.active ==> w.start.sec == r.start.sec && w.end.sec == r.end.sec)
      && (!r.active ==> w.start == ZERO && w.end == ZERO)
  {
    if r.active && r.start != ZERO {
      WindowText(r.start.sec, r.end.sec);
      IntPlain(r.start.sec);
      IntPlain(r.end.sec);
      IntRoundTrip(r.start.sec);
      IntRoundTrip(r.end.sec);
    } else {
      ReadFlag(if r.active then "Y" else "N");
    }
  }

  /** The words that are written. */
  lemma WrittenWords(r: Responder)
    ensures ResponderValue(r) == "N" <==> !r.active
    ensures ResponderValue(r) == "Y" <==> r.active && r.start == Time(-62135596800, 0)
    ensures '|' in ResponderValue(r) <==> r.active && r.start != Time(-62135596800, 0)
  {
    if r.active && r.start != ZERO {
      assert ResponderValue(r)[|FormatInt(r.start.sec)|] == '|';
    }
  }

  /** A responder that is switched off is written as N, so its dates are lost: the window
      comes back in Unix seconds exactly when it is active or has no dates. */
  lemma WindowKept(r: Responder)
    requires Valid(r)
    ensures
      var w := ResponderFrom(ResponderValue(r));
      (w.start.sec == r.start.sec && w.end.sec == r.end.sec) <==>
        (r.active || (r.start.sec == ZERO.sec && r.end.sec == ZERO.sec))
  {
    ReadWritten(r);
  }

  /** Two valid active responders are written alike exactly when their windows agree in Unix seconds
      and both have a window or both have none. */
  lemma ValueInjective(r: Responder, q: Responder)
    requires Valid(r) && Valid(q) && r.active && q.active
    ensures ResponderValue(r) == ResponderValue(q) <==>
      (r.start == ZERO <==> q.start == ZERO) && r.start.sec == q.start.sec && r.end.sec == q.end.sec
  {
    ReadWritten(r);
    ReadWritten(q);
    if r.start != ZERO {
      WindowText(r.start.sec, r.end.sec);
    }
    if q.start != ZERO {
      WindowText(q.start.sec, q.end.sec);
    }
  }
}
