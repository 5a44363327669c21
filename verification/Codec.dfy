/** The text formats the protocol depends on: decimal series ids, the space separated key of
    the tree "needs dispatch", and the context a check carries on Patchwork. */
module Codec {
  import opened Basics

  // ---- decimal numbers ----

  function DigitChar(d: nat): (c: char)
    requires d < 10
  {
    '0' + d as char
  }

  predicate IsDigit(c: char) {
    '0' <= c <= '9'
  }

  /** `u64::to_string`. */
  function Decimal(n: nat): string {
    if n < 10 then [DigitChar(n)] else Decimal(n / 10) + [DigitChar(n % 10)]
  }

  function DigitsValue(s: string): nat
    requires forall c <- s :: IsDigit(c)
  {
    if s == [] then 0
    else
      var last := s[|s| - 1];
      assert IsDigit(last);
      10 * DigitsValue(s[..|s| - 1]) + (last as int - '0' as int)
  }

  /** `str::parse::<u64>`: an optional plus sign, at least one digit, nothing else, no overflow. */
  function ParseU64(s: string): Option<Id> {
    var digits := if |s| > 1 && s[0] == '+' then s[1..] else s;
    if digits != [] && (forall c <- digits :: IsDigit(c)) && DigitsValue(digits) < U64_LIMIT
    then Some(DigitsValue(digits))
    else None
  }

  lemma {:induction false} DecimalValue(n: nat)
    ensures Decimal(n) != []
    ensures forall c <- Decimal(n) :: IsDigit(c)
    ensures DigitsValue(Decimal(n)) == n
  {
    if n >= 10 {
      DecimalValue(n / 10);
      var s := Decimal(n);
      assert s[..|s| - 1] == Decimal(n / 10);
    }
  }

  /** No leading zero: each number has one printed form, and that form has no other value. */
  lemma {:induction false} DecimalIsCanonical(n: nat)
    ensures Decimal(n)[0] == '0' <==> n == 0
    ensures n < 10 ==> |Decimal(n)| == 1
  {
    if n >= 10 {
      DecimalValue(n / 10);
      DecimalIsCanonical(n / 10);
      assert Decimal(n)[0] == Decimal(n / 10)[0];
    }
  }

  /** What is read: a printed number below 2^64, also with a plus sign; not the empty text, a plus
      sign alone, a larger number, or anything with another character. */
  lemma ParseU64Cases(n: nat, s: string, i: nat)
    ensures ParseU64(Decimal(n)) == (if n < 18446744073709551616 then Some(n) else None)
    ensures ParseU64("+" + Decimal(n)) == (if n < 18446744073709551616 then Some(n) else None)
    ensures ParseU64("") == None && ParseU64("+") == None
    ensures i < |s| && !('0' <= s[i] <= '9') && !(i == 0 && s[i] == '+') ==> ParseU64(s) == None
  {
    DecimalValue(n);
    assert IsDigit(Decimal(n)[0]);
    var plus := "+" + Decimal(n);
    assert |plus| > 1 && plus[0] == '+' && plus[1..] == Decimal(n);
    if i < |s| && !IsDigit(s[i]) && !(i == 0 && s[i] == '+') {
      var digits := if |s| > 1 && s[0] == '+' then s[1..] else s;
      assert s[i] in digits by {
        assert digits == s || (i > 0 && digits[i - 1] == s[i]);
      }
    }
  }

  lemma DecimalRoundTrip(id: Id)
    ensures ParseU64(Decimal(id)) == Some(id)
    ensures SpaceFree(Decimal(id))
  {
    DecimalValue(id);
    assert IsDigit(Decimal(id)[0]);
  }

  // ---- splitting and joining at single spaces ----

  /** `str::split(" ")`: always at least one part, and as many parts as spaces plus one. */
  function Split(s: string): (parts: seq<string>)
    ensures |parts| >= 1
  {
    if s == [] then [""]
    else
      var rest := Split(s[1..]);
      if s[0] == ' ' then [""] + rest else [[s[0]] + rest[0]] + rest[1..]
  }

  /** `Vec<String>::join(" ")`. */
  function Join(parts: seq<string>): string {
    if |parts| == 0 then ""
    else if |parts| == 1 then parts[0]
    else parts[0] + " " + Join(parts[1..])
  }

  lemma {:induction false} JoinSplit(s: string)
    ensures Join(Split(s)) == s
  {
    if s != [] {
      JoinSplit(s[1..]);
      var rest := Split(s[1..]);
      if s[0] == ' ' {
        assert ([""] + rest)[1..] == rest;
      } else {
        var parts := Split(s);
        assert parts[1..] == rest[1..];
        assert s == [s[0]] + s[1..];
      }
    }
  }

  lemma {:induction false} SplitFirst(a: string, b: string)
    requires SpaceFree(a)
    ensures Split(a + " " + b) == [a] + Split(b)
  {
    if a == [] {
      assert (a + " " + b)[1..] == b;
    } else {
      assert (a + " " + b)[1..] == a[1..] + " " + b;
      SplitFirst(a[1..], b);
      assert a == [a[0]] + a[1..];
    }
  }

  lemma {:induction false} SplitHeadSpaceFree(s: string)
    ensures SpaceFree(Split(s)[0])
  {
    if s != [] {
      SplitHeadSpaceFree(s[1..]);
    }
  }

  /** The parts have no spaces; together with `JoinSplit` there is only one such splitting. */
  lemma {:induction false} SplitPartsSpaceFree(s: string)
    ensures forall part <- Split(s) :: SpaceFree(part)
  {
    if s != [] {
      SplitPartsSpaceFree(s[1..]);
      var rest := Split(s[1..]);
      assert SpaceFree(rest[0]);
    }
  }

  // ---- the key of a result waiting for dispatch ----

  datatype Parsed = Parsed(handle: Handle, series: Id, name: string)

  /** The key the completion watcher writes. */
  function FormatKey(handle: Handle, series: Id, name: string): string {
    handle + " " + Decimal(series) + " " + name
  }

  /** The reading of a key by the dispatcher; `None` stands for its two error returns. */
  function ParseKey(key: string): Option<Parsed> {
    var parts := Split(key);
    if |parts| < 2 then None
    else match ParseU64(parts[1])
      case None => None
      case Some(id) => Some(Parsed(parts[0], id, Join(parts[2..])))
  }

  /** A key is read back as what it was written for exactly when the handle has no space. */
  lemma KeyRoundTrip(handle: Handle, series: Id, name: string)
    ensures ParseKey(FormatKey(handle, series, name)) == Some(Parsed(handle, series, name))
            <==> SpaceFree(handle)
  {
    var key := FormatKey(handle, series, name);
    SplitHeadSpaceFree(key);
    if SpaceFree(handle) {
      DecimalRoundTrip(series);
      assert key == handle + " " + (Decimal(series) + " " + name);
      SplitFirst(handle, Decimal(series) + " " + name);
      SplitFirst(Decimal(series), name);
      assert Split(key)[2..] == Split(name);
      JoinSplit(name);
    }
  }

  /** The key has the handle, the printed id and the parts of the name as its parts, in this order. */
  lemma KeyParts(handle: Handle, series: Id, name: string)
    requires SpaceFree(handle)
    ensures Split(FormatKey(handle, series, name)) == [handle, Decimal(series)] + Split(name)
  {
    DecimalRoundTrip(series);
    assert FormatKey(handle, series, name) == handle + " " + (Decimal(series) + " " + name);
    SplitFirst(handle, Decimal(series) + " " + name);
    SplitFirst(Decimal(series), name);
  }

  /** A key is malformed exactly if it has no space or no id after the first. */
  lemma MalformedIff(key: string)
    ensures ParseKey(key) == None <==> SpaceFree(key) || (|Split(key)| > 1 && ParseU64(Split(key)[1]) == None)
  {
    OnePartIff(key);
  }

  lemma {:induction false} OnePartIff(s: string)
    ensures |Split(s)| == 1 <==> SpaceFree(s)
  {
    if s != [] {
      OnePartIff(s[1..]);
      assert s == [s[0]] + s[1..];
    }
  }

  lemma KeysNeverCollide(h1: Handle, s1: Id, n1: string, h2: Handle, s2: Id, n2: string)
    requires SpaceFree(h1) && SpaceFree(h2)
    ensures FormatKey(h1, s1, n1) == FormatKey(h2, s2, n2) <==> h1 == h2 && s1 == s2 && n1 == n2
  {
    KeyRoundTrip(h1, s1, n1);
    KeyRoundTrip(h2, s2, n2);
  }

  // ---- the context of a check ----

  predicate LegalChar(c: char) {
    'a' <= c <= 'z' || 'A' <= c <= 'Z' || '0' <= c <= '9' || c == '-' || c == '_'
  }

  function FixChar(c: char): char {
    if LegalChar(c) then c else '_'
  }

  /** What `serialize_context` sends. */
  function Sanitise(context: string): (fixed: string)
    ensures |fixed| == |context|
    ensures forall i :: 0 <= i < |context| ==> fixed[i] == FixChar(context[i])
  {
    seq(|context|, i requires 0 <= i < |context| => FixChar(context[i]))
  }

  /** Two contexts that the server cannot tell apart. */
  predicate SameOnServer(a: string, b: string) {
    |a| == |b| && forall i :: 0 <= i < |a| ==>
      a[i] == b[i] || ((a[i] == '_' || !LegalChar(a[i])) && (b[i] == '_' || !LegalChar(b[i])))
  }

  /** The characters that stay, by their codes: digits, capitals, small letters, minus, underscore;
      all others become an underscore. */
  lemma SanitiseByCode(context: string, i: nat)
    requires i < |context|
    ensures var n := context[i] as int;
            Sanitise(context)[i] ==
              if 48 <= n <= 57 || 65 <= n <= 90 || 97 <= n <= 122 || n == 45 || n == 95 then context[i] else '_'
  {
  }

  lemma SanitiseLegal(context: string)
    ensures forall c <- Sanitise(context) :: LegalChar(c)
    ensures Sanitise(Sanitise(context)) == Sanitise(context)
    ensures Sanitise(context) == context <==> forall c <- context :: LegalChar(c)
  {
    var fixed := Sanitise(context);
    assert forall i :: 0 <= i < |fixed| ==> LegalChar(fixed[i]);
    assert Sanitise(fixed) == fixed;
    if forall c <- context :: LegalChar(c) {
      assert forall i :: 0 <= i < |context| ==> LegalChar(context[i]);
      assert fixed == context;
    }
  }

  lemma SanitiseCollides(a: string, b: string)
    ensures Sanitise(a) == Sanitise(b) <==> SameOnServer(a, b)
  {
    var x, y := Sanitise(a), Sanitise(b);
    if SameOnServer(a, b) {
      assert forall i :: 0 <= i < |a| ==> x[i] == y[i];
    }
    if x == y {
      assert |a| == |b|;
      assert forall i :: 0 <= i < |a| ==> x[i] == FixChar(a[i]) && y[i] == FixChar(b[i]);
    }
  }

  /** `format!("{}-{}", handle, job_name)` as it arrives on the server. */
  function CheckContext(handle: Handle, name: string): string {
    Sanitise(handle + "-" + name)
  }
}
