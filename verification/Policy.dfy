/**
 * The ratelimit-policy header, e.g. "50;w=30": extraction of its w= component.
 * Split, TrimSpace and Atoi are the Go library functions the parser calls.
 */
module Policy {
  import opened Clock
  import opened Optional

  // ---- library functions ----

  predicate IsSpace(c: char) {
    || c == ' ' || '\t' <= c <= '\r'
    || c as int == 0x85 || c as int == 0xA0 || c as int == 0x1680
    || 0x2000 <= c as int <= 0x200A || c as int == 0x2028 || c as int == 0x2029
    || c as int == 0x202F || c as int == 0x205F || c as int == 0x3000
  }

  /** Blank, the five control characters and the next line are spaces; no other ASCII character is. */
  lemma AsciiSpaces(c: char)
    ensures c as int < 128 ==> (IsSpace(c) <==> c in " \t\n\r" || c as int == 11 || c as int == 12)
    ensures c as int == 0x85 || c as int == 0xA0 || c as int == 0x3000 ==> IsSpace(c)
  {
  }

  predicate AllSpace(s: string) {
    forall i :: 0 <= i < |s| ==> IsSpace(s[i])
  }

  function TrimLeft(s: string): string {
    if s != "" && IsSpace(s[0]) then TrimLeft(s[1..]) else s
  }

  function TrimRight(s: string): string {
    if s != "" && IsSpace(s[|s| - 1]) then TrimRight(s[..|s| - 1]) else s
  }

  function TrimSpace(s: string): string {
    TrimRight(TrimLeft(s))
  }

  function Split(s: string): (parts: seq<string>)
    ensures |parts| >= 1
  {
    if s == "" then [""]
    else
      var rest := Split(s[1..]);
      if s[0] == ';' then [""] + rest else [[s[0]] + rest[0]] + rest[1..]
  }

  function Join(parts: seq<string>): string
    requires |parts| >= 1
  {
    if |parts| == 1 then parts[0] else parts[0] + ";" + Join(parts[1..])
  }

  predicate IsDigit(c: char) {
    '0' <= c <= '9'
  }

  predicate AllDigits(s: string) {
    forall i :: 0 <= i < |s| ==> IsDigit(s[i])
  }

  function Value(s: string): (n: int)
    requires AllDigits(s)
    ensures n >= 0
  {
    if s == "" then 0 else 10 * Value(s[..|s| - 1]) + (s[|s| - 1] as int - '0' as int)
  }

  /** Decimal digits after an optional sign, within 64 bits; anything else is an error. */
  function Atoi(s: string): Option<int> {
    var negative := s != "" && s[0] == '-';
    var digits := if s != "" && (s[0] == '-' || s[0] == '+') then s[1..] else s;
    if digits == "" || !AllDigits(digits) then None
    else
      var n := if negative then -Value(digits) else Value(digits);
      if -INT64_MAX - 1 <= n <= INT64_MAX then Some(n) else None
  }

  // ---- the parser ----

  predicate IsWindowPart(part: string) {
    "w=" <= TrimSpace(part)
  }

  /** The window length one part carries, or 0 when it carries none. */
  function PartWindow(part: string): (w: nat)
    ensures w > 0 ==> IsWindowPart(part)
    ensures w <= INT64_MAX
  {
    if !IsWindowPart(part) then 0
    else
      match Atoi(TrimSpace(TrimSpace(part)[2..]))
      case Some(n) => if n > 0 then n else 0
      case None => 0
  }

  function FirstWindow(parts: seq<string>): (w: nat)
    ensures w <= INT64_MAX
  {
    if parts == [] then 0
    else if PartWindow(parts[0]) > 0 then PartWindow(parts[0])
    else FirstWindow(parts[1..])
  }

  lemma {:induction false} FirstWindowSkips(before: seq<string>, rest: seq<string>)
    requires forall i :: 0 <= i < |before| ==> PartWindow(before[i]) == 0
    ensures FirstWindow(before + rest) == FirstWindow(rest)
  {
    if before == [] {
      assert before + rest == rest;
    } else {
      assert (before + rest)[1..] == before[1..] + rest;
      FirstWindowSkips(before[1..], rest);
    }
  }

  function PolicyWindowOf(policy: string): (w: nat)
    ensures w <= INT64_MAX
  {
    FirstWindow(Split(policy))
  }

  /** The source's loop: the first part with a usable w= wins. */
  method ParsePolicyWindow(policy: string) returns (w: nat)
    ensures w == PolicyWindowOf(policy)
    ensures w == 0 <==> forall i :: 0 <= i < |Split(policy)| ==> PartWindow(Split(policy)[i]) == 0
  {
    hide Split, Value, TrimSpace, Atoi;
    var parts := Split(policy);
    for k := 0 to |parts|
      invariant forall j :: 0 <= j < k ==> PartWindow(parts[j]) == 0
    {
      var part := TrimSpace(parts[k]);
      if "w=" <= part {
        var n := Atoi(TrimSpace(part[2..]));
        if n.Some? && n.value > 0 {
          assert PartWindow(Split(policy)[k]) == n.value;
          FirstWindowSkips(parts[..k], parts[k..]);
          assert parts[..k] + parts[k..] == parts;
          return n.value;
        }
      }
      assert PartWindow(parts[k]) == 0;
    }
    FirstWindowSkips(parts, []);
    assert parts + [] == parts;
    return 0;
  }

  // ---- printing, and the round trip ----

  function Decimal(n: nat): (s: string)
    ensures s != "" && AllDigits(s) && Value(s) == n
  {
    var d := ('0' as int + n % 10) as char;
    if n < 10 then
      [d]
    else
      var s := Decimal(n / 10) + [d];
      assert s[..|s| - 1] == Decimal(n / 10);
      s
  }

  lemma {:induction false} SplitJoin(parts: seq<string>)
    requires |parts| >= 1
    requires forall i :: 0 <= i < |parts| ==> ';' !in parts[i]
    ensures Split(Join(parts)) == parts
    decreases |parts|, if |parts| == 0 then 0 else |parts[0]|
  {
    var s := Join(parts);
    if parts[0] != "" {
      var shorter := parts[0 := parts[0][1..]];
      assert Join(shorter) == s[1..] by { assert shorter[1..] == parts[1..]; }
      SplitJoin(shorter);
      assert s[0] == parts[0][0];
      assert [s[0]] + shorter[0] == parts[0];
      assert [parts[0]] + shorter[1..] == parts;
    } else if |parts| > 1 {
      assert s[1..] == Join(parts[1..]);
      SplitJoin(parts[1..]);
      assert [""] + parts[1..] == parts;
    }
  }

  lemma {:induction false} TrimPadding(a: string, core: string, b: string)
    requires AllSpace(a) && AllSpace(b)
    requires core != "" && !IsSpace(core[0]) && !IsSpace(core[|core| - 1])
    ensures TrimSpace(a + core + b) == core
  {
    TrimLeftPadding(a, core + b);
    assert a + core + b == a + (core + b);
    TrimRightPadding(core, b);
  }

  lemma {:induction false} TrimLeftPadding(a: string, rest: string)
    requires AllSpace(a) && rest != "" && !IsSpace(rest[0])
    ensures TrimLeft(a + rest) == rest
  {
    if a == "" {
      assert a + rest == rest;
    } else {
      assert (a + rest)[1..] == a[1..] + rest;
      TrimLeftPadding(a[1..], rest);
    }
  }

  lemma {:induction false} TrimRightPadding(core: string, b: string)
    requires AllSpace(b) && core != "" && !IsSpace(core[|core| - 1])
    ensures TrimRight(core + b) == core
  {
    if b == "" {
      assert core + b == core;
    } else {
      var s := core + b;
      assert s[|s| - 1] == b[|b| - 1];
      assert s[..|s| - 1] == core + b[..|b| - 1];
      TrimRightPadding(core, b[..|b| - 1]);
    }
  }

  lemma AtoiDecimal(n: nat)
    requires n <= INT64_MAX
    ensures Atoi(Decimal(n)) == Some(n)
  {
    assert IsDigit(Decimal(n)[0]);
  }

  lemma WindowPartValue(part: string, digits: string, n: nat)
    requires "w=" <= TrimSpace(part) && TrimSpace(TrimSpace(part)[2..]) == digits
    requires Atoi(digits) == Some(n)
    ensures PartWindow(part) == n
  {
  }

  /** The trimmed text after "w=" is digits, with or without a plus sign, of a positive 64-bit value n. */
  predicate NamesWindow(part: string, digits: string, n: int) {
    && "w=" <= TrimSpace(part)
    && (TrimSpace(TrimSpace(part)[2..]) == digits || TrimSpace(TrimSpace(part)[2..]) == "+" + digits)
    && digits != "" && AllDigits(digits) && Value(digits) == n && 0 < n <= INT64_MAX
  }

  /** Nothing but a positive decimal is usable, and every one is. */
  lemma UsableExactlyWhenNamed(part: string, n: int)
    requires n > 0
    ensures PartWindow(part) == n <==> exists digits :: NamesWindow(part, digits, n)
  {
    if PartWindow(part) == n {
      var body := TrimSpace(TrimSpace(part)[2..]);
      assert NamesWindow(part, if body[0] == '+' then body[1..] else body, n);
    }
    if digits :| NamesWindow(part, digits, n) {
      assert IsDigit(digits[0]);
      assert ("+" + digits)[1..] == digits;
      hide TrimSpace;
    }
  }

  lemma PrintedCore(a: string, core: string, c: string, whole: string)
    requires AllSpace(a) && AllSpace(c) && whole == a + core + c
    requires |core| > 2 && core[0] == 'w' && IsDigit(core[|core| - 1])
    ensures TrimSpace(whole) == core
  {
    TrimPadding(a, core, c);
  }

  lemma PrintedDigits(b: string, digits: string, rest: string)
    requires AllSpace(b) && digits != "" && AllDigits(digits) && rest == b + digits
    ensures TrimSpace(rest) == digits
  {
    assert IsDigit(digits[0]) && IsDigit(digits[|digits| - 1]);
    TrimPadding(b, digits, "");
    assert b + digits + "" == b + digits;
  }

  /** A part "w=n", with any spaces around and after the "w=", carries n. */
  lemma {:induction false} PrintedPart(a: string, b: string, c: string, digits: string, n: nat)
    requires AllSpace(a) && AllSpace(b) && AllSpace(c)
    requires digits == Decimal(n) && n <= INT64_MAX
    ensures PartWindow(a + "w=" + b + digits + c) == n
  {
    AtoiDecimal(n);
    hide TrimSpace, Atoi, PartWindow, Value, AllSpace, Decimal, IsDigit;
    var core, part := "w=" + b + digits, a + "w=" + b + digits + c;
    Regroup(a, "w=", b, digits, c);
    assert digits != "" && AllDigits(digits);
    LastDigit(digits);
    PrintedCore(a, core, c, part);
    PrintedDigits(b, digits, core[2..]);
    WindowPartValue(part, digits, n);
  }

  lemma Regroup(a: string, w: string, b: string, d: string, c: string)
    ensures a + w + b + d + c == a + (w + b + d) + c
    ensures |w| == 2 ==> (w + b + d)[2..] == b + d
  {
  }

  lemma LastDigit(digits: string)
    requires digits != "" && AllDigits(digits)
    ensures IsDigit(digits[|digits| - 1])
  {
  }

  lemma PrintedPartHasNoSemicolon(a: string, b: string, c: string, digits: string)
    requires AllSpace(a) && AllSpace(b) && AllSpace(c) && AllDigits(digits)
    ensures ';' !in a + "w=" + b + digits + c
  {
    assert !IsSpace(';') && !IsDigit(';');
  }

  lemma SemicolonFree(before: seq<string>, part: string, after: seq<string>)
    requires forall i :: 0 <= i < |before| ==> ';' !in before[i]
    requires forall i :: 0 <= i < |after| ==> ';' !in after[i]
    requires ';' !in part
    ensures var parts := before + [part] + after; forall i :: 0 <= i < |parts| ==> ';' !in parts[i]
  {
    var parts := before + [part] + after;
    forall i | 0 <= i < |parts| ensures ';' !in parts[i] {
      if i < |before| {
        assert parts[i] == before[i];
      } else if i > |before| {
        assert parts[i] == after[i - |before| - 1];
      }
    }
  }

  lemma {:induction false} FirstUsablePartWins(before: seq<string>, part: string, after: seq<string>)
    requires forall i :: 0 <= i < |before| ==> ';' !in before[i] && PartWindow(before[i]) == 0
    requires forall i :: 0 <= i < |after| ==> ';' !in after[i]
    requires ';' !in part && PartWindow(part) > 0
    ensures PolicyWindowOf(Join(before + [part] + after)) == PartWindow(part)
  {
    hide PartWindow, FirstWindow, Join;
    var parts := before + [part] + after;
    assert Split(Join(parts)) == parts by {
      SemicolonFree(before, part, after);
      SplitJoin(parts);
    }
    FirstWindowAt(before, part, after);
  }

  lemma FirstWindowAt(before: seq<string>, part: string, after: seq<string>)
    requires forall i :: 0 <= i < |before| ==> PartWindow(before[i]) == 0
    requires PartWindow(part) > 0
    ensures FirstWindow(before + [part] + after) == PartWindow(part)
  {
    hide PartWindow;
    assert before + [part] + after == before + ([part] + after);
    FirstWindowSkips(before, [part] + after);
  }

  /**
   * Round trip: a policy made of parts without semicolons, of which the first
   * that begins with "w=" is a printed n, parses to n, whatever the spacing
   * and whatever follows.
   */
  lemma {:induction false} PolicyRoundTrip(before: seq<string>, a: string, b: string, c: string, n: nat,
      after: seq<string>)
    requires forall i :: 0 <= i < |before| ==> ';' !in before[i] && !IsWindowPart(before[i])
    requires forall i :: 0 <= i < |after| ==> ';' !in after[i]
    requires AllSpace(a) && AllSpace(b) && AllSpace(c) && 0 < n <= INT64_MAX
    ensures PolicyWindowOf(Join(before + [a + "w=" + b + Decimal(n) + c] + after)) == n
  {
    var digits := Decimal(n);
    PrintedPartHasNoSemicolon(a, b, c, digits);
    PrintedPart(a, b, c, digits, n);
    FirstUsablePartWins(before, a + "w=" + b + digits + c, after);
  }

  lemma DigitsAreNoWindowPart(digits: string)
    requires digits != "" && AllDigits(digits)
    ensures !IsWindowPart(digits) && ';' !in digits
  {
    assert IsDigit(digits[0]) && IsDigit(digits[|digits| - 1]);
    TrimPadding("", digits, "");
    assert "" + digits + "" == digits;
  }

  /** The form upstream sends: limit, semicolon, "w=", window. */
  lemma PlainPolicyRoundTrip(limit: nat, n: nat)
    requires 0 < n <= INT64_MAX
    ensures PolicyWindowOf(Decimal(limit) + ";w=" + Decimal(n)) == n
  {
    PlainPolicy(Decimal(limit), Decimal(n), n);
  }

  lemma PlainPolicy(first: string, last: string, n: nat)
    requires first != "" && AllDigits(first) && last == Decimal(n) && 0 < n <= INT64_MAX
    ensures PolicyWindowOf(first + ";w=" + last) == n
  {
    hide PartWindow, FirstWindow, Split, Join, TrimSpace, Atoi, Decimal, Value, IsWindowPart;
    PlainPart(last, n);
    DigitsAreNoWindowPart(first);
    FirstUsablePartWins([first], "w=" + last, []);
    TwoParts(first, "w=" + last);
    JoinTwo(first, "w=" + last);
    Punctuate(first, last);
  }

  lemma PlainPart(last: string, n: nat)
    requires last == Decimal(n) && 0 < n <= INT64_MAX
    ensures ';' !in "w=" + last && PartWindow("w=" + last) == n
  {
    NoPadding("", last);
    PrintedPartHasNoSemicolon("", "", "", last);
    PrintedPart("", "", "", last, n);
  }

  lemma NoPadding(none: string, last: string)
    requires none == ""
    ensures none + "w=" + none + last + none == "w=" + last
  {
  }

  lemma TwoParts(a: string, b: string)
    ensures [a] + [b] + [] == [a, b]
  {
  }

  lemma Punctuate(a: string, b: string)
    ensures a + ";" + ("w=" + b) == a + ";w=" + b
  {
  }

  lemma JoinTwo(a: string, b: string)
    ensures Join([a, b]) == a + ";" + b
  {
    assert [a, b][1..] == [b];
  }
}
