/** Vocabulary shared by the components: optional values, remote-call
    outcomes, JavaScript truthiness, and the string operations the handlers
    use (`trim`, `split(c)[0]`, `split(c).pop()`, number-to-text in a
    template literal). */
module Common {

  /** `null` / `undefined` versus a present value. */
  datatype Option<T> = None | Some(value: T)

  /** The resolved outcome of a remote call: its data, or its error. */
  datatype Result<T, E> = Ok(value: T) | Err(error: E)

  /** A remote call whose error carries a message. */
  type Remote<T> = Result<T, string>

  /** The signed-in account as the auth context supplies it. */
  datatype User = User(id: string)

  /** A string value that JavaScript treats as true: present and not "". */
  predicate Truthy(o: Option<string>)
  {
    o.Some? && o.value != ""
  }

  /** `o || fallback` for an optional string. */
  function OrElse(o: Option<string>, fallback: string): (r: string)
    ensures Truthy(o) ==> r == o.value
    ensures r == fallback || (o == Some(r) && r != "")
  {
    if Truthy(o) then o.value else fallback
  }

  /** `n || 0` for an optional count (`0` is falsy and falls back to itself). */
  function CountOrZero(o: Option<int>): (r: int)
    ensures o.None? ==> r == 0
    ensures o.Some? ==> r == o.value
  {
    if o.Some? then o.value else 0
  }

  // ---------------------------------------------------------------------
  // String.prototype.trim

  /** The WhiteSpace and LineTerminator code points of ECMAScript
      (section 12.2 and 12.3 of ECMA-262), which `trim` removes. */
  predicate IsWhitespace(c: char)
  {
    c == '\t' || c == '\n' || c == '\U{000B}' || c == '\U{000C}' || c == '\r' ||
    c == ' ' || c == '\U{00A0}' || c == '\U{1680}' ||
    ('\U{2000}' <= c <= '\U{200A}') ||
    c == '\U{2028}' || c == '\U{2029}' || c == '\U{202F}' || c == '\U{205F}' ||
    c == '\U{3000}' || c == '\U{FEFF}'
  }

  /** The number of white-space characters `s` starts with. */
  function LeadingWhitespace(s: string): (k: nat)
    ensures k <= |s|
    ensures forall i :: 0 <= i < k ==> IsWhitespace(s[i])
    ensures k < |s| ==> !IsWhitespace(s[k])
  {
    if s != [] && IsWhitespace(s[0]) then 1 + LeadingWhitespace(s[1..]) else 0
  }

  /** Where the trailing white space of `s` starts (`|s|` when there is
      none). */
  function TextEnd(s: string): (j: nat)
    ensures j <= |s|
    ensures forall i :: j <= i < |s| ==> IsWhitespace(s[i])
    ensures j > 0 ==> !IsWhitespace(s[j - 1])
  {
    if s != [] && IsWhitespace(s[|s| - 1]) then TextEnd(s[..|s| - 1]) else |s|
  }

  /** The string is all white space (the empty string included). */
  predicate Blank(s: string)
  {
    s == [] || (IsWhitespace(s[0]) && Blank(s[1..]))
  }

  /** Blank means every character is white space. */
  lemma {:induction false} BlankMeansAllWhitespace(s: string)
    ensures Blank(s) <==> forall i :: 0 <= i < |s| ==> IsWhitespace(s[i])
  {
    if s != [] {
      BlankMeansAllWhitespace(s[1..]);
      assert forall i :: 1 <= i < |s| ==> s[1..][i - 1] == s[i];
    }
  }

  /** `s.trim()`: the part of `s` between its leading and its trailing
      white space. It neither starts nor ends with white space, and it is
      empty exactly when `s` is blank, so the source's `!s.trim()` is
      `Blank(s)`. */
  function Trim(s: string): (r: string)
    ensures r == [] || (!IsWhitespace(r[0]) && !IsWhitespace(r[|r| - 1]))
    ensures r == [] <==> Blank(s)
  {
    BlankMeansAllWhitespace(s);
    var k := LeadingWhitespace(s);
    var t := s[k..];
    var j := TextEnd(t);
    t[..j]
  }

  /** The trimmed text is the part of `s` left after cutting its leading
      and its trailing white space: everything before it and everything
      after it is white space. */
  lemma TrimIsSlice(s: string)
    ensures var k := LeadingWhitespace(s);
      && k + |Trim(s)| <= |s|
      && Trim(s) == s[k..k + |Trim(s)|]
      && (forall i :: 0 <= i < k ==> IsWhitespace(s[i]))
      && (forall i :: k + |Trim(s)| <= i < |s| ==> IsWhitespace(s[i]))
  {
    var k := LeadingWhitespace(s);
    var t := s[k..];
    var j := TextEnd(t);
    assert Trim(s) == t[..j];
    TailOfSuffix(s, k, j);
  }

  /** White space after position `j` of the suffix `s[k..]` is white space
      after position `k + j` of `s`. */
  lemma TailOfSuffix(s: string, k: nat, j: nat)
    requires k <= |s| && j <= |s| - k
    requires forall i :: j <= i < |s[k..]| ==> IsWhitespace(s[k..][i])
    ensures forall i :: k + j <= i < |s| ==> IsWhitespace(s[i])
  {
    assert forall i :: k + j <= i < |s| ==> s[i] == s[k..][i - k];
  }

  /** Trimming twice is trimming once, so a trimmed title is stored as is. */
  lemma TrimIdempotent(s: string)
    ensures Trim(Trim(s)) == Trim(s)
  {
    var r := Trim(s);
    assert LeadingWhitespace(r) == 0;
    assert r[0..] == r;
    assert TextEnd(r) == |r|;
  }

  // ---------------------------------------------------------------------
  // split

  /** `s.split(c)[0]`: the longest prefix of `s` without `c` (all of `s`
      when `c` does not occur). */
  function BeforeFirst(s: string, c: char): (r: string)
    ensures |r| <= |s| && r == s[..|r|]
    ensures c !in r
    ensures |r| < |s| ==> s[|r|] == c
  {
    if s == [] || s[0] == c then [] else [s[0]] + BeforeFirst(s[1..], c)
  }

  /** The text after the first `c`, and "" when `c` does not occur. */
  function AfterFirst(s: string, c: char): (r: string)
  {
    var k := |BeforeFirst(s, c)|;
    if k < |s| then s[k + 1..] else ""
  }

  /** `s.split(c).pop()`: the longest suffix of `s` without `c` (all of `s`
      when `c` does not occur). */
  function AfterLast(s: string, c: char): (r: string)
    ensures |r| <= |s| && r == s[|s| - |r|..]
    ensures c !in r
    ensures |r| < |s| ==> s[|s| - |r| - 1] == c
  {
    if s == [] || s[|s| - 1] == c then [] else AfterLast(s[..|s| - 1], c) + [s[|s| - 1]]
  }

  /** Splitting a joined string at the separator gives back both parts when
      the first part has no separator. */
  lemma SplitJoin(a: string, c: char, b: string)
    requires c !in a
    ensures BeforeFirst(a + [c] + b, c) == a
    ensures AfterFirst(a + [c] + b, c) == b
  {
    var s := a + [c] + b;
    var r := BeforeFirst(s, c);
    assert forall i :: 0 <= i < |a| ==> s[i] == a[i];
    assert s[|a|] == c;
    assert r == a;
  }

  /** Taking the part after the last separator of a joined string gives
      back the second part when it has no separator. */
  lemma {:induction false} AfterLastJoin(a: string, c: char, b: string)
    requires c !in b
    ensures AfterLast(a + [c] + b, c) == b
    decreases |b|
  {
    var s := a + [c] + b;
    if b != [] {
      var b' := b[..|b| - 1];
      assert s[..|s| - 1] == a + [c] + b';
      assert s[|s| - 1] == b[|b| - 1];
      AfterLastJoin(a, c, b');
      assert b == b' + [b[|b| - 1]];
    }
  }

  // ---------------------------------------------------------------------
  // Numbers in template literals

  predicate IsDigit(c: char)
  {
    '0' <= c <= '9'
  }

  /** The character of one decimal digit. */
  function DigitChar(d: nat): char
    requires d < 10
  {
    ('0' as int + d) as char
  }

  /** The digit a decimal character stands for. */
  function DigitValue(c: char): nat
    requires IsDigit(c)
  {
    c as int - '0' as int
  }

  /** A digit's character is a digit and reads back as that digit. (Kept
      out of `DigitChar`'s own contract: its arithmetic is costly wherever
      a key with a timestamp in it is built.) */
  lemma DigitCharValue(d: nat)
    requires d < 10
    ensures IsDigit(DigitChar(d)) && DigitValue(DigitChar(d)) == d
  {
  }

  /** The decimal text of a non-negative integer, as `${n}` writes it. */
  function NatToString(n: nat): string
    decreases n
  {
    if n < 10 then [DigitChar(n)] else NatToString(n / 10) + [DigitChar(n % 10)]
  }

  /** The decimal text is a non-empty string of digits. */
  lemma {:induction false} NatToStringDigits(n: nat)
    ensures NatToString(n) != []
    ensures forall i :: 0 <= i < |NatToString(n)| ==> IsDigit(NatToString(n)[i])
    decreases n
  {
    if n < 10 {
      DigitCharValue(n);
    } else {
      DigitCharValue(n % 10);
      NatToStringDigits(n / 10);
      var p := NatToString(n / 10);
      assert NatToString(n) == p + [DigitChar(n % 10)];
    }
  }

  /** The decimal text has no leading zero: it starts with `0` only for
      the number 0 itself. */
  lemma {:induction false} NatToStringCanonical(n: nat)
    ensures NatToString(n) != []
    ensures NatToString(n)[0] == '0' <==> n == 0
    decreases n
  {
    if n >= 10 {
      NatToStringCanonical(n / 10);
      assert NatToString(n) == NatToString(n / 10) + [DigitChar(n % 10)];
    }
  }

  /** The number a string of decimal digits denotes. */
  function DigitsValue(s: string): nat
    requires forall i :: 0 <= i < |s| ==> IsDigit(s[i])
  {
    if s == [] then 0
    else DigitsValue(s[..|s| - 1]) * 10 + DigitValue(s[|s| - 1])
  }

  /** Reading back the decimal text gives the number. */
  lemma {:induction false} DigitsRoundTrip(n: nat)
    ensures (forall i :: 0 <= i < |NatToString(n)| ==> IsDigit(NatToString(n)[i])) && DigitsValue(NatToString(n)) == n
    decreases n
  {
    NatToStringDigits(n);
    var s := NatToString(n);
    if n < 10 {
      DigitCharValue(n);
    } else {
      DigitCharValue(n % 10);
      var p := NatToString(n / 10);
      assert s == p + [DigitChar(n % 10)];
      assert s[..|s| - 1] == p;
      DigitsRoundTrip(n / 10);
    }
  }

  // ---------------------------------------------------------------------
  // Storage keys of the form `owner/number<sep>tail`

  /** An object key `owner + "/" + number + sep + tail`. */
  function OwnedKey(owner: string, number: nat, sep: char, tail: string): string
  {
    owner + "/" + NatToString(number) + [sep] + tail
  }

  /** Reads an owned key back into its owner, number and tail. */
  function ParseOwnedKey(key: string, sep: char): Option<(string, nat, string)>
  {
    var owner := BeforeFirst(key, '/');
    var rest := AfterFirst(key, '/');
    var digits := BeforeFirst(rest, sep);
    if |owner| < |key| && digits != [] && forall i :: 0 <= i < |digits| ==> IsDigit(digits[i])
    then Some((owner, DigitsValue(digits), AfterFirst(rest, sep)))
    else None
  }

  /** An owned key parses back to what built it, as long as the owner has
      no `/` and the separator is not a digit. */
  lemma OwnedKeyRoundTrip(owner: string, number: nat, sep: char, tail: string)
    requires '/' !in owner && !IsDigit(sep)
    ensures ParseOwnedKey(OwnedKey(owner, number, sep, tail), sep) == Some((owner, number, tail))
  {
    var digits := NatToString(number);
    var rest := digits + [sep] + tail;
    var key := OwnedKey(owner, number, sep, tail);
    NatToStringDigits(number);
    assert key == owner + ['/'] + rest;
    SplitJoin(owner, '/', rest);
    assert sep !in digits;
    SplitJoin(digits, sep, tail);
    DigitsRoundTrip(number);
  }

  /** Two owned keys are equal only when built from the same parts. */
  lemma OwnedKeyInjective(o1: string, n1: nat, t1: string, o2: string, n2: nat, t2: string, sep: char)
    requires '/' !in o1 && '/' !in o2 && !IsDigit(sep)
    requires OwnedKey(o1, n1, sep, t1) == OwnedKey(o2, n2, sep, t2)
    ensures o1 == o2 && n1 == n2 && t1 == t2
  {
    OwnedKeyRoundTrip(o1, n1, sep, t1);
    OwnedKeyRoundTrip(o2, n2, sep, t2);
  }
}
