/** Text building blocks of the SQL statements: decimal rendering of a
    non-negative integer as a template literal prints it, JavaScript's
    `Array.prototype.join`, and a reader that recovers, from a statement text,
    the numbers of the positional parameters `$1`, `$2`, ... it mentions. */
module Text {
  import opened Sequences

  predicate IsDigit(c: char)
  {
    '0' <= c <= '9'
  }

  predicate AllDigits(s: string)
  {
    forall i :: 0 <= i < |s| ==> IsDigit(s[i])
  }

  function DigitChar(d: nat): (c: char)
    requires d < 10
    ensures IsDigit(c)
  {
    ('0' as int + d) as char
  }

  /** The value of a decimal digit (zero for any other character). */
  function DigitValue(c: char): (d: nat)
    ensures d < 10
  {
    if IsDigit(c) then c as int - '0' as int else 0
  }

  /** Shortest decimal notation of `n`: digits only, never empty, and no
      leading zero except for zero itself. */
  function Decimal(n: nat): (s: string)
    ensures |s| > 0 && AllDigits(s)
    ensures s[0] == '0' <==> n == 0
  {
    if n < 10 then [DigitChar(n)] else Decimal(n / 10) + [DigitChar(n % 10)]
  }

  /** The number a string of decimal digits denotes. */
  function DecimalValue(s: string): nat
  {
    if s == [] then 0 else 10 * DecimalValue(s[..|s| - 1]) + DigitValue(s[|s| - 1])
  }

  /** Reading back the decimal notation of `n` gives `n`. */
  lemma {:induction false} DecimalRoundTrip(n: nat)
    ensures DecimalValue(Decimal(n)) == n
  {
    var s := Decimal(n);
    if n >= 10 {
      DecimalRoundTrip(n / 10);
      assert s[..|s| - 1] == Decimal(n / 10);
    }
  }

  /** A positional parameter reference as written in the statement text. */
  function Placeholder(m: nat): string
  {
    "$" + Decimal(m)
  }

  /** The parts separated by `sep`; an empty list gives the empty string. */
  function Join(sep: string, parts: seq<string>): string
  {
    if |parts| == 0 then ""
    else if |parts| == 1 then parts[0]
    else parts[0] + sep + Join(sep, parts[1..])
  }

  /** The longest prefix of `s` made of digits. */
  function DigitRun(s: string): (d: string)
    ensures |d| <= |s|
  {
    if s != [] && IsDigit(s[0]) then [s[0]] + DigitRun(s[1..]) else []
  }

  /** The numbers of the positional parameters a statement text mentions, in
      order of appearance: every `$` followed by at least one digit. */
  function PlaceholderNumbers(s: string): seq<nat>
    decreases |s|
  {
    if s == [] then []
    else if s[0] == '$' && |s| > 1 && IsDigit(s[1]) then
      var d := DigitRun(s[1..]);
      [DecimalValue(d)] + PlaceholderNumbers(s[1 + |d|..])
    else PlaceholderNumbers(s[1..])
  }

  /** `s` neither starts with a digit nor ends with a dollar sign, so that
      gluing it to a neighbour can neither extend nor create a reference. */
  predicate Delimited(s: string)
  {
    s == [] || (!IsDigit(s[0]) && s[|s| - 1] != '$')
  }

  /** The run of digits of a string made of digits is the whole string. */
  lemma {:induction false} DigitRunAll(s: string)
    requires AllDigits(s)
    ensures DigitRun(s) == s
  {
    if s != [] {
      DigitRunAll(s[1..]);
    }
  }

  /** A run of digits stops where a non-digit follows. */
  lemma {:induction false} DigitRunAppend(a: string, b: string)
    requires b == [] || !IsDigit(b[0])
    ensures DigitRun(a + b) == DigitRun(a)
  {
    if a == [] {
      assert a + b == b;
    } else {
      assert (a + b)[1..] == a[1..] + b;
      DigitRunAppend(a[1..], b);
    }
  }

  /** Concatenation splits the references when the seam is not inside one. */
  lemma {:induction false} PlaceholderNumbersAppend(a: string, b: string)
    requires a == [] || a[|a| - 1] != '$'
    requires b == [] || !IsDigit(b[0])
    ensures PlaceholderNumbers(a + b) == PlaceholderNumbers(a) + PlaceholderNumbers(b)
    decreases |a|, 1
  {
    if a == [] {
      assert a + b == b;
    } else if a[0] == '$' && |a| > 1 && IsDigit(a[1]) {
      ReferenceAppend(a, b);
    } else {
      var s := a + b;
      assert s[1..] == a[1..] + b;
      assert s[0] == a[0];
      assert a[0] == '$' ==> |a| > 1 && s[1] == a[1];
      PlaceholderNumbersAppend(a[1..], b);
    }
  }

  /** The case of `PlaceholderNumbersAppend` where `a` starts with a reference. */
  lemma {:induction false} ReferenceAppend(a: string, b: string)
    requires |a| > 1 && a[0] == '$' && IsDigit(a[1])
    requires a[|a| - 1] != '$'
    requires b == [] || !IsDigit(b[0])
    ensures PlaceholderNumbers(a + b) == PlaceholderNumbers(a) + PlaceholderNumbers(b)
    decreases |a|, 0
  {
    var d, tail := ReferenceSplit(a, b);
    PlaceholderNumbersAppend(tail, b);
    var x, p, q := [DecimalValue(d)], PlaceholderNumbers(tail), PlaceholderNumbers(b);
    assert x + (p + q) == (x + p) + q;
  }

  /** The reference at the start of `a` is also the reference at the start
      of `a + b`, and what follows it in `a + b` is the rest of `a`, then `b`. */
  lemma ReferenceSplit(a: string, b: string) returns (d: string, tail: string)
    requires |a| > 1 && a[0] == '$' && IsDigit(a[1])
    requires a[|a| - 1] != '$'
    requires b == [] || !IsDigit(b[0])
    ensures |tail| < |a| && (tail == [] || tail[|tail| - 1] != '$')
    ensures PlaceholderNumbers(a) == [DecimalValue(d)] + PlaceholderNumbers(tail)
    ensures PlaceholderNumbers(a + b) == [DecimalValue(d)] + PlaceholderNumbers(tail + b)
  {
    var s := a + b;
    assert s[0] == '$' && |s| > 1 && s[1] == a[1];
    assert s[1..] == a[1..] + b;
    DigitRunAppend(a[1..], b);
    d := DigitRun(a[1..]);
    tail := a[1 + |d|..];
    assert s[1 + |d|..] == tail + b;
    assert tail == [] || tail[|tail| - 1] == a[|a| - 1];
  }

  /** A text without a dollar sign mentions no parameter. */
  lemma {:induction false} NoPlaceholders(s: string)
    requires '$' !in s
    ensures PlaceholderNumbers(s) == []
  {
    if s != [] {
      assert s[0] in s;
      assert forall c :: c in s[1..] ==> c in s;
      NoPlaceholders(s[1..]);
    }
  }

  /** `$m` is read back as the single reference `m`. */
  lemma PlaceholderReadBack(m: nat)
    ensures Delimited(Placeholder(m))
    ensures PlaceholderNumbers(Placeholder(m)) == [m]
  {
    var s, digits := Placeholder(m), Decimal(m);
    assert s[1..] == digits && IsDigit(s[1]);
    var d := DigitRun(digits);
    DigitRunAll(digits);
    DecimalRoundTrip(m);
    assert s[1 + |d|..] == [];
  }

  /** Joining delimited parts with a delimited separator that mentions no
      parameter yields exactly the parts' references, part after part. */
  lemma {:induction false} JoinPlaceholders(sep: string, parts: seq<string>)
    requires Clean(sep)
    requires forall i :: 0 <= i < |parts| ==> Delimited(parts[i])
    ensures Delimited(Join(sep, parts))
    ensures PlaceholderNumbers(Join(sep, parts))
         == Flat(seq(|parts|, i requires 0 <= i < |parts| => PlaceholderNumbers(parts[i])))
  {
    var refs := seq(|parts|, i requires 0 <= i < |parts| => PlaceholderNumbers(parts[i]));
    if |parts| == 1 {
      assert Flat(refs) == refs[0] + Flat(refs[1..]);
    } else if |parts| > 1 {
      var rest := Join(sep, parts[1..]);
      JoinPlaceholders(sep, parts[1..]);
      assert refs[1..] == seq(|parts[1..]|, i requires 0 <= i < |parts[1..]| => PlaceholderNumbers(parts[1..][i]));
      Between(parts[0], sep, rest);
    }
  }

  /** Gluing two delimited texts gives a delimited text whose references
      are those of the left part followed by those of the right part. */
  lemma Seam(a: string, b: string)
    requires Delimited(a) && Delimited(b)
    ensures Delimited(a + b)
    ensures PlaceholderNumbers(a + b) == PlaceholderNumbers(a) + PlaceholderNumbers(b)
  {
    PlaceholderNumbersAppend(a, b);
  }

  /** Fixed statement text: no dollar sign, and no leading digit that
      could extend a reference written just before it. */
  predicate Clean(s: string)
  {
    '$' !in s && (s == [] || !IsDigit(s[0]))
  }

  /** Clean text is delimited and mentions no parameter. */
  lemma CleanText(s: string)
    requires Clean(s)
    ensures Delimited(s) && PlaceholderNumbers(s) == []
  {
    NoPlaceholders(s);
    if s != [] {
      assert s[|s| - 1] in s;
    }
  }

  /** Clean text around a delimited middle adds no reference. */
  lemma Framed(pre: string, mid: string, post: string)
    requires Clean(pre) && Delimited(mid) && Clean(post)
    ensures Delimited(pre + mid + post)
    ensures PlaceholderNumbers(pre + mid + post) == PlaceholderNumbers(mid)
  {
    CleanText(pre);
    CleanText(post);
    Seam(pre, mid);
    Seam(pre + mid, post);
    assert [] + PlaceholderNumbers(mid) + [] == PlaceholderNumbers(mid);
  }

  /** Two delimited middles inside clean text: their references, in order. */
  lemma Framed2(pre: string, mid1: string, sep: string, mid2: string, post: string)
    requires Clean(pre) && Delimited(mid1) && Clean(sep) && Delimited(mid2) && Clean(post)
    ensures PlaceholderNumbers(pre + mid1 + sep + mid2 + post)
         == PlaceholderNumbers(mid1) + PlaceholderNumbers(mid2)
  {
    Between(mid1, sep, mid2);
    Framed(pre, mid1 + sep + mid2, post);
    Regroup(pre, mid1, sep, mid2, post);
  }

  lemma Regroup(a: string, b: string, c: string, d: string, e: string)
    ensures a + b + c + d + e == a + (b + c + d) + e
  {
  }

  /** Clean text between two delimited texts adds no reference. */
  lemma Between(left: string, sep: string, right: string)
    requires Delimited(left) && Clean(sep) && Delimited(right)
    ensures Delimited(left + sep + right)
    ensures PlaceholderNumbers(left + sep + right) == PlaceholderNumbers(left) + PlaceholderNumbers(right)
  {
    CleanText(sep);
    Seam(left, sep);
    Seam(left + sep, right);
    assert PlaceholderNumbers(left) + [] == PlaceholderNumbers(left);
  }

  /** Joining parts that lack a character with a separator that lacks it
      gives a text that lacks it. */
  lemma {:induction false} JoinAvoids(c: char, sep: string, parts: seq<string>)
    requires c !in sep
    requires forall i :: 0 <= i < |parts| ==> c !in parts[i]
    ensures c !in Join(sep, parts)
  {
    if |parts| > 1 {
      JoinAvoids(c, sep, parts[1..]);
    }
  }

  /** The joined text starts with the first part. */
  lemma {:induction false} JoinStartsWithFirst(sep: string, parts: seq<string>)
    requires |parts| > 0
    ensures parts[0] <= Join(sep, parts)
  {
  }
}
