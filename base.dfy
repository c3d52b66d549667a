/** Small string and container helpers shared by every module: Option/Result,
    joining and splitting on a separator, the JavaScript notion of white space
    (for String.prototype.trim and the regular-expression class \s), decimal
    text of numbers, and character replacement. */
module Base {

  datatype Option<+T> = None | Some(value: T)

  datatype Result<+T, +E> = Ok(value: T) | Err(error: E)

  /** `parts.join(sep)` */
  function Join(parts: seq<string>, sep: string): string
    decreases |parts|
  {
    if |parts| == 0 then ""
    else if |parts| == 1 then parts[0]
    else parts[0] + sep + Join(parts[1..], sep)
  }

  /** Concatenation of texts is associative. */
  lemma AppendAssoc(a: string, b: string, c: string)
    ensures a + b + c == a + (b + c)
  {
  }

  lemma {:induction false} JoinAppend(a: seq<string>, b: seq<string>, sep: string)
    requires |a| > 0 && |b| > 0
    ensures Join(a + b, sep) == Join(a, sep) + sep + Join(b, sep)
    decreases |a|
  {
    if |a| == 1 {
      assert (a + b)[1..] == b;
    } else {
      assert (a + b)[1..] == a[1..] + b;
      JoinAppend(a[1..], b, sep);
    }
  }

  /** White space and line terminators as ECMAScript defines them: the
      characters `trim` removes and the class `\s` matches. */
  predicate IsJsSpace(c: char)
  {
    c == '\t' || c == '\n' || c == '\U{000B}' || c == '\U{000C}' || c == '\r' || c == ' '
    || c == '\U{00A0}' || c == '\U{1680}' || ('\U{2000}' <= c <= '\U{200A}')
    || c == '\U{2028}' || c == '\U{2029}' || c == '\U{202F}' || c == '\U{205F}'
    || c == '\U{3000}' || c == '\U{FEFF}'
  }

  /** White space removed from the front (String.prototype.trimStart). */
  function TrimStart(s: string): (r: string)
    ensures |r| <= |s|
    decreases |s|
  {
    if |s| > 0 && IsJsSpace(s[0]) then TrimStart(s[1..]) else s
  }

  /** Trimming the front keeps a suffix that does not start with white
      space, and removes only white space. */
  lemma {:induction false} TrimStartDropsSpace(s: string)
    ensures TrimStart(s) == s[|s| - |TrimStart(s)|..]
    ensures TrimStart(s) == "" || !IsJsSpace(TrimStart(s)[0])
    ensures forall k :: 0 <= k < |s| - |TrimStart(s)| ==> IsJsSpace(s[k])
    decreases |s|
  {
    if |s| > 0 && IsJsSpace(s[0]) {
      TrimStartDropsSpace(s[1..]);
      forall k | 1 <= k < |s| - |TrimStart(s)| ensures IsJsSpace(s[k]) {
        assert s[k] == s[1..][k - 1];
      }
    }
  }

  /** White space removed from the end (String.prototype.trimEnd). */
  function TrimEnd(s: string): (r: string)
    ensures |r| <= |s|
    decreases |s|
  {
    if |s| > 0 && IsJsSpace(s[|s| - 1]) then TrimEnd(s[..|s| - 1]) else s
  }

  /** Trimming the end keeps a prefix that does not end with white space,
      and removes only white space. */
  lemma {:induction false} TrimEndDropsSpace(s: string)
    ensures TrimEnd(s) == s[..|TrimEnd(s)|]
    ensures TrimEnd(s) == "" || !IsJsSpace(TrimEnd(s)[|TrimEnd(s)| - 1])
    ensures forall k :: |TrimEnd(s)| <= k < |s| ==> IsJsSpace(s[k])
    decreases |s|
  {
    if |s| > 0 && IsJsSpace(s[|s| - 1]) {
      TrimEndDropsSpace(s[..|s| - 1]);
      forall k | |TrimEnd(s)| <= k < |s| - 1 ensures IsJsSpace(s[k]) {
        assert s[k] == s[..|s| - 1][k];
      }
    }
  }

  /** String.prototype.trim */
  function Trim(s: string): string
  {
    TrimEnd(TrimStart(s))
  }

  lemma TrimEndKeepsFront(s: string)
    requires s == "" || !IsJsSpace(s[0])
    ensures TrimEnd(s) == "" || !IsJsSpace(TrimEnd(s)[0])
  {
    var r := TrimEnd(s);
    TrimEndDropsSpace(s);
    if r != "" {
      assert r[0] == s[0];
    }
  }

  lemma TrimStartFixed(s: string)
    requires s == "" || !IsJsSpace(s[0])
    ensures TrimStart(s) == s
  {
  }

  lemma TrimEndFixed(s: string)
    requires s == "" || !IsJsSpace(s[|s| - 1])
    ensures TrimEnd(s) == s
  {
  }

  /** Trimming leaves no white space at either end. */
  lemma TrimEnds(s: string)
    ensures Trim(s) == "" || (!IsJsSpace(Trim(s)[0]) && !IsJsSpace(Trim(s)[|Trim(s)| - 1]))
  {
    TrimStartDropsSpace(s);
    TrimEndDropsSpace(TrimStart(s));
    TrimEndKeepsFront(TrimStart(s));
  }

  /** Trimming keeps a contiguous piece of the input. */
  lemma TrimContiguous(s: string)
    ensures var i := |s| - |TrimStart(s)|; i + |Trim(s)| <= |s| && s[i..i + |Trim(s)|] == Trim(s)
  {
    var a := TrimStart(s);
    var r := TrimEnd(a);
    var i := |s| - |a|;
    TrimStartDropsSpace(s);
    TrimEndDropsSpace(a);
    assert a == s[i..];
    assert r == a[..|r|];
    assert s[i..i + |r|] == s[i..][..|r|];
  }

  /** Trimming again changes nothing. */
  lemma TrimIdempotent(s: string)
    ensures Trim(Trim(s)) == Trim(s)
  {
    var r := Trim(s);
    TrimEnds(s);
    TrimStartFixed(r);
    TrimEndFixed(r);
  }

  predicate IsDigit(c: char)
  {
    '0' <= c <= '9'
  }

  predicate AllDigits(s: string)
  {
    forall k :: 0 <= k < |s| ==> IsDigit(s[k])
  }

  /** The characters of `s` that are decimal digits, in order (`s.replace(/[^0-9]/g, '')`). */
  function DigitsOnly(s: string): (r: string)
    ensures AllDigits(r) && |r| <= |s|
    ensures AllDigits(s) ==> r == s
    decreases |s|
  {
    if |s| == 0 then ""
    else if IsDigit(s[0]) then [s[0]] + DigitsOnly(s[1..])
    else DigitsOnly(s[1..])
  }

  /** Removing the non-digits works piece by piece: the digits of `a + b`
      are the digits of `a` followed by those of `b`. */
  lemma {:induction false} DigitsOnlyAppend(a: string, b: string)
    ensures DigitsOnly(a + b) == DigitsOnly(a) + DigitsOnly(b)
    decreases |a|
  {
    if |a| > 0 {
      assert (a + b)[0] == a[0] && (a + b)[1..] == a[1..] + b;
      DigitsOnlyAppend(a[1..], b);
      if IsDigit(a[0]) {
        AppendAssoc([a[0]], DigitsOnly(a[1..]), DigitsOnly(b));
      }
    } else {
      assert a + b == b;
    }
  }

  /** One character keeps itself exactly when it is a digit. */
  lemma DigitsOnlyChar(c: char)
    ensures DigitsOnly([c]) == if IsDigit(c) then [c] else []
  {
    assert [c][1..] == [];
  }

  /** `s.substring(0, n)` */
  function Prefix(s: string, n: nat): (r: string)
    ensures |r| == if |s| < n then |s| else n
    ensures r == s[..|r|]
  {
    if |s| <= n then s else s[..n]
  }

  function DigitValue(c: char): nat
    requires IsDigit(c)
  {
    (c as int - '0' as int) as nat
  }

  function DigitChar(d: nat): (c: char)
    requires d < 10
    ensures IsDigit(c) && DigitValue(c) == d
  {
    ('0' as int + d) as char
  }

  /** Decimal text of a natural number, as JavaScript writes it. */
  function NatText(n: nat): (r: string)
    ensures |r| >= 1 && AllDigits(r)
    ensures |r| > 1 ==> r[0] != '0'
    decreases n
  {
    if n < 10 then [DigitChar(n)] else NatText(n / 10) + [DigitChar(n % 10)]
  }

  /** The value of a string of decimal digits. */
  function DigitsValue(s: string): nat
    requires AllDigits(s)
    decreases |s|
  {
    if |s| == 0 then 0 else DigitsValue(s[..|s| - 1]) * 10 + DigitValue(s[|s| - 1])
  }

  lemma {:induction false} NatTextValue(n: nat)
    ensures DigitsValue(NatText(n)) == n
    decreases n
  {
    if n >= 10 {
      var t := NatText(n);
      assert t[..|t| - 1] == NatText(n / 10);
      NatTextValue(n / 10);
    }
  }

  /** NatText never writes more digits than the value needs: below 10^k it
      uses at most k characters. */
  lemma {:induction false} NatTextLength(n: nat, k: nat, bound: nat)
    requires bound == Pow10(k) && n < bound && k >= 1
    ensures |NatText(n)| <= k
    decreases k
  {
    assert Pow10(1) == 10;
    if n >= 10 {
      NatTextLength(n / 10, k - 1, Pow10(k - 1));
    }
  }

  function Pow10(k: nat): (p: nat)
    ensures p >= 1
  {
    if k == 0 then 1 else 10 * Pow10(k - 1)
  }

  /** Decimal text of an integer, with a leading '-' when it is negative. */
  function IntText(i: int): string
  {
    if i < 0 then "-" + NatText(-i) else NatText(i)
  }

  /** Every occurrence of `c` in `s` replaced by `rep` (`s.replace(/c/g, rep)`). */
  function ReplaceAll(s: string, c: char, rep: string): (r: string)
    ensures c !in s ==> r == s
    decreases |s|
  {
    if |s| == 0 then ""
    else (if s[0] == c then rep else [s[0]]) + ReplaceAll(s[1..], c, rep)
  }

  lemma {:induction false} ReplaceAllAppend(a: string, b: string, c: char, rep: string)
    ensures ReplaceAll(a + b, c, rep) == ReplaceAll(a, c, rep) + ReplaceAll(b, c, rep)
    decreases |a|
  {
    if |a| > 0 {
      var h := if a[0] == c then rep else [a[0]];
      assert (a + b)[0] == a[0] && (a + b)[1..] == a[1..] + b;
      ReplaceAllAppend(a[1..], b, c, rep);
      calc {
        ReplaceAll(a + b, c, rep);
        h + ReplaceAll(a[1..] + b, c, rep);
        h + (ReplaceAll(a[1..], c, rep) + ReplaceAll(b, c, rep));
        (h + ReplaceAll(a[1..], c, rep)) + ReplaceAll(b, c, rep);
      }
    } else {
      assert a + b == b;
    }
  }

  /** `s.split(c)` for a one-character separator: the pieces between the
      separators, so a string without `c` gives one piece. */
  function Split(s: string, c: char): (r: seq<string>)
    ensures |r| >= 1
    ensures forall k :: 0 <= k < |r| ==> c !in r[k]
    decreases |s|
  {
    if |s| == 0 then [""]
    else
      var rest := Split(s[1..], c);
      if s[0] == c then [""] + rest
      else [[s[0]] + rest[0]] + rest[1..]
  }

  /** Joining the pieces of a split with the same separator gives the input back. */
  lemma {:induction false} SplitJoin(s: string, c: char)
    ensures Join(Split(s, c), [c]) == s
    decreases |s|
  {
    if |s| > 0 {
      var rest := Split(s[1..], c);
      SplitJoin(s[1..], c);
      if s[0] == c {
        assert Split(s, c) == [""] + rest;
        assert ([""] + rest)[1..] == rest;
      } else {
        var r := Split(s, c);
        assert r == [[s[0]] + rest[0]] + rest[1..];
        if |rest| == 1 {
          assert r == [[s[0]] + rest[0]];
        } else {
          assert r[1..] == rest[1..];
          assert Join(rest, [c]) == rest[0] + [c] + Join(rest[1..], [c]);
        }
      }
    }
  }

  lemma {:induction false} SplitNoSeparator(s: string, c: char)
    requires c !in s
    ensures Split(s, c) == [s]
    decreases |s|
  {
    if |s| > 0 {
      assert c !in s[1..];
      SplitNoSeparator(s[1..], c);
      assert [s[0]] + s[1..] == s;
    }
  }

  /** `s.toLowerCase()` restricted to ASCII letters. */
  function AsciiLower(s: string): (r: string)
    ensures |r| == |s|
    ensures forall k :: 0 <= k < |s| ==> r[k] == if 'A' <= s[k] <= 'Z' then (s[k] as int + 32) as char else s[k]
  {
    seq(|s|, k requires 0 <= k < |s| => if 'A' <= s[k] <= 'Z' then (s[k] as int + 32) as char else s[k])
  }

  predicate StartsWith(s: string, p: string)
  {
    |p| <= |s| && s[..|p|] == p
  }

  /** Index of the first occurrence of `pat` in `s`, if any (`s.indexOf(pat)`). */
  function IndexOf(s: string, pat: string, from: nat := 0): (r: Option<nat>)
    requires from <= |s|
    ensures r.Some? ==> from <= r.value && r.value + |pat| <= |s| && s[r.value..r.value + |pat|] == pat
    ensures r.Some? ==> forall j :: from <= j < r.value ==> !StartsWith(s[j..], pat)
    ensures r.None? ==> forall j :: from <= j <= |s| ==> !StartsWith(s[j..], pat)
    decreases |s| - from
  {
    if StartsWith(s[from..], pat) then Some(from)
    else if from == |s| then None
    else IndexOf(s, pat, from + 1)
  }

  /** `s.replace(pat, rep)` with a string pattern: only the first occurrence changes. */
  function ReplaceFirst(s: string, pat: string, rep: string): string
  {
    match IndexOf(s, pat)
    case None => s
    case Some(i) => s[..i] + rep + s[i + |pat|..]
  }

  /** One step of Join on a suffix: the part at `i` is followed by the separator and the rest. */
  lemma JoinUnfold(parts: seq<string>, sep: string, i: nat)
    requires i + 1 < |parts|
    ensures Join(parts[i..], sep) == parts[i] + sep + Join(parts[i + 1..], sep)
  {
    assert parts[i..][1..] == parts[i + 1..];
  }

  /** Splitting at a separator that the text contains splits the two sides independently. */
  lemma {:induction false} SplitConcat(a: string, b: string, c: char)
    ensures Split(a + [c] + b, c) == Split(a, c) + Split(b, c)
    decreases |a|
  {
    if |a| == 0 {
      assert a + [c] + b == [c] + b;
      assert ([c] + b)[1..] == b;
    } else {
      assert (a + [c] + b)[0] == a[0];
      assert (a + [c] + b)[1..] == a[1..] + [c] + b;
      SplitConcat(a[1..], b, c);
    }
  }

  /** Joining pieces that do not contain the separator and splitting again
      gives the same pieces back. */
  lemma {:induction false} JoinSplit(parts: seq<string>, c: char)
    requires |parts| >= 1
    requires forall k :: 0 <= k < |parts| ==> c !in parts[k]
    ensures Split(Join(parts, [c]), c) == parts
    decreases |parts|
  {
    if |parts| == 1 {
      SplitNoSeparator(parts[0], c);
    } else {
      JoinSplit(parts[1..], c);
      SplitConcat(parts[0], Join(parts[1..], [c]), c);
      SplitNoSeparator(parts[0], c);
      assert parts == [parts[0]] + parts[1..];
    }
  }

  /** The longest prefix of `s` made of decimal digits. */
  function LeadingDigits(s: string): (r: string)
    ensures |r| <= |s| && r == s[..|r|] && AllDigits(r)
    ensures |r| == |s| || !IsDigit(s[|r|])
    decreases |s|
  {
    if |s| > 0 && IsDigit(s[0]) then [s[0]] + LeadingDigits(s[1..]) else ""
  }

  lemma {:induction false} LeadingDigitsOfDigits(d: string, rest: string)
    requires AllDigits(d) && (rest == "" || !IsDigit(rest[0]))
    ensures LeadingDigits(d + rest) == d
    decreases |d|
  {
    if |d| > 0 {
      assert (d + rest)[1..] == d[1..] + rest;
      LeadingDigitsOfDigits(d[1..], rest);
      assert [d[0]] + d[1..] == d;
    } else {
      assert d + rest == rest;
    }
  }

  /** The sign a JavaScript number parser accepts in front of the digits:
      whether it is '-', and the text after it. */
  function SignOf(t: string): (r: (bool, string))
    ensures |r.1| <= |t|
  {
    if |t| > 0 && t[0] == '-' then (true, t[1..])
    else if |t| > 0 && t[0] == '+' then (false, t[1..])
    else (false, t)
  }

  function Negate(neg: bool, x: int): int
  {
    if neg then -x else x
  }

  /** `parseInt(s)` in base 10: leading white space, an optional sign, then as
      many digits as there are; None stands for NaN. JavaScript's parseInt
      without a radix also reads a `0x`/`0X` prefix as hexadecimal; that is
      left out. The SKU quantity comes from a number input, whose value is
      empty or a decimal number, so it never starts with `0x`; a billing
      interval typed as `0x10` would read as 16 in the page and as 0 here. */
  function ParseInt(s: string): (r: Option<int>)
    ensures r.Some? <==> LeadingDigits(SignOf(TrimStart(s)).1) != ""
  {
    var p := SignOf(TrimStart(s));
    var d := LeadingDigits(p.1);
    if d == "" then None else Some(Negate(p.0, DigitsValue(d)))
  }

  /** parseInt of digits followed by a non-digit, with an optional '-' in front. */
  lemma ParseIntDigits(t: string, sgn: string, d: string, rest: string)
    requires sgn == "" || sgn == "-"
    requires d != "" && AllDigits(d) && (rest == "" || !IsDigit(rest[0]))
    requires t == sgn + (d + rest)
    ensures ParseInt(t) == Some(Negate(sgn == "-", DigitsValue(d)))
  {
    var u := d + rest;
    LeadingDigitsOfDigits(d, rest);
    assert u[0] == d[0];
    assert !IsJsSpace(t[0]);
    TrimStartFixed(t);
    if sgn == "-" {
      assert t[1..] == u;
      assert SignOf(t) == (true, u);
    } else {
      assert t == u;
      assert SignOf(t) == (false, u);
    }
  }

  /** parseInt reads back the text of every integer, whatever follows it that
      is not a digit. */
  lemma ParseIntText(i: int, rest: string)
    requires rest == "" || !IsDigit(rest[0])
    ensures ParseInt(IntText(i) + rest) == Some(i)
  {
    if i < 0 {
      var d := NatText(-i);
      NatTextValue(-i);
      ParseIntDigits("-" + d + rest, "-", d, rest);
      assert "-" + d + rest == "-" + (d + rest);
    } else {
      var d := NatText(i);
      NatTextValue(i);
      ParseIntDigits(d + rest, "", d, rest);
      assert "" + (d + rest) == d + rest;
    }
  }

  /** The value of digits read as a decimal fraction: "25" is 0.25. */
  function FractionValue(d: string): real
    requires AllDigits(d)
  {
    DigitsValue(d) as real / Pow10(|d|) as real
  }

  /** The optional exponent part of a decimal literal ("e-3"); 0 when absent. */
  function ExponentOf(t: string): int
  {
    if |t| >= 2 && (t[0] == 'e' || t[0] == 'E') then
      var p := SignOf(t[1..]);
      var d := LeadingDigits(p.1);
      if d == "" then 0 else Negate(p.0, DigitsValue(d))
    else 0
  }

  function Scale(x: real, e: int): real
  {
    if e >= 0 then x * Pow10(e) as real else x / Pow10(-e) as real
  }

  /** `parseFloat(s)` for decimal text: leading white space, an optional sign,
      digits with at most one '.', and an optional exponent; None stands for
      NaN (no digit before or after the point). */
  function ParseFloat(s: string): (r: Option<real>)
    ensures r.None? <==> (var t := SignOf(TrimStart(s)).1; var w := LeadingDigits(t);
                         w == "" && !(|t| > |w| && t[|w|] == '.' && LeadingDigits(t[|w| + 1..]) != ""))
  {
    var (neg, t) := SignOf(TrimStart(s));
    var whole := LeadingDigits(t);
    var afterWhole := t[|whole|..];
    var frac := if |afterWhole| > 0 && afterWhole[0] == '.' then LeadingDigits(afterWhole[1..]) else "";
    var afterNumber := if |afterWhole| > 0 && afterWhole[0] == '.' then afterWhole[1 + |frac|..] else afterWhole;
    if whole == "" && frac == "" then None
    else
      var magnitude := DigitsValue(whole) as real + FractionValue(frac);
      var x := Scale(magnitude, ExponentOf(afterNumber));
      Some(if neg then -x else x)
  }

  /** `parseFloat(s) || 0`: NaN (and zero) become 0. */
  function ParseFloatOrZero(s: string): real
  {
    match ParseFloat(s)
    case Some(x) => x
    case None => 0.0
  }

  /** parseFloat reads back the text of every natural number. */
  lemma ParseFloatNatText(n: nat)
    ensures ParseFloat(NatText(n)) == Some(n as real)
  {
    var t := NatText(n);
    assert !IsJsSpace(t[0]) && t[0] != '-' && t[0] != '+';
    TrimStartFixed(t);
    assert t + "" == t;
    LeadingDigitsOfDigits(t, "");
    NatTextValue(n);
    assert SignOf(t) == (false, t);
    assert t[|t|..] == "";
    assert ExponentOf("") == 0;
    assert Scale(n as real + FractionValue(""), 0) == n as real;
  }
}
