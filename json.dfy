/** The JSON text that `JSON.stringify` writes, for the documents the payment
    flows embed in the hash string. An object is an ORDERED list of members,
    in the order JavaScript enumerates an object's own keys: the keys that
    are array indices ("0", "5", "17") first, in ascending numeric order,
    then every other key in insertion order. The digest is computed over the
    text, so the order is part of the value. */
module Json {
  import opened Base

  datatype Json =
    | JNull
    | JBool(b: bool)
    | JNum(n: real)
    | JStr(s: string)
    | JArr(items: seq<Json>)
    | JObj(members: seq<Member>)

  datatype Member = Member(key: string, value: Json)

  lemma KeysAppend(a: seq<Member>, b: seq<Member>)
    ensures Keys(a + b) == Keys(a) + Keys(b)
  {
  }

  /** A key JavaScript treats as an array index: "0", or decimal digits
      without a leading zero whose value is below 2^32 - 1. */
  predicate IsArrayIndex(k: string)
  {
    |k| > 0 && AllDigits(k) && (k[0] != '0' || |k| == 1) && DigitsValue(k) < 0xFFFF_FFFF
  }

  /** Key `a` is enumerated before key `b` whatever their insertion order:
      `a` is an array index and `b` is either no index or a larger one. */
  predicate EnumeratedBefore(a: string, b: string)
  {
    IsArrayIndex(a) && (!IsArrayIndex(b) || DigitsValue(a) < DigitsValue(b))
  }

  /** No key comes after a key it is always enumerated before. */
  predicate InEnumerationOrder(ks: seq<string>)
  {
    forall i, j :: 0 <= i < j < |ks| ==> !EnumeratedBefore(ks[j], ks[i])
  }

  /** Keys of an object's members, in order. */
  function Keys(ms: seq<Member>): (r: seq<string>)
    ensures |r| == |ms| && forall i :: 0 <= i < |ms| ==> r[i] == ms[i].key
  {
    seq(|ms|, i requires 0 <= i < |ms| => ms[i].key)
  }

  /** The value of the first member with key `k`. */
  function Lookup(ms: seq<Member>, k: string): (r: Option<Json>)
    ensures r.None? <==> k !in Keys(ms)
    decreases |ms|
  {
    if |ms| == 0 then None
    else if ms[0].key == k then Some(ms[0].value)
    else
      assert Keys(ms) == [ms[0].key] + Keys(ms[1..]);
      Lookup(ms[1..], k)
  }

  /** The member at `i` is the one found when no earlier member has its key. */
  lemma {:induction false} LookupIndex(ms: seq<Member>, i: nat)
    requires i < |ms| && forall j :: 0 <= j < i ==> ms[j].key != ms[i].key
    ensures Lookup(ms, ms[i].key) == Some(ms[i].value)
    decreases i
  {
    if i > 0 {
      var t := ms[1..];
      assert t[i - 1] == ms[i];
      forall j | 0 <= j < i - 1 ensures t[j].key != t[i - 1].key {
        assert t[j] == ms[j + 1];
      }
      LookupIndex(t, i - 1);
    }
  }

  /** The first member with a key is found whatever follows it. */
  lemma LookupAt(a: seq<Member>, m: Member, rest: seq<Member>)
    requires m.key !in Keys(a)
    ensures Lookup(a + [m] + rest, m.key) == Some(m.value)
  {
    assert a + [m] + rest == a + ([m] + rest);
    LookupAfter(a, [m] + rest, m.key);
  }

  /** A key absent from the leading members is looked up in the rest. */
  lemma {:induction false} LookupAfter(a: seq<Member>, b: seq<Member>, k: string)
    requires k !in Keys(a)
    ensures Lookup(a + b, k) == Lookup(b, k)
    decreases |a|
  {
    if |a| > 0 {
      assert a[0].key == Keys(a)[0];
      assert (a + b)[1..] == a[1..] + b;
      assert k !in Keys(a[1..]) by {
        forall i | 0 <= i < |a| - 1 ensures Keys(a[1..])[i] == Keys(a)[i + 1] {}
      }
      LookupAfter(a[1..], b, k);
    } else {
      assert a + b == b;
    }
  }

  /** The escape sequence JSON.stringify writes for one character of a string. */
  function EscapeChar(c: char): string
  {
    if c == '"' then "\\\""
    else if c == '\\' then "\\\\"
    else if c == '\U{0008}' then "\\b"
    else if c == '\U{000C}' then "\\f"
    else if c == '\n' then "\\n"
    else if c == '\r' then "\\r"
    else if c == '\t' then "\\t"
    else if c < ' ' then "\\u00" + [HexDigit(c as int / 16), HexDigit(c as int % 16)]
    else [c]
  }

  function HexDigit(d: nat): (c: char)
    requires d < 16
  {
    if d < 10 then ('0' as int + d) as char else ('a' as int + d - 10) as char
  }

  function HexValue(c: char): Option<nat>
  {
    if '0' <= c <= '9' then Some(c as int - '0' as int)
    else if 'a' <= c <= 'f' then Some(c as int - 'a' as int + 10)
    else if 'A' <= c <= 'F' then Some(c as int - 'A' as int + 10)
    else None
  }

  function EscapeBody(s: string): string
    decreases |s|
  {
    if |s| == 0 then "" else EscapeChar(s[0]) + EscapeBody(s[1..])
  }

  /** A string literal as JSON.stringify writes it. */
  function Quote(s: string): string
  {
    "\"" + EscapeBody(s) + "\""
  }

  /** Reads the rest of a JSON string literal whose opening quote has been
      consumed: the decoded characters and the text after the closing quote,
      or None when the literal is malformed. */
  function ReadString(t: string): Option<(string, string)>
    decreases |t|
  {
    if |t| == 0 then None
    else if t[0] == '"' then Some(("", t[1..]))
    else if t[0] == '\\' then
      if |t| < 2 then None
      else if t[1] == 'u' then
        if |t| < 6 then None
        else
          match (HexValue(t[2]), HexValue(t[3]), HexValue(t[4]), HexValue(t[5]))
          case (Some(a), Some(b), Some(c), Some(d)) =>
            var code := ((a * 16 + b) * 16 + c) * 16 + d;
            if 0xD800 <= code < 0xE000 then None
            else Cons(code as char, ReadString(t[6..]))
          case _ => None
      else
        var e := t[1];
        var c := if e == '"' then Some('"') else if e == '\\' then Some('\\') else if e == '/' then Some('/')
                 else if e == 'b' then Some('\U{0008}') else if e == 'f' then Some('\U{000C}')
                 else if e == 'n' then Some('\n') else if e == 'r' then Some('\r') else if e == 't' then Some('\t')
                 else None;
        if c.None? then None else Cons(c.value, ReadString(t[2..]))
    else if t[0] < ' ' then None
    else Cons(t[0], ReadString(t[1..]))
  }

  function Cons(c: char, r: Option<(string, string)>): Option<(string, string)>
  {
    match r
    case None => None
    case Some((d, rest)) => Some(([c] + d, rest))
  }

  lemma ReadEscapedChar(c: char, tail: string)
    ensures ReadString(EscapeChar(c) + tail) == Cons(c, ReadString(tail))
  {
    var e := EscapeChar(c);
    if c < ' ' && c != '\U{0008}' && c != '\U{000C}' && c != '\n' && c != '\r' && c != '\t' {
      var hi, lo := c as int / 16, c as int % 16;
      var t := e + tail;
      assert t[0] == '\\' && t[1] == 'u' && t[2] == '0' && t[3] == '0';
      assert t[4] == HexDigit(hi) && t[5] == HexDigit(lo);
      assert HexValue(HexDigit(hi)) == Some(hi);
      assert HexValue(HexDigit(lo)) == Some(lo);
      assert t[6..] == tail;
    } else if c == '"' || c == '\\' || c == '\U{0008}' || c == '\U{000C}' || c == '\n' || c == '\r' || c == '\t' {
      assert (e + tail)[2..] == tail;
    } else {
      assert (e + tail)[1..] == tail;
    }
  }

  /** Reading back a literal written by Quote gives the original string and
      stops right after the closing quote: the escaping loses nothing. */
  lemma {:induction false} QuoteRoundTrip(s: string, rest: string)
    ensures ReadString(Quote(s)[1..] + rest) == Some((s, rest))
    decreases |s|
  {
    DropOpeningQuote(EscapeBody(s));
    if |s| == 0 {
      assert EscapeBody(s) + "\"" + rest == "\"" + rest;
    } else {
      var e, b := EscapeChar(s[0]), EscapeBody(s[1..]);
      assert EscapeBody(s) == e + b;
      DropOpeningQuote(b);
      AppendAssoc(e, b, "\"");
      AppendAssoc(e, b + "\"", rest);
      ReadEscapedChar(s[0], Quote(s[1..])[1..] + rest);
      QuoteRoundTrip(s[1..], rest);
      assert [s[0]] + s[1..] == s;
    }
  }

  lemma DropOpeningQuote(b: string)
    ensures ("\"" + b + "\"")[1..] == b + "\""
  {
  }

  /** Decimal digits of a fraction 0 < f < 1, most significant first, as
      many as needed (at most `fuel` + 1). */
  function FractionDigits(f: real, fuel: nat): (r: string)
    requires 0.0 < f < 1.0
    ensures |r| >= 1 && AllDigits(r)
    decreases fuel
  {
    var t := f * 10.0;
    var d := t.Floor;
    assert 0 <= d < 10;
    var rest := t - d as real;
    [DigitChar(d)] + (if rest == 0.0 || fuel == 0 then "" else FractionDigits(rest, fuel - 1))
  }

  /** Text of a non-negative number: its integer part and, when it has one,
      its exact decimal fraction. */
  function UnsignedText(r: real): string
    requires r >= 0.0
  {
    var whole := r.Floor;
    var frac := r - whole as real;
    NatText(whole) + (if frac == 0.0 then "" else "." + FractionDigits(frac, 20))
  }

  /** Number text as JSON.stringify writes a finite number. */
  function NumberText(r: real): string
  {
    if r < 0.0 then "-" + UnsignedText(-r) else UnsignedText(r)
  }

  /** An integer is written with no fraction, exactly as IntText writes it. */
  lemma IntegerNumberText(i: int)
    ensures NumberText(i as real) == IntText(i)
  {
    if i < 0 {
      assert (-(i as real)).Floor == -i;
    } else {
      assert (i as real).Floor == i;
    }
  }

  function MemberText(m: Member): string
    decreases m, 0
  {
    Quote(m.key) + ":" + Serialize(m.value)
  }

  /** JSON.stringify(v) with no indentation. */
  function Serialize(v: Json): string
    decreases v, 1
  {
    match v
    case JNull => "null"
    case JBool(b) => if b then "true" else "false"
    case JNum(n) => NumberText(n)
    case JStr(s) => Quote(s)
    case JArr(items) =>
      "[" + Join(seq(|items|, i requires 0 <= i < |items| => Serialize(items[i])), ",") + "]"
    case JObj(ms) =>
      "{" + Join(seq(|ms|, i requires 0 <= i < |ms| => MemberText(ms[i])), ",") + "}"
  }

  /** The text of an object begins with its first key, so the key order of
      the value is the key order of the text. */
  lemma ObjectTextStart(ms: seq<Member>)
    requires |ms| > 0
    ensures StartsWith(Serialize(JObj(ms)), "{" + Quote(ms[0].key) + ":")
  {
    var parts := seq(|ms|, i requires 0 <= i < |ms| => MemberText(ms[i]));
    var p := "{" + Quote(ms[0].key) + ":";
    if |ms| == 1 {
      assert Serialize(JObj(ms)) == "{" + MemberText(ms[0]) + "}";
    } else {
      assert Join(parts, ",") == parts[0] + "," + Join(parts[1..], ",");
      assert Serialize(JObj(ms)) == "{" + MemberText(ms[0]) + "," + Join(parts[1..], ",") + "}";
    }
    assert Serialize(JObj(ms))[..|p|] == p;
  }

  /** The text of a two-member object. */
  lemma PairText(m1: Member, m2: Member)
    ensures Serialize(JObj([m1, m2])) == "{" + MemberText(m1) + "," + MemberText(m2) + "}"
  {
    var ms := [m1, m2];
    var parts := seq(|ms|, i requires 0 <= i < |ms| => MemberText(ms[i]));
    assert parts == [MemberText(m1), MemberText(m2)];
    assert parts[1..] == [MemberText(m2)];
    assert Join(parts, ",") == MemberText(m1) + "," + MemberText(m2);
  }

  /** Reading a literal written by Quote splits a text at its end. */
  lemma QuotedPrefixDetermines(a: string, ra: string, b: string, rb: string)
    requires Quote(a) + ra == Quote(b) + rb
    ensures a == b && ra == rb
  {
    assert (Quote(a) + ra)[1..] == Quote(a)[1..] + ra;
    assert (Quote(b) + rb)[1..] == Quote(b)[1..] + rb;
    QuoteRoundTrip(a, ra);
    QuoteRoundTrip(b, rb);
  }

  lemma CancelPrefix(p: string, x: string, y: string)
    requires p + x == p + y
    ensures x == y
  {
    assert x == (p + x)[|p|..];
    assert y == (p + y)[|p|..];
  }

  lemma StrMemberText(k: string, a: string)
    ensures MemberText(Member(k, JStr(a))) == Quote(k) + ":" + Quote(a)
  {
  }

  /** The text of an object of two string members, grouped so that each
      value's literal starts a suffix. */
  lemma StrPairText(k1: string, a: string, k2: string, b: string)
    ensures Serialize(JObj([Member(k1, JStr(a)), Member(k2, JStr(b))]))
         == ("{" + Quote(k1) + ":") + (Quote(a) + (("," + Quote(k2) + ":") + (Quote(b) + "}")))
  {
    PairText(Member(k1, JStr(a)), Member(k2, JStr(b)));
    StrMemberText(k1, a);
    StrMemberText(k2, b);
    Regroup(Quote(k1), Quote(a), Quote(k2), Quote(b));
  }

  lemma Regroup(k1: string, a: string, k2: string, b: string)
    ensures "{" + (k1 + ":" + a) + "," + (k2 + ":" + b) + "}"
         == ("{" + k1 + ":") + (a + (("," + k2 + ":") + (b + "}")))
  {
  }

  /** An object of two string members with fixed keys: its text determines
      both values. */
  lemma PairTextDetermines(k1: string, k2: string, a1: string, b1: string, a2: string, b2: string)
    requires Serialize(JObj([Member(k1, JStr(a1)), Member(k2, JStr(b1))]))
          == Serialize(JObj([Member(k1, JStr(a2)), Member(k2, JStr(b2))]))
    ensures a1 == a2 && b1 == b2
  {
    StrPairText(k1, a1, k2, b1);
    StrPairText(k1, a2, k2, b2);
    var p := "{" + Quote(k1) + ":";
    var q := "," + Quote(k2) + ":";
    var r1, r2 := q + (Quote(b1) + "}"), q + (Quote(b2) + "}");
    CancelPrefix(p, Quote(a1) + r1, Quote(a2) + r2);
    QuotedPrefixDetermines(a1, r1, a2, r2);
    CancelPrefix(q, Quote(b1) + "}", Quote(b2) + "}");
    QuotedPrefixDetermines(b1, "}", b2, "}");
  }
}
