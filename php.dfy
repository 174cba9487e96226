/**
 * The few PHP string primitives the observer relies on: loose truthiness,
 * the `\s` class of a PCRE pattern, `preg_replace('/\s+/', '', ...)`,
 * `trim`, `explode` and `serialize` of a list of strings.
 */
module Php {
  import opened Wrappers

  /** PHP's coercion of NULL to a string. */
  function AsString(v: Option<string>): string
  {
    match v
    case None => ""
    case Some(s) => s
  }

  /** PHP's loose truthiness of a string: only "" and "0" are falsy. */
  predicate Truthy(s: string)
  {
    s != "" && s != "0"
  }

  /** PHP's cast of a boolean to a string: true is "1", false is "". */
  function BoolText(b: bool): (s: string)
    ensures Truthy(s) == b
  {
    if b then "1" else ""
  }

  /** The characters `\s` matches in a PCRE pattern without the u modifier. */
  predicate IsSpace(c: char)
  {
    c == ' ' || c == '\t' || c == '\n' || c == '\U{000B}' || c == '\U{000C}' || c == '\r'
  }

  /**
   * `preg_replace('/\s+/', '', s)`: every run of whitespace, wherever it
   * stands, is replaced by nothing.
   */
  function StripWhitespace(s: string): (r: string)
    ensures |r| <= |s|
    ensures forall i :: 0 <= i < |r| ==> !IsSpace(r[i])
    ensures forall c :: !IsSpace(c) && c in s ==> c in r
  {
    if s == [] then []
    else (if IsSpace(s[0]) then [] else [s[0]]) + StripWhitespace(s[1..])
  }

  /** Stripping works piece by piece, so the kept characters stay in order. */
  lemma {:induction false} StripWhitespaceAppend(a: string, b: string)
    ensures StripWhitespace(a + b) == StripWhitespace(a) + StripWhitespace(b)
  {
    if a == [] {
      assert a + b == b;
    } else {
      var head := if IsSpace(a[0]) then [] else [a[0]];
      assert (a + b)[0] == a[0];
      assert (a + b)[1..] == a[1..] + b;
      calc {
        StripWhitespace(a + b);
        head + StripWhitespace(a[1..] + b);
        { StripWhitespaceAppend(a[1..], b); }
        head + (StripWhitespace(a[1..]) + StripWhitespace(b));
        (head + StripWhitespace(a[1..])) + StripWhitespace(b);
      }
    }
  }

  /** A string without whitespace is left as it is; in particular stripping is idempotent. */
  lemma {:induction false} StripWhitespaceKeeps(s: string)
    requires forall i :: 0 <= i < |s| ==> !IsSpace(s[i])
    ensures StripWhitespace(s) == s
  {
    if s != [] {
      StripWhitespaceKeeps(s[1..]);
    }
  }

  /** Stripping leaves nothing exactly when the string is all whitespace. */
  lemma {:induction false} StripWhitespaceEmpty(s: string)
    ensures StripWhitespace(s) == "" <==> forall i :: 0 <= i < |s| ==> IsSpace(s[i])
  {
    if s != [] {
      StripWhitespaceEmpty(s[1..]);
      assert forall i :: 1 <= i < |s| ==> s[i] == s[1..][i - 1];
    }
  }

  /** The characters `trim` removes by default: space, tab, LF, CR, NUL and vertical tab. */
  predicate IsTrimmed(c: char)
  {
    c == ' ' || c == '\t' || c == '\n' || c == '\r' || c == '\0' || c == '\U{000B}'
  }

  function TrimLeft(s: string): (r: string)
    ensures |r| <= |s| && r == s[|s| - |r|..]
    ensures r != [] ==> !IsTrimmed(r[0])
    ensures forall i :: 0 <= i < |s| - |r| ==> IsTrimmed(s[i])
  {
    if s != [] && IsTrimmed(s[0]) then TrimLeft(s[1..]) else s
  }

  function TrimRight(s: string): (r: string)
    ensures |r| <= |s| && r == s[..|r|]
    ensures r != [] ==> !IsTrimmed(r[|r| - 1])
    ensures forall i :: |r| <= i < |s| ==> IsTrimmed(s[i])
  {
    if s != [] && IsTrimmed(s[|s| - 1]) then TrimRight(s[..|s| - 1]) else s
  }

  /** PHP's `trim` with its default character list. */
  function Trim(s: string): (r: string)
    ensures r != [] ==> !IsTrimmed(r[0]) && !IsTrimmed(r[|r| - 1])
    ensures exists i: nat :: i + |r| <= |s| && Slice(s, i, |r|) == r && OnlyTrimmedOutside(s, i, |r|)
  {
    var l := TrimLeft(s);
    var r := TrimRight(l);
    var i := |s| - |l|;
    assert Slice(s, i, |r|) == r;
    assert forall k :: i + |r| <= k < |s| ==> s[k] == l[k - i];
    assert OnlyTrimmedOutside(s, i, |r|);
    r
  }

  /** Every character of `s` before position `i` or from `i + n` on is one `trim` removes. */
  predicate OnlyTrimmedOutside(s: string, i: nat, n: nat)
  {
    && (forall k :: 0 <= k < i && k < |s| ==> IsTrimmed(s[k]))
    && (forall k :: i + n <= k < |s| ==> IsTrimmed(s[k]))
  }

  /** The `n` characters of `s` starting at `i`. */
  function Slice(s: string, i: nat, n: nat): string
    requires i + n <= |s|
  {
    s[i..i + n]
  }

  /** `trim` gives "" exactly when every character is one it removes. */
  lemma TrimEmptyIff(s: string)
    ensures Trim(s) == "" <==> forall i :: 0 <= i < |s| ==> IsTrimmed(s[i])
  {
    var l := TrimLeft(s);
    if l != [] {
      assert !IsTrimmed(s[|s| - |l|]);
    }
  }

  /** PHP's `explode(d, s)`: the pieces between the occurrences of `d`. */
  function Explode(d: char, s: string): (parts: seq<string>)
    ensures |parts| >= 1
    ensures forall i :: 0 <= i < |parts| ==> d !in parts[i]
  {
    if s == [] then [""]
    else
      var rest := Explode(d, s[1..]);
      if s[0] == d then [""] + rest
      else [[s[0]] + rest[0]] + rest[1..]
  }

  /** PHP's `implode(d, parts)`. */
  function Implode(d: char, parts: seq<string>): string
    requires |parts| >= 1
  {
    if |parts| == 1 then parts[0] else parts[0] + [d] + Implode(d, parts[1..])
  }

  /** Splitting loses nothing: joining the pieces again gives the original string. */
  lemma {:induction false} ExplodeImplode(d: char, s: string)
    ensures Implode(d, Explode(d, s)) == s
  {
    if s != [] {
      var rest := Explode(d, s[1..]);
      ExplodeImplode(d, s[1..]);
      if s[0] == d {
        assert Explode(d, s) == [""] + rest;
        assert Explode(d, s)[1..] == rest;
        assert s == [s[0]] + s[1..];
      } else {
        var parts := [[s[0]] + rest[0]] + rest[1..];
        assert Explode(d, s) == parts;
        if |rest| == 1 {
          assert s == [s[0]] + s[1..];
        } else {
          assert parts[1..] == rest[1..];
          assert s == [s[0]] + s[1..];
        }
      }
    }
  }

  /** An ASCII digit: what `\d` matches without the u modifier, and what PHP prints for an integer. */
  predicate IsDigit(c: char)
  {
    '0' <= c <= '9'
  }

  predicate AllDigits(s: string)
  {
    forall k :: 0 <= k < |s| ==> IsDigit(s[k])
  }

  function DigitChar(d: nat): (c: char)
    requires d < 10
    ensures IsDigit(c) && c as int - '0' as int == d
  {
    ('0' as int + d) as char
  }

  /** The number a string of digits spells, most significant digit first. */
  function DecimalValue(s: string): nat
    requires AllDigits(s)
  {
    if s == [] then 0 else 10 * DecimalValue(s[..|s| - 1]) + (s[|s| - 1] as int - '0' as int)
  }

  /** The decimal form of a natural number, as PHP prints an integer: digits only, no leading zero. */
  function NatText(n: nat): (r: string)
    ensures |r| >= 1 && AllDigits(r)
    ensures r[0] == '0' <==> n == 0
  {
    if n < 10 then [DigitChar(n)] else NatText(n / 10) + [DigitChar(n % 10)]
  }

  /** The printed number reads back as itself. */
  lemma {:induction false} NatTextValue(n: nat)
    ensures DecimalValue(NatText(n)) == n
  {
    var r := NatText(n);
    if n >= 10 {
      NatTextValue(n / 10);
      assert r[..|r| - 1] == NatText(n / 10);
    }
  }

  /** The longest run of digits at the start of `s`: how PHP's `unserialize` reads a count. */
  function LeadingDigits(s: string): (d: string)
    ensures d <= s && AllDigits(d)
    ensures |d| < |s| ==> !IsDigit(s[|d|])
  {
    if s != [] && IsDigit(s[0]) then [s[0]] + LeadingDigits(s[1..]) else []
  }

  /** A run of digits followed by a non-digit is read back whole. */
  lemma {:induction false} LeadingDigitsOf(x: string, y: string)
    requires AllDigits(x) && y != [] && !IsDigit(y[0])
    ensures LeadingDigits(x + y) == x
  {
    if x != [] {
      assert (x + y)[1..] == x[1..] + y;
      LeadingDigitsOf(x[1..], y);
    }
  }

  /** The number written at the start of `s`, as a reader of the serialized text finds it. */
  function ReadNat(s: string): nat
  {
    DecimalValue(LeadingDigits(s))
  }

  /** A two-character tag, a number, then a non-digit: the number reads back from after the tag. */
  lemma TaggedNumber(tag: string, n: nat, tail: string)
    requires |tag| == 2 && tail != [] && !IsDigit(tail[0])
    ensures var r := tag + (NatText(n) + tail);
      |r| >= 2 && r[..2] == tag && ReadNat(r[2..]) == n
  {
    var r := tag + (NatText(n) + tail);
    assert r[2..] == NatText(n) + tail;
    LeadingDigitsOf(NatText(n), tail);
    NatTextValue(n);
  }

  /** PHP's `serialize` of a list of strings, counting one byte per character. */
  function Serialize(items: seq<string>): string
  {
    "a:" + (NatText(|items|) + (":{" + SerializeEntries(items, 0) + "}"))
  }

  /** The serialized text is an array (`a:`) whose element count reads back as the list length. */
  lemma SerializeCount(items: seq<string>)
    ensures var r := Serialize(items);
      |r| >= 2 && r[..2] == "a:" && r[|r| - 1] == '}' && ReadNat(r[2..]) == |items|
  {
    TaggedNumber("a:", |items|, ":{" + SerializeEntries(items, 0) + "}");
  }

  /** The entries of `serialize` from index `from` on: `i:<index>;s:<length>:"<text>";` each. */
  function SerializeEntries(items: seq<string>, from: nat): string
    decreases |items| - from
  {
    if from >= |items| then ""
    else
      "i:" + (NatText(from) + (";s:" + NatText(|items[from]|) + ":\"" + items[from] + "\";"
                                + SerializeEntries(items, from + 1)))
  }

  /** Each entry opens with its index (`i:`), which reads back as the item's position; none follow the last item. */
  lemma SerializeEntryIndex(items: seq<string>, from: nat)
    ensures var r := SerializeEntries(items, from);
      && (r == "" <==> from >= |items|)
      && (from < |items| ==> |r| >= 2 && r[..2] == "i:" && ReadNat(r[2..]) == from)
  {
    if from < |items| {
      TaggedNumber("i:", from, ";s:" + NatText(|items[from]|) + ":\"" + items[from] + "\";"
                                + SerializeEntries(items, from + 1));
    }
  }
}
