/** The JavaScript string operations the scanner views rely on: `trim`, the tag-stripping
    `replace(/<[^>]*>/g, '')`, `includes`, ASCII `toLowerCase`, and number-to-string. */
module JsText {
  import opened Wrappers

  /** A JavaScript value handed to the sanitiser: the decode engine normally passes a string. */
  datatype JsValue = JsString(s: string) | NonString

  // ---------------------------------------------------------------------------
  // Whitespace and trim

  /** The code points `String.prototype.trim` removes: ECMAScript WhiteSpace and LineTerminator. */
  predicate IsJsWhitespace(c: char) {
    c == '\t' || c == '\U{000B}' || c == '\U{000C}' || c == ' ' || c == '\U{00A0}' || c == '\U{FEFF}'
    || c == '\n' || c == '\r' || c == '\U{2028}' || c == '\U{2029}'
    || c == '\U{1680}' || ('\U{2000}' <= c <= '\U{200A}') || c == '\U{202F}' || c == '\U{205F}' || c == '\U{3000}'
  }

  /** Drops leading whitespace: the result is the suffix of `s` that starts at its first non-blank. */
  function TrimStart(s: string): (r: string)
    ensures |r| <= |s| && r == s[|s| - |r|..]
    ensures forall k {:trigger IsJsWhitespace(s[k])} :: 0 <= k < |s| - |r| ==> IsJsWhitespace(s[k])
    ensures r == [] || !IsJsWhitespace(r[0])
    decreases |s|
  {
    if s != [] && IsJsWhitespace(s[0]) then TrimStart(s[1..]) else s
  }

  /** Drops trailing whitespace: the result is the prefix of `s` that ends at its last non-blank. */
  function TrimEnd(s: string): (r: string)
    ensures |r| <= |s| && r == s[..|r|]
    ensures forall k {:trigger IsJsWhitespace(s[k])} :: |r| <= k < |s| ==> IsJsWhitespace(s[k])
    ensures r == [] || !IsJsWhitespace(r[|r| - 1])
    decreases |s|
  {
    if s != [] && IsJsWhitespace(s[|s| - 1]) then TrimEnd(s[..|s| - 1]) else s
  }

  /** `String.prototype.trim`: the slice of `s` between its leading and its trailing
      whitespace, so that it neither starts nor ends with whitespace. */
  function Trim(s: string): (r: string)
    ensures |r| <= |s|
    ensures r == [] || (!IsJsWhitespace(r[0]) && !IsJsWhitespace(r[|r| - 1]))
  {
    var t := TrimStart(s);
    var r := TrimEnd(t);
    assert r == [] || r[0] == t[0];
    r
  }

  /** The trimmed text is the slice of `s` that starts after the leading whitespace
      `TrimStart` drops and ends before the trailing whitespace `TrimEnd` drops (so it holds
      no character that is not in `s`, in the same order). */
  lemma {:induction false} TrimIsSlice(s: string)
    ensures var i := |s| - |TrimStart(s)|;
      var r := Trim(s);
      i + |r| <= |s| && r == s[i..i + |r|]
  {
    var t := TrimStart(s);
    var i := |s| - |t|;
    var r := TrimEnd(t);
    PrefixOfSuffix(s, t, r, i);
  }

  /** A prefix of the suffix from `i` is the slice from `i`. */
  lemma PrefixOfSuffix(s: string, t: string, r: string, i: nat)
    requires i <= |s| && t == s[i..] && |r| <= |t| && r == t[..|r|]
    ensures i + |r| <= |s| && r == s[i..i + |r|]
  {
  }

  /** A string that has nothing to trim is left as it is. */
  lemma {:induction false} TrimIdentity(s: string)
    requires s == [] || (!IsJsWhitespace(s[0]) && !IsJsWhitespace(s[|s| - 1]))
    ensures Trim(s) == s
  {
    assert TrimStart(s) == s;
    assert TrimEnd(s) == s;
  }

  /** Trimming twice is trimming once. */
  lemma TrimIdempotent(s: string)
    ensures Trim(Trim(s)) == Trim(s)
  {
    TrimIdentity(Trim(s));
  }

  // ---------------------------------------------------------------------------
  // Tag stripping

  /** The first position of `c` in `s`, if any (JavaScript `indexOf`). */
  function IndexOf(s: string, c: char): (r: Option<nat>)
    ensures r.Some? ==> r.value < |s| && s[r.value] == c && forall k :: 0 <= k < r.value ==> s[k] != c
    ensures r.None? ==> forall k :: 0 <= k < |s| ==> s[k] != c
    decreases |s|
  {
    if s == [] then None
    else if s[0] == c then Some(0)
    else match IndexOf(s[1..], c)
      case None => None
      case Some(k) => Some(k + 1)
  }

  /** No `<` is followed, anywhere later, by a `>`: the text holds no tag, complete or split. */
  predicate NoTag(s: string) {
    forall i, j :: 0 <= i < j < |s| && s[i] == '<' ==> s[j] != '>'
  }

  /** Every contiguous slice of a tag-free string is tag-free. */
  lemma NoTagSlice(s: string, i: nat, j: nat)
    requires NoTag(s) && i <= j <= |s|
    ensures NoTag(s[i..j])
  {
    var t := s[i..j];
    forall a, b | 0 <= a < b < |t| && t[a] == '<' ensures t[b] != '>' {
      assert t[a] == s[i + a] && t[b] == s[i + b];
    }
  }

  /** `text.replace(/<[^>]*>/g, '')`: scanning left to right, every `<` that has a `>` after it
      is deleted together with everything up to and including the first such `>`; once a `<`
      has no `>` after it no further match is possible and the rest is kept. */
  function StripTags(s: string): (r: string)
    ensures |r| <= |s|
    ensures NoTag(r)
    decreases |s|
  {
    if s == [] then []
    else if s[0] == '<' then
      match IndexOf(s[1..], '>')
      case Some(k) => StripTags(s[k + 2..])
      case None =>
        assert forall j :: 0 < j < |s| ==> s[j] == s[1..][j - 1];
        s
    else
      var rest := StripTags(s[1..]);
      var r := [s[0]] + rest;
      assert forall j :: 0 < j < |r| ==> r[j] == rest[j - 1];
      r
  }

  /** Text without a tag passes through the stripper unchanged. */
  lemma {:induction false} StripTagsIdentity(s: string)
    requires NoTag(s)
    ensures StripTags(s) == s
    decreases |s|
  {
    if s != [] {
      if s[0] == '<' {
        assert IndexOf(s[1..], '>').None?;
      } else {
        NoTagSlice(s, 1, |s|);
        StripTagsIdentity(s[1..]);
      }
    }
  }

  /** One tag is removed: a `<`, then text without `>`, then `>`, preceded by text without `<`. */
  lemma {:induction false} StripTagsRemovesTag(a: string, t: string, b: string)
    requires forall k :: 0 <= k < |a| ==> a[k] != '<'
    requires forall k :: 0 <= k < |t| ==> t[k] != '>'
    ensures StripTags(a + ['<'] + t + ['>'] + b) == a + StripTags(b)
    decreases |a|
  {
    var s := a + ['<'] + t + ['>'] + b;
    if a == [] {
      assert s == ['<'] + t + ['>'] + b;
      assert s[1..] == t + ['>'] + b;
      var k := IndexOf(s[1..], '>');
      assert s[1..][|t|] == '>';
      assert k.Some? && k.value == |t|;
      assert s[|t| + 2..] == b;
    } else {
      assert s[0] == a[0];
      assert s[1..] == a[1..] + ['<'] + t + ['>'] + b;
      StripTagsRemovesTag(a[1..], t, b);
      assert a == [a[0]] + a[1..];
    }
  }

  /** The widget's `sanitizeScannedText`: `''` for a non-string, otherwise tags stripped and
      the result trimmed; no tag survives. */
  function Sanitize(v: JsValue): (r: string)
    ensures v.NonString? ==> r == []
    ensures v.JsString? ==> r == Trim(StripTags(v.s))
    ensures NoTag(r)
  {
    match v
    case NonString => []
    case JsString(s) =>
      var stripped := StripTags(s);
      var r := Trim(stripped);
      TrimIsSlice(stripped);
      NoTagSlice(stripped, |stripped| - |TrimStart(stripped)|, |stripped| - |TrimStart(stripped)| + |r|);
      r
  }

  /** Sanitising already sanitised text changes nothing. */
  lemma SanitizeIdempotent(v: JsValue)
    ensures Sanitize(JsString(Sanitize(v))) == Sanitize(v)
  {
    var r := Sanitize(v);
    StripTagsIdentity(r);
    TrimIdentity(r);
  }

  /** The tag-stripping half of the documented example. */
  lemma StripTagsBoldExample(s: string)
    requires s == "<b>12345</b>"
    ensures StripTags(s) == "12345"
  {
    var tail := s[3..];
    StripTagsClosingTag(tail);
    StripTagsRemovesTag([], "b", tail);
    assert [] + ['<'] + "b" + ['>'] + tail == s;
  }

  lemma StripTagsClosingTag(s: string)
    requires s == "12345</b>"
    ensures StripTags(s) == "12345"
  {
    StripTagsRemovesTag("12345", "/b", []);
    assert "12345" + ['<'] + "/b" + ['>'] + [] == s;
  }

  /** The documented example: `"<b>12345</b>"` becomes `"12345"`. */
  lemma SanitizeBoldExample(s: string)
    requires s == "<b>12345</b>"
    ensures Sanitize(JsString(s)) == "12345"
  {
    StripTagsBoldExample(s);
    TrimIdentity("12345");
  }

  // ---------------------------------------------------------------------------
  // includes, toLowerCase, number formatting

  /** `s.includes(p)`: `p` occurs in `s` as a contiguous slice. */
  predicate Contains(s: string, p: string)
    decreases |s|
  {
    p <= s || (s != [] && Contains(s[1..], p))
  }

  /** `Contains` holds exactly when `p` sits at some offset of `s`. */
  lemma {:induction false} ContainsAt(s: string, p: string, i: nat)
    requires i + |p| <= |s| && s[i..i + |p|] == p
    ensures Contains(s, p)
    decreases i
  {
    if i > 0 {
      assert s[1..][i - 1..i - 1 + |p|] == p;
      ContainsAt(s[1..], p, i - 1);
    }
  }

  /** A string that contains `p` has it at some offset. */
  lemma {:induction false} ContainsWitness(s: string, p: string) returns (i: nat)
    requires Contains(s, p)
    ensures i + |p| <= |s| && s[i..i + |p|] == p
    decreases |s|
  {
    if p <= s {
      i := 0;
    } else {
      var j := ContainsWitness(s[1..], p);
      i := j + 1;
      assert s[i..i + |p|] == s[1..][j..j + |p|];
    }
  }

  /** A needle holding a character the text lacks does not occur in it. */
  lemma {:induction false} AbsentChar(s: string, p: string, c: char)
    requires c in p && c !in s
    ensures !Contains(s, p)
    decreases |s|
  {
    if s != [] {
      AbsentChar(s[1..], p, c);
    }
  }

  predicate IsAsciiUpper(c: char) { 'A' <= c <= 'Z' }

  /** ASCII `toLowerCase`: a capital becomes the letter 32 code points above it. */
  function LowerChar(c: char): char {
    if IsAsciiUpper(c) then (c as int + 32) as char else c
  }

  /** `toLowerCase` on ASCII text: same length, no capital left, every other character kept,
      every capital replaced by its small letter. */
  function ToLower(s: string): (r: string)
    ensures |r| == |s|
    ensures forall k :: 0 <= k < |r| ==> !IsAsciiUpper(r[k])
    ensures forall k :: 0 <= k < |s| && !IsAsciiUpper(s[k]) ==> r[k] == s[k]
    ensures forall k :: 0 <= k < |s| && IsAsciiUpper(s[k]) ==> r[k] as int == s[k] as int + 32
  {
    seq(|s|, k requires 0 <= k < |s| => LowerChar(s[k]))
  }

  /** Lower-casing lower-cased text changes nothing. */
  lemma ToLowerIdempotent(s: string)
    ensures ToLower(ToLower(s)) == ToLower(s)
  {
  }

  /** Two texts that differ only in the case of ASCII letters: at every position the
      characters are equal, or one is a capital and the other its small letter. */
  predicate SameUpToCase(a: string, b: string) {
    && |a| == |b|
    && forall k :: 0 <= k < |a| ==>
         || a[k] == b[k]
         || (IsAsciiUpper(a[k]) && b[k] as int == a[k] as int + 32)
         || (IsAsciiUpper(b[k]) && a[k] as int == b[k] as int + 32)
  }

  /** Texts that differ only in case lower-case to the same text. */
  lemma ToLowerIgnoresCase(a: string, b: string)
    requires SameUpToCase(a, b)
    ensures ToLower(a) == ToLower(b)
  {
    var la, lb := ToLower(a), ToLower(b);
    forall k | 0 <= k < |a| ensures la[k] == lb[k] {
      if IsAsciiUpper(a[k]) && b[k] as int == a[k] as int + 32 {
        assert !IsAsciiUpper(b[k]);
      } else if IsAsciiUpper(b[k]) && a[k] as int == b[k] as int + 32 {
        assert !IsAsciiUpper(a[k]);
      }
    }
  }

  /** The value of a decimal digit. */
  function DigitValue(c: char): nat {
    if '0' <= c <= '9' then c as int - '0' as int else 0
  }

  /** The number a string of decimal digits denotes, most significant digit first. */
  function DigitsValue(d: string): nat
    decreases |d|
  {
    if d == [] then 0 else DigitsValue(d[..|d| - 1]) * 10 + DigitValue(d[|d| - 1])
  }

  /** Decimal digits of `n`, as JavaScript renders a non-negative integer: at least one
      digit, they denote `n`, and there is no leading zero unless `n` is 0. */
  function NatToString(n: nat): (r: string)
    ensures |r| >= 1 && forall k :: 0 <= k < |r| ==> '0' <= r[k] <= '9'
    ensures DigitsValue(r) == n
    ensures r[0] == '0' <==> n == 0
    decreases n
  {
    var d := ['0' + (n % 10) as char];
    if n < 10 then d
    else
      var high := NatToString(n / 10);
      assert (high + d)[..|high + d| - 1] == high;
      high + d
  }
}
