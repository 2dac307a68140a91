/** ASCII string helpers mirroring the few Python `str` methods the system uses. */
module Text {
  import opened Wrappers

  predicate StartsWith(s: string, prefix: string) {
    |prefix| <= |s| && s[..|prefix|] == prefix
  }

  predicate EndsWith(s: string, suffix: string) {
    |suffix| <= |s| && s[|s| - |suffix|..] == suffix
  }

  /** Python's `sub in s`. */
  predicate Contains(s: string, sub: string)
    decreases |s|
  {
    StartsWith(s, sub) || (|s| > 0 && Contains(s[1..], sub))
  }

  /** `s` without its last `k` characters (Python `s[:-k]` for `k <= |s|`). */
  function DropLast(s: string, k: nat): string
    requires k <= |s|
  {
    s[..|s| - k]
  }

  function LowerChar(c: char): char {
    if 'A' <= c <= 'Z' then (c as int + 32) as char else c
  }

  function UpperChar(c: char): char {
    if 'a' <= c <= 'z' then (c as int - 32) as char else c
  }

  /** `str.lower()` restricted to ASCII letters. */
  function Lower(s: string): (r: string)
    ensures |r| == |s|
  {
    seq(|s|, i requires 0 <= i < |s| => LowerChar(s[i]))
  }

  /** `str.upper()` restricted to ASCII letters. */
  function Upper(s: string): (r: string)
    ensures |r| == |s|
  {
    seq(|s|, i requires 0 <= i < |s| => UpperChar(s[i]))
  }

  predicate IsDigit(c: char) {
    '0' <= c <= '9'
  }

  /** Value of a non-empty string of decimal digits. */
  function DigitsValue(s: string): nat
    requires forall i :: 0 <= i < |s| ==> IsDigit(s[i])
  {
    if s == [] then 0
    else
      assert IsDigit(s[|s| - 1]);
      10 * DigitsValue(s[..|s| - 1]) + (s[|s| - 1] as int - '0' as int)
  }

  /**
   * The characters `int()` skips around a number: the ASCII whitespace
   * characters and the separators U+001C to U+001F, which Python also
   * counts as space.
   */
  predicate IsSpace(c: char) {
    c == ' ' || 9 <= c as int <= 13 || 28 <= c as int <= 31
  }

  /** `s` without its leading spaces. */
  function StripStart(s: string): (r: string)
    ensures r == [] || !IsSpace(r[0])
    decreases |s|
  {
    if s != [] && IsSpace(s[0]) then StripStart(s[1..]) else s
  }

  /** `s` without its trailing spaces. */
  function StripEnd(s: string): (r: string)
    ensures r == [] || !IsSpace(r[|r| - 1])
    decreases |s|
  {
    if s != [] && IsSpace(s[|s| - 1]) then StripEnd(s[..|s| - 1]) else s
  }

  /** `s.strip()`: without its leading and trailing spaces. */
  function Strip(s: string): string {
    StripEnd(StripStart(s))
  }

  /**
   * The digits of decimal digit groups joined by single underscores, as
   * `int()` reads them (`"1_000"` gives `"1000"`); `None` for a leading,
   * trailing or doubled underscore or any other character.
   */
  function GroupDigits(s: string): (r: Option<string>)
    ensures r.Some? ==> |r.value| > 0 && forall i :: 0 <= i < |r.value| ==> IsDigit(r.value[i])
    decreases |s|
  {
    if s == [] || !IsDigit(s[0]) then None
    else if |s| == 1 then Some(s)
    else
      var rest := if s[1] == '_' then s[2..] else s[1..];
      match GroupDigits(rest)
      case None => None
      case Some(d) => Some([s[0]] + d)
  }

  /**
   * Python `int(s)` on text: spaces around the number are skipped, then
   * comes an optional sign and then decimal digits, in groups joined by
   * single underscores; anything else raises (`None`). Only ASCII digits
   * and spaces are recognised.
   */
  function ParseInt(s: string): Option<int> {
    var t := Strip(s);
    if |t| > 0 && (t[0] == '-' || t[0] == '+') then
      match GroupDigits(t[1..])
      case None => None
      case Some(d) => var n: int := DigitsValue(d); Some(if t[0] == '-' then -n else n)
    else
      match GroupDigits(t)
      case None => None
      case Some(d) => Some(DigitsValue(d))
  }

  /** Text that neither starts nor ends with a space is its own strip. */
  lemma StripUnspaced(s: string)
    requires s == [] || (!IsSpace(s[0]) && !IsSpace(s[|s| - 1]))
    ensures Strip(s) == s
  {
    assert StripStart(s) == s;
    assert StripEnd(s) == s;
  }

  /** A plain run of digits is one group. */
  lemma {:induction false} GroupDigitsPlain(d: string)
    requires |d| > 0 && forall i :: 0 <= i < |d| ==> IsDigit(d[i])
    ensures GroupDigits(d) == Some(d)
    decreases |d|
  {
    if |d| > 1 {
      assert d[1] != '_' by {
        assert IsDigit(d[1]);
      }
      GroupDigitsPlain(d[1..]);
      assert [d[0]] + d[1..] == d;
    }
  }

  /** Unsigned digit groups with no space around them read as their digits' value. */
  lemma ParseIntOfGroups(t: string, d: string)
    requires |t| > 0 && IsDigit(t[0]) && !IsSpace(t[|t| - 1]) && GroupDigits(t) == Some(d)
    ensures ParseInt(t) == Some(DigitsValue(d))
  {
    StripUnspaced(t);
  }

  /** A plain run of digits reads as its value. */
  lemma ParseIntDigits(d: string)
    requires |d| > 0 && forall i :: 0 <= i < |d| ==> IsDigit(d[i])
    ensures ParseInt(d) == Some(DigitsValue(d))
  {
    assert IsDigit(d[0]) && IsDigit(d[|d| - 1]);
    GroupDigitsPlain(d);
    ParseIntOfGroups(d, d);
  }

  /** Leading spaces are skipped. */
  lemma {:induction false} StripStartSpaces(pre: string, s: string)
    requires forall i :: 0 <= i < |pre| ==> IsSpace(pre[i])
    ensures StripStart(pre + s) == StripStart(s)
    decreases |pre|
  {
    if pre == [] {
      assert pre + s == s;
    } else {
      assert (pre + s)[0] == pre[0];
      assert (pre + s)[1..] == pre[1..] + s;
      StripStartSpaces(pre[1..], s);
    }
  }

  /** Trailing spaces are skipped. */
  lemma {:induction false} StripEndSpaces(s: string, post: string)
    requires forall i :: 0 <= i < |post| ==> IsSpace(post[i])
    ensures StripEnd(s + post) == StripEnd(s)
    decreases |post|
  {
    if post == [] {
      assert s + post == s;
    } else {
      var n := |post| - 1;
      assert (s + post)[|s + post| - 1] == post[n];
      assert (s + post)[..|s + post| - 1] == s + post[..n];
      StripEndSpaces(s, post[..n]);
    }
  }

  /** Spaces around a number do not change what `int()` reads (`int(" 5") == 5`). */
  lemma ParseIntSpaced(pre: string, s: string, post: string)
    requires forall i :: 0 <= i < |pre| ==> IsSpace(pre[i])
    requires forall i :: 0 <= i < |post| ==> IsSpace(post[i])
    requires |s| > 0 && !IsSpace(s[0]) && !IsSpace(s[|s| - 1])
    ensures ParseInt(pre + s + post) == ParseInt(s)
  {
    assert pre + s + post == pre + (s + post);
    StripStartSpaces(pre, s + post);
    assert (s + post)[0] == s[0];
    assert StripStart(s + post) == s + post;
    StripEndSpaces(s, post);
    StripUnspaced(s);
    assert Strip(pre + s + post) == Strip(s);
  }

  /** Digit groups joined by one more underscore and group read as all their digits run together. */
  lemma {:induction false} GroupDigitsJoin(a: string, b: string)
    requires |a| > 0 && forall i :: 0 <= i < |a| ==> IsDigit(a[i])
    requires |b| > 0 && forall i :: 0 <= i < |b| ==> IsDigit(b[i])
    ensures GroupDigits(a + "_" + b) == Some(a + b)
    decreases |a|
  {
    var s := a + "_" + b;
    if |a| == 1 {
      assert s == [a[0], '_'] + b;
      GroupDigitsPlain(b);
      assert GroupDigits(s) == Some([a[0]] + b);
      assert a + b == [a[0]] + b;
    } else {
      var a' := a[1..];
      assert s == [a[0]] + (a' + "_" + b);
      assert IsDigit(a'[0]);
      GroupDigitsJoin(a', b);
      assert GroupDigits(s) == Some([a[0]] + (a' + b));
      assert a + b == [a[0]] + (a' + b);
    }
  }

  /** Two digit groups joined by one underscore read as the digits run together (`int("1_0") == 10`). */
  lemma ParseIntGrouped(a: string, b: string)
    requires |a| > 0 && forall i :: 0 <= i < |a| ==> IsDigit(a[i])
    requires |b| > 0 && forall i :: 0 <= i < |b| ==> IsDigit(b[i])
    ensures ParseInt(a + "_" + b) == Some(DigitsValue(a + b))
  {
    var s := a + "_" + b;
    assert s[0] == a[0] && IsDigit(a[0]);
    assert s[|s| - 1] == b[|b| - 1] && IsDigit(b[|b| - 1]);
    GroupDigitsJoin(a, b);
    ParseIntOfGroups(s, a + b);
  }

  /** A doubled, leading or trailing underscore, or a space inside the number, makes `int()` raise. */
  lemma ParseIntRejects()
    ensures ParseInt("1__0") == None
    ensures ParseInt("_1") == None
    ensures ParseInt("1_") == None
    ensures ParseInt("1 0") == None
  {
    StripUnspaced("1__0");
    assert "1__0"[2..] == "_0";
    StripUnspaced("_1");
    StripUnspaced("1_");
    assert "1_"[2..] == [];
    StripUnspaced("1 0");
    assert "1 0"[1..] == " 0";
  }

  /** `str(n)` for a natural number: its decimal digits, most significant first. */
  function NatToString(n: nat): (r: string)
    ensures |r| > 0 && forall i :: 0 <= i < |r| ==> IsDigit(r[i])
    ensures DigitsValue(r) == n
  {
    var d := ['0' + (n % 10) as char];
    if n < 10 then d
    else
      var r := NatToString(n / 10) + d;
      assert r[..|r| - 1] == NatToString(n / 10);
      r
  }
}
