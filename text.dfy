/** The string operations the bot relies on, restricted to ASCII:
    Python's `str.title()`, `str.lower()`, `str.join`, the `&nbsp;`
    escaping of link labels, decimal rendering of integers and
    `str.format(thing_id=...)`. */
module Text {
  import opened Common

  predicate IsUpper(c: char) { 'A' <= c <= 'Z' }
  predicate IsLower(c: char) { 'a' <= c <= 'z' }
  /** Only letters are cased characters in ASCII. */
  predicate IsCased(c: char) { IsUpper(c) || IsLower(c) }

  function ToUpper(c: char): (u: char)
    ensures IsCased(u) == IsCased(c)
    ensures !IsLower(u)
    ensures !IsCased(c) ==> u == c
    ensures IsLower(c) ==> u as int - 'A' as int == c as int - 'a' as int
  {
    if IsLower(c) then (c as int - 32) as char else c
  }

  function ToLower(c: char): (l: char)
    ensures IsCased(l) == IsCased(c)
    ensures !IsUpper(l)
    ensures !IsCased(c) ==> l == c
    ensures IsUpper(c) ==> l as int - 'a' as int == c as int - 'A' as int
  {
    if IsUpper(c) then (c as int + 32) as char else c
  }

  /** `str.title()`: a cased character is upper-cased when the character
      before it is not cased and lower-cased when it is; `afterCased` says
      whether the character before `s` was cased. */
  function TitleFrom(s: string, afterCased: bool): (r: string)
    ensures |r| == |s|
    ensures forall i :: 0 <= i < |s| ==> IsCased(r[i]) == IsCased(s[i])
  {
    if s == [] then []
    else
      var c := if afterCased then ToLower(s[0]) else ToUpper(s[0]);
      [c] + TitleFrom(s[1..], IsCased(s[0]))
  }

  function Title(s: string): string {
    TitleFrom(s, false)
  }

  /** Title-casing leaves this string as it is. */
  predicate IsTitleCased(s: string) {
    Title(s) == s
  }

  lemma {:induction false} TitleFromIdempotent(s: string, afterCased: bool)
    ensures TitleFrom(TitleFrom(s, afterCased), afterCased) == TitleFrom(s, afterCased)
  {
    if s != [] {
      var t := TitleFrom(s, afterCased);
      assert t[1..] == TitleFrom(s[1..], IsCased(s[0]));
      assert IsCased(t[0]) == IsCased(s[0]);
      TitleFromIdempotent(s[1..], IsCased(s[0]));
    }
  }

  /** Title-casing twice is title-casing once, so re-titling a value that is
      already title-cased changes nothing. */
  lemma TitleIdempotent(s: string)
    ensures IsTitleCased(Title(s))
  {
    TitleFromIdempotent(s, false);
  }

  lemma {:induction false} TitleFromLowerTail(s: string)
    requires forall i :: 0 <= i < |s| ==> IsLower(s[i])
    ensures TitleFrom(s, true) == s
  {
    if s != [] {
      TitleFromLowerTail(s[1..]);
    }
  }

  /** A capitalised or lower-case word is title-cased to its capitalised form. */
  lemma TitleOfWord(s: string)
    requires |s| > 0 && IsCased(s[0])
    requires forall i :: 1 <= i < |s| ==> IsLower(s[i])
    ensures Title(s) == [ToUpper(s[0])] + s[1..]
  {
    TitleFromLowerTail(s[1..]);
  }

  /** `str.lower()` on ASCII: every letter becomes the same letter in lower
      case and every other character is kept. */
  function Lower(s: string): (r: string)
    ensures |r| == |s|
    ensures forall i :: 0 <= i < |s| ==> r[i] == ToLower(s[i])
    ensures forall i :: 0 <= i < |s| ==> !IsUpper(r[i])
    ensures forall i :: 0 <= i < |s| ==> (IsCased(s[i]) || r[i] == s[i])
  {
    if s == [] then [] else [ToLower(s[0])] + Lower(s[1..])
  }

  /** `sep.join(parts)`. */
  function Join(sep: string, parts: seq<string>): (r: string)
    ensures |parts| == 1 ==> r == parts[0]
    ensures parts == [] ==> r == ""
  {
    if parts == [] then ""
    else if |parts| == 1 then parts[0]
    else parts[0] + sep + Join(sep, parts[1..])
  }

  /** `s.replace(' ', '&nbsp;')`. */
  function Nbsp(s: string): string {
    if s == [] then ""
    else (if s[0] == ' ' then "&nbsp;" else [s[0]]) + Nbsp(s[1..])
  }

  /** After escaping, no space is left, so a link renders as one token, and
      a string without spaces is left unchanged. */
  lemma {:induction false} NbspRemovesSpaces(s: string)
    ensures ' ' !in Nbsp(s)
    ensures ' ' !in s ==> Nbsp(s) == s
  {
    if s != [] {
      NbspRemovesSpaces(s[1..]);
      var head := if s[0] == ' ' then "&nbsp;" else [s[0]];
      assert Nbsp(s) == head + Nbsp(s[1..]);
      assert ' ' !in head;
      assert forall c :: c in s[1..] ==> c in s;
    }
  }

  lemma {:induction false} NbspAppend(a: string, b: string)
    ensures Nbsp(a + b) == Nbsp(a) + Nbsp(b)
  {
    if a == [] {
      assert a + b == b;
    } else {
      assert (a + b)[0] == a[0];
      assert (a + b)[1..] == a[1..] + b;
      NbspAppend(a[1..], b);
    }
  }

  /** Escaping keeps every character other than a space and those of
      "&nbsp;" exactly where it was present or absent. */
  lemma {:induction false} NbspKeeps(s: string, c: char)
    requires c != ' ' && c !in "&nbsp;"
    ensures c in Nbsp(s) <==> c in s
  {
    if s != [] {
      NbspKeeps(s[1..], c);
      var head := if s[0] == ' ' then "&nbsp;" else [s[0]];
      assert Nbsp(s) == head + Nbsp(s[1..]);
      assert c in head <==> c == s[0];
      assert s == [s[0]] + s[1..];
    }
  }

  function DigitChar(d: nat): (c: char)
    requires d < 10
    ensures '0' <= c <= '9' && DigitValue(c) == d
  {
    (d + '0' as int) as char
  }

  /** The value of a decimal digit. */
  function DigitValue(c: char): nat
    requires '0' <= c <= '9'
  {
    c as int - '0' as int
  }

  predicate IsDecimal(s: string) {
    forall i :: 0 <= i < |s| ==> '0' <= s[i] <= '9'
  }

  /** The number a string of decimal digits stands for, most significant
      digit first. */
  function DecimalValue(s: string): nat
    requires IsDecimal(s)
  {
    if s == [] then 0 else 10 * DecimalValue(s[..|s| - 1]) + DigitValue(s[|s| - 1])
  }

  /** Decimal rendering, as Python's `%s` renders a non-negative int. */
  function NatToString(n: nat): (r: string)
    ensures |r| >= 1 && IsDecimal(r)
    decreases n
  {
    if n < 10 then [DigitChar(n)] else NatToString(n / 10) + [DigitChar(n % 10)]
  }

  /** The rendering reads back as the number, and has no leading zero, so it
      is the one decimal spelling of `n` that `%s` gives. */
  lemma {:induction false} NatToStringRoundTrip(n: nat)
    ensures DecimalValue(NatToString(n)) == n
    ensures |NatToString(n)| > 1 ==> NatToString(n)[0] != '0'
    decreases n
  {
    if n >= 10 {
      var r := NatToString(n);
      NatToStringRoundTrip(n / 10);
      assert r[..|r| - 1] == NatToString(n / 10);
      assert r[0] == NatToString(n / 10)[0];
    }
  }

  predicate NoBraces(s: string) {
    '{' !in s && '}' !in s
  }

  /** The character-wise form, which the verifier checks on a short literal
      more cheaply than two membership tests. */
  lemma NoBracesOfChars(s: string)
    requires forall i | 0 <= i < |s| :: s[i] != '{' && s[i] != '}'
    ensures NoBraces(s)
  {
  }

  lemma NoBracesConcat(a: string, b: string)
    ensures NoBraces(a + b) <==> NoBraces(a) && NoBraces(b)
  {
    assert forall c :: c in a + b <==> c in a || c in b;
  }

  lemma {:induction false} NoBracesJoin(sep: string, parts: seq<string>)
    requires NoBraces(sep)
    requires forall i :: 0 <= i < |parts| ==> NoBraces(parts[i])
    ensures NoBraces(Join(sep, parts))
  {
    if |parts| >= 2 {
      NoBracesJoin(sep, parts[1..]);
      NoBracesConcat(parts[0], sep);
      NoBracesConcat(parts[0] + sep, Join(sep, parts[1..]));
    }
  }

  function Prepend(prefix: string, rest: Option<string>): Option<string> {
    match rest
    case None => None
    case Some(t) => Some(prefix + t)
  }

  /** Index of the first '}' in `s`, if any. */
  function CloseBrace(s: string): (k: Option<nat>)
    ensures k.Some? ==> k.value < |s| && s[k.value] == '}' && '}' !in s[..k.value]
    ensures k.None? ==> '}' !in s
  {
    if s == [] then None
    else if s[0] == '}' then Some(0)
    else match CloseBrace(s[1..])
      case None => None
      case Some(j) => assert s[..j + 1] == [s[0]] + s[1..][..j]; Some(j + 1)
  }

  lemma {:induction false} CloseBraceAt(s: string, k: nat)
    requires k < |s| && s[k] == '}' && '}' !in s[..k]
    ensures CloseBrace(s) == Some(k)
  {
    if k > 0 {
      assert s[0] == s[..k][0];
      assert s[1..][..k - 1] == s[..k][1..];
      CloseBraceAt(s[1..], k - 1);
    }
  }

  /** `s.format(thing_id=id)`: `{{` and `}}` stand for single braces and
      `{thing_id}` is replaced by `id`; a brace left unpaired makes Python
      raise. Every other replacement field is modelled as an error (None),
      including those Python would accept, such as a conversion (`!r`), a
      format spec (`:>5`) or an index (`[0]`) on `thing_id`; the footer
      uses none of them. */
  function FormatThingId(s: string, id: string): (r: Option<string>)
    decreases |s|
  {
    if s == [] then Some("")
    else if s[0] == '{' then
      if |s| >= 2 && s[1] == '{' then Prepend("{", FormatThingId(s[2..], id))
      else match CloseBrace(s[1..])
        case None => None
        case Some(k) =>
          if s[1..][..k] == "thing_id" then Prepend(id, FormatThingId(s[1..][k + 1..], id))
          else None
    else if s[0] == '}' then
      if |s| >= 2 && s[1] == '}' then Prepend("}", FormatThingId(s[2..], id))
      else None
    else Prepend([s[0]], FormatThingId(s[1..], id))
  }

  /** Text without braces comes through formatting unchanged. */
  lemma {:induction false} FormatKeepsPlainText(s: string, rest: string, id: string)
    requires NoBraces(s)
    ensures FormatThingId(s + rest, id) == Prepend(s, FormatThingId(rest, id))
    decreases |s|
  {
    if s == [] {
      assert s + rest == rest;
      match FormatThingId(rest, id)
      case None =>
      case Some(t) => assert s + t == t;
    } else {
      assert (s + rest)[0] == s[0];
      assert (s + rest)[1..] == s[1..] + rest;
      assert NoBraces(s[1..]) by {
        assert forall c :: c in s[1..] ==> c in s;
      }
      FormatKeepsPlainText(s[1..], rest, id);
      match FormatThingId(rest, id)
      case None =>
      case Some(t) => assert [s[0]] + (s[1..] + t) == s + t;
    }
  }

  /** Shape of the reply footer: one `{thing_id}` placeholder between two
      brace-free parts is replaced by the identifier. */
  lemma SubstitutePlaceholder(a: string, b: string, id: string)
    requires NoBraces(a) && NoBraces(b)
    ensures FormatThingId(a + "{thing_id}" + b, id) == Some(a + id + b)
  {
    var tail := "{thing_id}" + b;
    assert a + "{thing_id}" + b == a + tail;
    FormatKeepsPlainText(a, tail, id);
    assert tail[0] == '{' && tail[1] == 't';
    assert tail[1..] == "thing_id}" + b;
    assert tail[1..][..8] == "thing_id";
    CloseBraceAt(tail[1..], 8);
    assert tail[1..][..8] == "thing_id";
    assert tail[1..][9..] == b;
    FormatKeepsPlainText(b, "", id);
    assert b + "" == b;
    assert FormatThingId(b, id) == Some(b);
    assert FormatThingId(tail, id) == Some(id + b);
    assert a + (id + b) == a + id + b;
  }
}
