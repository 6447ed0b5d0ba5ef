/** The two pure text helpers of client.js: `escapeHtml`, applied to every
    name and message text before it is put into the page, and the initials
    drawn on the default avatar. */
module Markup {
  import opened Options

  /** The replacement `escapeHtml` makes for one character. */
  function Entity(c: char): (r: string)
    ensures !Special(c) ==> r == [c]
    ensures Special(c) ==> 4 <= |r| <= 6 && r[0] == '&' && r[|r| - 1] == ';'
  {
    match c
    case '&' => "&amp;"
    case '<' => "&lt;"
    case '>' => "&gt;"
    case '"' => "&quot;"
    case _ => [c]
  }

  /** The characters `escapeHtml` replaces. */
  predicate Special(c: char) {
    c == '&' || c == '<' || c == '>' || c == '"'
  }

  /** `s.replace(/[&<>"]/g, ...)`: every special character is replaced by its
      entity, every other character is copied. The result never holds a raw
      `<`, `>` or `"`, and is never shorter than the input. */
  function Escape(s: string): (r: string)
    ensures forall i :: 0 <= i < |r| ==> r[i] != '<' && r[i] != '>' && r[i] != '"'
    ensures |r| >= |s|
  {
    if s == [] then [] else Entity(s[0]) + Escape(s[1..])
  }

  /** `escapeHtml(s)`, where `(s || '')` turns a missing or empty value into
      the empty string. */
  function EscapeHtml(s: Option<string>): (r: string)
    ensures !Filled(s) ==> r == ""
    ensures forall i :: 0 <= i < |r| ==> r[i] != '<' && r[i] != '>' && r[i] != '"'
  {
    if Filled(s) then Escape(s.value) else ""
  }

  /** Escaping works character by character: it distributes over
      concatenation, and a single character becomes its entity. */
  lemma {:induction false} EscapeAppend(a: string, b: string)
    ensures Escape(a + b) == Escape(a) + Escape(b)
    ensures |a| == 1 ==> Escape(a) == Entity(a[0])
  {
    if a != [] {
      assert (a + b)[0] == a[0] && (a + b)[1..] == a[1..] + b;
      EscapeAppend(a[1..], b);
      calc {
        Escape(a + b);
        Entity(a[0]) + Escape(a[1..] + b);
        Entity(a[0]) + (Escape(a[1..]) + Escape(b));
        (Entity(a[0]) + Escape(a[1..])) + Escape(b);
      }
    } else {
      assert a + b == b;
    }
  }

  /** Text without special characters is left exactly as it is. */
  lemma {:induction false} EscapePlainText(s: string)
    requires forall i :: 0 <= i < |s| ==> !Special(s[i])
    ensures Escape(s) == s
  {
    if s != [] {
      EscapePlainText(s[1..]);
    }
  }

  /** Reads the four entities back; any other character is copied. */
  function Unescape(s: string): (r: string)
    decreases |s|
  {
    if s == [] then []
    else if s[0] != '&' then [s[0]] + Unescape(s[1..])
    else if |s| >= 5 && s[1] == 'a' && s[2] == 'm' && s[3] == 'p' && s[4] == ';' then "&" + Unescape(s[5..])
    else if |s| >= 4 && s[1] == 'l' && s[2] == 't' && s[3] == ';' then "<" + Unescape(s[4..])
    else if |s| >= 4 && s[1] == 'g' && s[2] == 't' && s[3] == ';' then ">" + Unescape(s[4..])
    else if |s| >= 6 && s[1] == 'q' && s[2] == 'u' && s[3] == 'o' && s[4] == 't' && s[5] == ';' then "\"" + Unescape(s[6..])
    else "&" + Unescape(s[1..])
  }

  /** Reading back one entity, followed by anything, gives its character. */
  lemma UnescapeEntity(c: char, rest: string)
    ensures Unescape(Entity(c) + rest) == [c] + Unescape(rest)
  {
  }

  /** Escaping loses nothing: decoding the four entities recovers the text
      that was escaped. */
  lemma {:induction false} UnescapeEscape(s: string)
    ensures Unescape(Escape(s)) == s
  {
    if s != [] {
      UnescapeEntity(s[0], Escape(s[1..]));
      UnescapeEscape(s[1..]);
      assert s == [s[0]] + s[1..];
    }
  }

  /** `toUpperCase` on the letters a name here starts with: Latin a-z and
      Cyrillic а-я and ѐ-џ; every other character is left as it is. */
  function Upper(c: char): (r: char)
    ensures !IsLower(r)
    ensures !IsLower(c) ==> r == c
  {
    if 'a' <= c <= 'z' then (c as int - 32) as char
    else if 'а' <= c <= 'я' then (c as int - 32) as char
    else if 'ѐ' <= c <= 'џ' then (c as int - 80) as char
    else c
  }

  predicate IsLower(c: char) {
    'a' <= c <= 'z' || 'а' <= c <= 'я' || 'ѐ' <= c <= 'џ'
  }

  /** `(name || '?').slice(0, 2).toUpperCase()` in `defaultAvatar`: the first
      one or two characters of the name, upper-cased, or "?" for a missing
      or empty name. */
  function Initials(name: Option<string>): (r: string)
    ensures !Filled(name) ==> r == "?"
    ensures Filled(name) ==>
              && |r| == (if |name.value| < 2 then |name.value| else 2)
              && forall i :: 0 <= i < |r| ==> r[i] == Upper(name.value[i])
    ensures 1 <= |r| <= 2
    ensures forall i :: 0 <= i < |r| ==> !IsLower(r[i])
  {
    var src := if Filled(name) then name.value else "?";
    var head := if |src| < 2 then src else src[..2];
    seq(|head|, i requires 0 <= i < |head| => Upper(head[i]))
  }
}
