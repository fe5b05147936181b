/** String helpers with JavaScript's meaning: `String.prototype.trim`,
    `includes`, `startsWith`, and decimal rendering of counts in log lines. */
module Text {

  /** The characters JavaScript's `\s` class and `trim()` both treat as
      white space: WhiteSpace and LineTerminator of ECMAScript. */
  predicate IsSpace(c: char)
  {
    || c == '\t' || c == '\n' || c == '\U{B}' || c == '\U{C}' || c == '\r'
    || c == ' ' || c == '\U{A0}' || c == '\U{1680}'
    || ('\U{2000}' <= c <= '\U{200A}')
    || c == '\U{2028}' || c == '\U{2029}' || c == '\U{202F}' || c == '\U{205F}'
    || c == '\U{3000}' || c == '\U{FEFF}'
  }

  predicate AllSpace(s: string)
  {
    forall i :: 0 <= i < |s| ==> IsSpace(s[i])
  }

  /** Drops leading white space. */
  function TrimStart(s: string): string
  {
    if s != [] && IsSpace(s[0]) then TrimStart(s[1..]) else s
  }

  /** Drops trailing white space. */
  function TrimEnd(s: string): string
  {
    if s != [] && IsSpace(s[|s| - 1]) then TrimEnd(s[..|s| - 1]) else s
  }

  /** `s.trim()` */
  function Trim(s: string): string
  {
    TrimEnd(TrimStart(s))
  }

  lemma {:induction false} TrimStartSkipsSpace(ws: string, s: string)
    requires AllSpace(ws)
    ensures TrimStart(ws + s) == TrimStart(s)
  {
    if ws != [] {
      assert (ws + s)[0] == ws[0] && IsSpace(ws[0]);
      assert (ws + s)[1..] == ws[1..] + s;
      TrimStartSkipsSpace(ws[1..], s);
    } else {
      assert ws + s == s;
    }
  }

  lemma {:induction false} TrimEndSkipsSpace(s: string, ws: string)
    requires AllSpace(ws)
    ensures TrimEnd(s + ws) == TrimEnd(s)
  {
    if ws != [] {
      var w' := ws[..|ws| - 1];
      assert (s + ws)[..|s + ws| - 1] == s + w';
      TrimEndSkipsSpace(s, w');
    } else {
      assert s + ws == s;
    }
  }

  /** Once a non-space character has been reached, `TrimStart` leaves the rest alone. */
  lemma {:induction false} TrimStartKeepsTail(k: string, s: string)
    requires !AllSpace(k)
    ensures TrimStart(k + s) == TrimStart(k) + s
  {
    if IsSpace(k[0]) {
      assert (k + s)[1..] == k[1..] + s;
      assert !AllSpace(k[1..]) by {
        var i :| 0 <= i < |k| && !IsSpace(k[i]);
        assert k[1..][i - 1] == k[i];
      }
      TrimStartKeepsTail(k[1..], s);
    }
  }

  /** White space around a key does not change its trimmed form:
      `{{name}}` and `{{  name  }}` name the same key. */
  lemma TrimIgnoresSurroundingSpace(ws1: string, k: string, ws2: string)
    requires AllSpace(ws1) && AllSpace(ws2)
    ensures Trim(ws1 + k + ws2) == Trim(k)
  {
    assert ws1 + k + ws2 == ws1 + (k + ws2);
    TrimStartSkipsSpace(ws1, k + ws2);
    if AllSpace(k) {
      assert AllSpace(k + ws2);
      assert TrimStart(k + ws2) == [] by { TrimStartSkipsSpace(k + ws2, []); assert k + ws2 + [] == k + ws2; }
      assert TrimStart(k) == [] by { TrimStartSkipsSpace(k, []); assert k + [] == k; }
    } else {
      TrimStartKeepsTail(k, ws2);
      TrimEndSkipsSpace(TrimStart(k), ws2);
    }
  }

  /** `s.startsWith(p)` */
  predicate StartsWith(s: string, p: string)
  {
    |p| <= |s| && s[..|p|] == p
  }

  predicate OccursAt(s: string, t: string, i: nat)
  {
    i + |t| <= |s| && s[i..i + |t|] == t
  }

  /** `s.includes(t)` */
  predicate Contains(s: string, t: string)
  {
    exists i: nat :: i <= |s| && OccursAt(s, t, i)
  }

  function DigitChar(d: nat): char
    requires d < 10
  {
    "0123456789"[d]
  }

  /** Decimal rendering of a count, as a template literal `${n}` prints it. */
  function NatToString(n: nat): string
  {
    if n < 10 then [DigitChar(n)] else NatToString(n / 10) + [DigitChar(n % 10)]
  }
}
