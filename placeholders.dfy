/** `processPlaceholders`: one left-to-right pass of the global regular
    expression `\{\{\s*([^}]+)\s*\}\}` over a text, replacing each token whose
    trimmed key is an own key of the configuration by that key's value and
    leaving every other token exactly as written. */
module Placeholders {
  import opened Wrappers
  import opened Text

  /** One entry of the JSON configuration, in `Object.entries` order. */
  datatype Entry = Entry(key: string, value: string)

  type Config = seq<Entry>

  /** `jsonConfig.hasOwnProperty(k) ? jsonConfig[k] : undefined` */
  function Lookup(c: Config, k: string): (r: Option<string>)
    ensures r.Some? ==> Entry(k, r.value) in c
    ensures r.None? ==> forall e :: e in c ==> e.key != k
  {
    if c == [] then None
    else if c[0].key == k then Some(c[0].value)
    else Lookup(c[1..], k)
  }

  /** Index of the first '}' at or after `i`, or `|t|` when there is none. */
  function FirstClose(t: string, i: nat): (j: nat)
    requires i <= |t|
    ensures i <= j <= |t|
    ensures forall k :: i <= k < j ==> t[k] != '}'
    ensures j < |t| ==> t[j] == '}'
    decreases |t| - i
  {
    if i == |t| || t[i] == '}' then i else FirstClose(t, i + 1)
  }

  /** Whether the regular expression matches at the start of `t`; if so, the
      index of the first of the two closing braces. Every character between
      the braces is a non-'}' character (both `\s` and `[^}]` exclude it), so
      the closing pair must start at the first '}', and at least one character
      must stand between the braces. */
  function TokenEnd(t: string): (e: Option<nat>)
    ensures e.Some? ==> 2 < e.value && e.value + 2 <= |t|
    ensures e.Some? ==> t[..2] == "{{" && t[e.value..e.value + 2] == "}}"
    ensures e.Some? ==> '}' !in t[2..e.value]
  {
    if |t| >= 2 && t[0] == '{' && t[1] == '{' then
      var j := FirstClose(t, 2);
      if j > 2 && j + 1 < |t| && t[j + 1] == '}' then
        assert forall k :: 0 <= k < j - 2 ==> t[2..j][k] == t[k + 2];
        Some(j)
      else None
    else None
  }

  /** Completeness of `TokenEnd`: wherever the regular expression matches at
      the start of `t`, with closing braces at `j`, `TokenEnd` finds it. */
  lemma TokenEndComplete(t: string, j: nat)
    requires |t| >= 2 && t[..2] == "{{" && 2 < j && j + 2 <= |t|
    requires '}' !in t[2..j] && t[j..j + 2] == "}}"
    ensures TokenEnd(t) == Some(j)
  {
    assert t[0] == '{' && t[1] == '{';
    forall k | 2 <= k < j
      ensures t[k] != '}'
    {
      assert t[k] == t[2..j][k - 2];
    }
    assert t[j] == t[j..j + 2][0] && t[j + 1] == t[j..j + 2][1];
    assert FirstClose(t, 2) == j;
  }

  /** The text that replaces a token with inner text `inner`: the value of its
      trimmed key, or the token itself when the key is absent. The capture of
      `([^}]+)` differs from `inner` only by leading white space, which `trim`
      removes anyway. */
  function Replacement(inner: string, c: Config): (r: string)
    ensures Lookup(c, Trim(inner)).Some? ==> Entry(Trim(inner), r) in c
    ensures Lookup(c, Trim(inner)).None? ==> r == "{{" + inner + "}}"
  {
    match Lookup(c, Trim(inner))
    case Some(v) => v
    case None => "{{" + inner + "}}"
  }

  /** `processPlaceholders(t, c)`. After a token the scan resumes behind it,
      so an inserted value is never scanned again; where no token starts, one
      character is copied and the scan moves on. */
  function Subst(t: string, c: Config): (r: string)
    decreases |t|
  {
    if t == [] then []
    else
      match TokenEnd(t)
      case Some(j) => Replacement(t[2..j], c) + Subst(t[j + 2..], c)
      case None => [t[0]] + Subst(t[1..], c)
  }

  /** No position of `t` starts a token. */
  predicate NoToken(t: string)
  {
    forall i :: 0 <= i < |t| ==> TokenEnd(t[i..]).None?
  }

  /** Text without any `{{…}}` match is returned unchanged. */
  lemma {:induction false} NoTokenUnchanged(t: string, c: Config)
    requires NoToken(t)
    ensures Subst(t, c) == t
    decreases |t|
  {
    if t != [] {
      assert t[0..] == t;
      assert NoToken(t[1..]) by {
        forall i | 0 <= i < |t[1..]| ensures TokenEnd(t[1..][i..]).None? {
          assert t[1..][i..] == t[i + 1..];
        }
      }
      NoTokenUnchanged(t[1..], c);
    }
  }

  /** A text that starts with a token is handled token first: the token is
      replaced as a unit and the scan continues with what follows it. */
  lemma LeadingToken(inner: string, rest: string, c: Config)
    requires inner != [] && '}' !in inner
    ensures Subst("{{" + inner + "}}" + rest, c) == Replacement(inner, c) + Subst(rest, c)
  {
    var t := "{{" + inner + "}}" + rest;
    var n := |inner|;
    assert t[2 + n] == '}' && t[3 + n] == '}';
    forall k | 2 <= k < 2 + n ensures t[k] != '}' {
      assert t[k] == inner[k - 2];
    }
    var j := FirstClose(t, 2);
    assert j == 2 + n;
    assert TokenEnd(t) == Some(j);
    assert t[2..j] == inner;
    assert t[j + 2..] == rest;
  }

  /** A token whose trimmed key is present is replaced by the key's value;
      the value is not scanned again. */
  lemma PresentKeyReplaced(inner: string, rest: string, c: Config, v: string)
    requires inner != [] && '}' !in inner
    requires Lookup(c, Trim(inner)) == Some(v)
    ensures Subst("{{" + inner + "}}" + rest, c) == v + Subst(rest, c)
  {
    LeadingToken(inner, rest, c);
  }

  /** A token whose trimmed key is absent stays byte for byte, braces and
      inner white space included. */
  lemma AbsentKeyKept(inner: string, rest: string, c: Config)
    requires inner != [] && '}' !in inner
    requires Lookup(c, Trim(inner)) == None
    ensures Subst("{{" + inner + "}}" + rest, c) == "{{" + inner + "}}" + Subst(rest, c)
  {
    LeadingToken(inner, rest, c);
  }

  /** White space between the braces and the key does not matter:
      `{{name}}` and `{{  name  }}` are substituted alike. */
  lemma WhitespaceIrrelevant(ws1: string, k: string, ws2: string, rest: string, c: Config)
    requires AllSpace(ws1) && AllSpace(ws2)
    requires k != [] && '}' !in k
    requires Lookup(c, Trim(k)).Some?
    ensures Subst("{{" + ws1 + k + ws2 + "}}" + rest, c) == Subst("{{" + k + "}}" + rest, c)
  {
    var inner := ws1 + k + ws2;
    assert '}' !in inner by {
      forall i | 0 <= i < |inner| ensures inner[i] != '}' {
        if i < |ws1| { assert IsSpace(ws1[i]); }
        else if i < |ws1| + |k| { assert inner[i] == k[i - |ws1|]; }
        else { assert IsSpace(ws2[i - |ws1| - |k|]); }
      }
    }
    TrimIgnoresSurroundingSpace(ws1, k, ws2);
    assert "{{" + ws1 + k + ws2 + "}}" + rest == "{{" + inner + "}}" + rest;
    LeadingToken(inner, rest, c);
    LeadingToken(k, rest, c);
  }

  /** Text with no '{' is copied through and substitution continues after it. */
  lemma {:induction false} PlainPrefix(a: string, b: string, c: Config)
    requires '{' !in a
    ensures Subst(a + b, c) == a + Subst(b, c)
  {
    if a != [] {
      var t := a + b;
      assert t[0] == a[0] && t[0] != '{';
      assert t[1..] == a[1..] + b;
      PlainPrefix(a[1..], b, c);
      assert a == [a[0]] + a[1..];
    } else {
      assert a + b == b;
    }
  }

  /** The greeting template: substituting `Hello {{ k }}!` with `{k: v}`
      gives `Hello v!` (with k = "name" and v = "World", `Hello World!`). */
  lemma GreetingExample(k: string, v: string)
    requires k != [] && '}' !in k && '{' !in k && Trim(k) == k
    ensures Subst("Hello {{ " + k + " }}!", [Entry(k, v)]) == "Hello " + v + "!"
  {
    var c := [Entry(k, v)];
    var inner := " " + k + " ";
    assert Trim(inner) == k by {
      TrimIgnoresSurroundingSpace(" ", k, " ");
    }
    assert '}' !in inner;
    var token := "{{" + inner + "}}" + "!";
    assert "Hello {{ " + k + " }}!" == "Hello " + token;
    assert Subst("Hello " + token, c) == "Hello " + Subst(token, c) by {
      PlainPrefix("Hello ", token, c);
    }
    assert Subst(token, c) == v + "!" by {
      PresentKeyReplaced(inner, "!", c, v);
      PlainPrefix("!", "", c);
      assert "!" + "" == "!";
    }
    assert "Hello " + (v + "!") == "Hello " + v + "!";
  }

  /** A key cannot contain '}': `{{a}b}}` is no token, whatever the configuration. */
  lemma CloseBraceEndsKey(c: Config)
    ensures Subst("{{a}b}}", c) == "{{a}b}}"
  {
    var t := "{{a}b}}";
    forall i | 0 <= i < |t| ensures TokenEnd(t[i..]).None? {
      if i == 0 {
        assert FirstClose(t, 2) == 3;
      }
    }
    NoTokenUnchanged(t, c);
  }

  /** Where no token starts, the first character is copied. */
  lemma CharCopied(t: string, c: Config)
    requires t != [] && TokenEnd(t).None?
    ensures Subst(t, c) == [t[0]] + Subst(t[1..], c)
  {
  }

  /** Where no token starts at the first two positions, both characters are
      copied. */
  lemma TwoCopied(t: string, c: Config)
    requires |t| >= 2 && TokenEnd(t).None? && TokenEnd(t[1..]).None?
    ensures Subst(t, c) == t[..2] + Subst(t[2..], c)
  {
    CharCopied(t, c);
    CharCopied(t[1..], c);
    assert t[1..][1..] == t[2..];
    assert [t[0]] + [t[1]] == t[..2];
  }

  /** `{{x}` followed by '{' starts no token: the first '}' after the
      braces is not followed by a second one; nor does `{x}…`. */
  lemma UnclosedNoMatch(x: string, rest: string)
    requires x != [] && '{' !in x && '}' !in x
    requires rest != [] && rest[0] == '{'
    ensures var t := "{{" + x + "}" + rest;
      TokenEnd(t).None? && TokenEnd(t[1..]).None? && t[..2] == "{{" && t[2..] == x + "}" + rest
  {
    var t := "{{" + x + "}" + rest;
    var n := |x|;
    assert t[2 + n] == '}' && t[3 + n] == '{';
    forall k | 2 <= k < 2 + n ensures t[k] != '}' {
      assert t[k] == x[k - 2];
    }
    assert FirstClose(t, 2) == 2 + n;
    assert t[1..][0] == '{' && t[1..][1] == x[0];
  }

  /** So the text up to that '}' is copied. */
  lemma UnclosedToken(x: string, rest: string, c: Config)
    requires x != [] && '{' !in x && '}' !in x
    requires rest != [] && rest[0] == '{'
    ensures Subst("{{" + x + "}" + rest, c) == "{{" + x + "}" + Subst(rest, c)
  {
    var t := "{{" + x + "}" + rest;
    UnclosedNoMatch(x, rest);
    TwoCopied(t, c);
    PlainPrefix(x + "}", rest, c);
    var s := Subst(rest, c);
    assert Subst(t, c) == "{{" + ((x + "}") + s);
    assert "{{" + ((x + "}") + s) == "{{" + x + "}" + s;
  }

  /** An empty value can join the text around it into a new token: with
      a ↦ "", `{{x}{{a}}}` becomes `{{x}}`. */
  lemma EmptyValueJoins(x: string, a: string, c: Config)
    requires x != [] && '{' !in x && '}' !in x && a != [] && '}' !in a
    requires Lookup(c, Trim(a)) == Some("")
    ensures Subst("{{" + x + "}" + "{{" + a + "}}" + "}", c) == "{{" + x + "}}"
  {
    var rest := "{{" + a + "}}" + "}";
    assert "{{" + x + "}" + "{{" + a + "}}" + "}" == "{{" + x + "}" + rest;
    UnclosedToken(x, rest, c);
    PresentKeyReplaced(a, "}", c, "");
    PlainPrefix("}", "", c);
    assert "}" + "" == "}";
  }

  /** A '{' in front of `{x}}` gives `{{x}}`. */
  lemma BracePrefix(x: string)
    ensures "{" + ("{" + x + "}}") == "{{" + x + "}}"
  {
  }

  /** A single '{' before brace-free text starts no token: `{x}}` is kept. */
  lemma SingleBraceKept(x: string, c: Config)
    requires x != [] && '{' !in x && '}' !in x
    ensures Subst("{" + x + "}}", c) == "{" + x + "}}"
  {
    var t := "{" + x + "}}";
    assert t[1] == x[0];
    CharCopied(t, c);
    assert t[1..] == x + "}}" + "";
    PlainPrefix(x + "}}", "", c);
  }

  /** A value can complete a token with the text after it: with a ↦ "{",
      `{{a}}{x}}` becomes `{{x}}`. */
  lemma BraceValueJoins(a: string, x: string, c: Config)
    requires a != [] && '}' !in a && x != [] && '{' !in x && '}' !in x
    requires Lookup(c, Trim(a)) == Some("{")
    ensures Subst("{{" + a + "}}" + "{" + x + "}}", c) == "{{" + x + "}}"
  {
    var rest := "{" + x + "}}";
    assert "{{" + a + "}}" + "{" + x + "}}" == "{{" + a + "}}" + rest;
    PresentKeyReplaced(a, rest, c, "{");
    SingleBraceKept(x, c);
    assert "{" + rest == "{{" + x + "}}" by {
      BracePrefix(x);
    }
  }

  /** Substituting twice can differ from substituting once: with a ↦ "{"
      and x ↦ X, `{{a}}{x}}` becomes `{{x}}` and then `X`. */
  lemma SecondPassCanDiffer(a: string, x: string, c: Config, vx: string)
    requires a != [] && '}' !in a && x != [] && '{' !in x && '}' !in x
    requires Lookup(c, Trim(a)) == Some("{") && Lookup(c, Trim(x)) == Some(vx)
    ensures Subst("{{" + a + "}}" + "{" + x + "}}", c) == "{{" + x + "}}"
    ensures Subst(Subst("{{" + a + "}}" + "{" + x + "}}", c), c) == vx
  {
    BraceValueJoins(a, x, c);
    PresentKeyReplaced(x, "", c, vx);
    assert "{{" + x + "}}" == "{{" + x + "}}" + "";
  }
}
