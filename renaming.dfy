/** File renaming rules: configuration keys `$$FILE_<pattern>` whose value is
    the replacement base name, and `applyFileRenaming`, which renames a path
    by the first rule whose pattern equals its base name exactly. */
module Renaming {
  import opened Wrappers
  import opened Text
  import opened Paths
  import opened Placeholders

  /** The reserved key prefix that marks a renaming rule. */
  const FilePrefix: string := "$$FILE_"

  datatype Rule = Rule(pattern: string, replacement: string)

  /** The renaming rules of a configuration, in entry order: every key that
      starts with the prefix, with the prefix removed, paired with its value.
      Since such a key starts with the prefix, `key.replace` removes exactly
      that leading occurrence. */
  function ExtractRules(c: Config): (rules: seq<Rule>)
    ensures |rules| <= |c|
    ensures forall r :: r in rules ==> Entry(FilePrefix + r.pattern, r.replacement) in c
    ensures forall e :: e in c && StartsWith(e.key, FilePrefix) ==>
              Rule(e.key[|FilePrefix|..], e.value) in rules
  {
    if c == [] then []
    else
      var rest := ExtractRules(c[1..]);
      var e := c[0];
      if StartsWith(e.key, FilePrefix) then
        assert FilePrefix + e.key[|FilePrefix|..] == e.key;
        [Rule(e.key[|FilePrefix|..], e.value)] + rest
      else rest
  }

  /** Rules keep the order of their entries: extracting from a concatenation
      is concatenating the extractions. */
  lemma {:induction false} ExtractRulesAppend(c1: Config, c2: Config)
    ensures ExtractRules(c1 + c2) == ExtractRules(c1) + ExtractRules(c2)
  {
    if c1 == [] {
      assert c1 + c2 == c2;
    } else {
      assert (c1 + c2)[0] == c1[0];
      assert (c1 + c2)[1..] == c1[1..] + c2;
      ExtractRulesAppend(c1[1..], c2);
    }
  }

  /** A configuration without prefixed keys yields no rules, and one with a
      prefixed key yields at least one. */
  lemma NoRulesIffNoPrefixedKey(c: Config)
    ensures ExtractRules(c) == [] <==> forall e :: e in c ==> !StartsWith(e.key, FilePrefix)
  {
    if ExtractRules(c) == [] {
      forall e | e in c ensures !StartsWith(e.key, FilePrefix) {
      }
    } else {
      var r := ExtractRules(c)[0];
      assert Entry(FilePrefix + r.pattern, r.replacement) in c;
      assert StartsWith(FilePrefix + r.pattern, FilePrefix);
    }
  }

  /** Index of the first rule whose pattern equals `name`. */
  function FirstMatch(name: string, rules: seq<Rule>): (m: Option<nat>)
    ensures m.Some? ==> m.value < |rules| && rules[m.value].pattern == name
    ensures m.Some? ==> forall j :: 0 <= j < m.value ==> rules[j].pattern != name
    ensures m.None? ==> forall j :: 0 <= j < |rules| ==> rules[j].pattern != name
  {
    if rules == [] then None
    else if rules[0].pattern == name then Some(0)
    else
      match FirstMatch(name, rules[1..])
      case None => None
      case Some(k) => Some(k + 1)
  }

  /** The base name after renaming: the replacement of the first matching
      rule, or the name itself. */
  function RenameName(name: string, rules: seq<Rule>): (r: string)
    ensures (forall j :: 0 <= j < |rules| ==> rules[j].pattern != name) ==> r == name
    ensures r != name ==> exists j :: 0 <= j < |rules| && rules[j] == Rule(name, r)
  {
    match FirstMatch(name, rules)
    case Some(i) => rules[i].replacement
    case None => name
  }

  /** `applyFileRenaming(p, rules, _)` as a value: the directory of `p`
      joined with the renamed base name. */
  function RenamePath(p: string, rules: seq<Rule>): string
  {
    Join(Dirname(p), RenameName(Basename(p), rules))
  }

  /** `applyFileRenaming`: tries the rules in order, takes the first exact
      match and stops; `baseDir` is accepted but never used. */
  method ApplyFileRenaming(filePath: string, rules: seq<Rule>, baseDir: string)
    returns (newPath: string)
    ensures FirstMatch(Basename(filePath), rules).Some? ==>
      newPath == Join(Dirname(filePath), rules[FirstMatch(Basename(filePath), rules).value].replacement)
    ensures FirstMatch(Basename(filePath), rules).None? ==>
      newPath == Join(Dirname(filePath), Basename(filePath))
    ensures newPath == RenamePath(filePath, rules)
  {
    var fileName := Basename(filePath);
    var dirName := Dirname(filePath);
    ghost var name := fileName;
    var i := 0;
    while i < |rules|
      invariant 0 <= i <= |rules|
      invariant fileName == name
      invariant forall j :: 0 <= j < i ==> rules[j].pattern != name
      decreases |rules| - i
    {
      if fileName == rules[i].pattern {
        fileName := rules[i].replacement;
        assert FirstMatch(name, rules) == Some(i);
        break;
      }
      i := i + 1;
    }
    newPath := Join(dirName, fileName);
  }

  /** The first matching rule decides, whatever the later rules say. */
  lemma FirstMatchWins(name: string, rules: seq<Rule>, i: nat)
    requires i < |rules| && rules[i].pattern == name
    requires forall j :: 0 <= j < i ==> rules[j].pattern != name
    ensures RenameName(name, rules) == rules[i].replacement
  {
    var m := FirstMatch(name, rules);
    assert m.Some?;
    assert !(m.value < i) && !(i < m.value);
  }

  /** Two rules with the same pattern: the earlier one wins, the later one
      is never used (`a.txt` becomes `b.txt`, never `c.txt`). */
  lemma DuplicatePatternFirstWins(p: string, b: string, c: string)
    ensures RenameName(p, [Rule(p, b), Rule(p, c)]) == b
  {
    FirstMatchWins(p, [Rule(p, b), Rule(p, c)], 0);
  }

  /** At most one rule applies to a file: with `a ↦ b` and `b ↦ c`, a file
      named `a` becomes `b`, not `c`. */
  lemma NoChaining(a: string, b: string, c: string)
    ensures RenameName(a, [Rule(a, b), Rule(b, c)]) == b
  {
    FirstMatchWins(a, [Rule(a, b), Rule(b, c)], 0);
  }

  /** Patterns match whole base names only: a name equal to no pattern is
      kept, so `ba.txt` is not renamed by the pattern `a.txt`. */
  lemma NoMatchKeepsPath(p: string, rules: seq<Rule>)
    requires RelPath(p)
    requires forall r :: r in rules ==> r.pattern != Basename(p)
    ensures RenamePath(p, rules) == p
  {
    forall j | 0 <= j < |rules| ensures rules[j].pattern != Basename(p) {
      assert rules[j] in rules;
    }
    SplitJoin(p);
  }

  /** The exact-match example: the pattern `a.txt` does not touch `ba.txt`. */
  lemma ExactMatchOnly(r: string)
    ensures RenamePath("ba.txt", [Rule("a.txt", r)]) == "ba.txt"
  {
    var p := "ba.txt";
    assert LastSlash(p) == None;
    assert Basename(p) == p;
    NoMatchKeepsPath(p, [Rule("a.txt", r)]);
  }

  /** A matching rule whose replacement is a plain name renames the file in
      place: same directory, new base name. */
  lemma RenameKeepsDirectory(p: string, rules: seq<Rule>, i: nat)
    requires i < |rules| && rules[i].pattern == Basename(p)
    requires forall j :: 0 <= j < i ==> rules[j].pattern != Basename(p)
    requires rules[i].replacement != "" && NoSlash(rules[i].replacement)
    ensures Dirname(RenamePath(p, rules)) == Dirname(p)
    ensures Basename(RenamePath(p, rules)) == rules[i].replacement
  {
    FirstMatchWins(Basename(p), rules, i);
    JoinPlainName(Dirname(p), rules[i].replacement);
  }

  /** A replacement holding '/' moves the file below its own directory:
      the new parent is the old directory joined with the replacement's
      directory part. */
  lemma ReplacementWithSubdirectory(p: string, rules: seq<Rule>, i: nat)
    requires i < |rules| && rules[i].pattern == Basename(p)
    requires forall j :: 0 <= j < i ==> rules[j].pattern != Basename(p)
    requires rules[i].replacement != "" && rules[i].replacement[0] != '/'
    ensures Dirname(RenamePath(p, rules)) == Join(Dirname(p), Dirname(rules[i].replacement))
  {
    FirstMatchWins(Basename(p), rules, i);
    DirnameOfJoin(Dirname(p), rules[i].replacement);
  }

  /** A rule key turns into a rule that renames the named file: with the
      entry `$$FILE_<pattern>` ↦ `n` and no earlier rule for the same
      pattern, a top-level file `pattern` becomes `n`. */
  lemma ConfigRuleRenames(pattern: string, n: string)
    requires pattern != "" && NoSlash(pattern) && pattern[0] != '/'
    ensures ExtractRules([Entry(FilePrefix + pattern, n)]) == [Rule(pattern, n)]
    ensures RenamePath(pattern, ExtractRules([Entry(FilePrefix + pattern, n)])) == n
  {
    var c := [Entry(FilePrefix + pattern, n)];
    assert StartsWith(c[0].key, FilePrefix);
    assert c[0].key[|FilePrefix|..] == pattern;
    assert c[1..] == [];
    assert LastSlash(pattern) == None;
    FirstMatchWins(pattern, [Rule(pattern, n)], 0);
  }

  /** Renaming a file of a directory, addressed from outside that directory,
      gives the directory joined with the renamed relative path; so the name
      reported relative to the directory is the one renaming the relative
      path gives. */
  lemma RenamedUnderDirectory(dir: string, file: string, rules: seq<Rule>)
    requires RelPath(file)
    requires RenameName(Basename(file), rules) == "" || RenameName(Basename(file), rules)[0] != '/'
    ensures RenamePath(Join(dir, file), rules) == Join(dir, RenamePath(file, rules))
    ensures Relative(dir, RenamePath(Join(dir, file), rules)) == RenamePath(file, rules)
  {
    var name := RenameName(Basename(file), rules);
    DirnameOfJoin(dir, file);
    BasenameOfJoin(dir, file);
    JoinAssoc(dir, Dirname(file), name);
    var q := RenamePath(file, rules);
    assert q == "" || q[0] != '/' by {
      if Dirname(file) != "" {
        assert Dirname(file)[0] == file[0];
      }
    }
    RelativeOfJoin(dir, q);
  }
}
