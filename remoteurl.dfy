/** Reading the owner and the repository name out of a Git remote URL, as
    `getRepoDetails` does with the regular expression
    `github\.com[\/:]([^\/]+)\/([^\/\.]+)(?:\.git)?$`, searched for from the
    left and anchored only at the end. */
module RemoteUrl {
  import opened Wrappers
  import opened Text
  import opened Paths

  const Host: string := "github.com"

  /** The `{owner, repo}` object. */
  datatype RepoDetails = RepoDetails(owner: string, repo: string)

  /** The end of the run of characters outside `stop` that starts at `i`. */
  function RunEnd(u: string, i: nat, stop: set<char>): (j: nat)
    requires i <= |u|
    ensures i <= j <= |u|
    ensures forall k :: i <= k < j ==> u[k] !in stop
    ensures j < |u| ==> u[j] in stop
    decreases |u| - i
  {
    if i == |u| || u[i] in stop then i else RunEnd(u, i + 1, stop)
  }

  /** Whether the expression matches starting at `s`, and the two groups.
      `([^\/]+)` must be followed by '/', so it is the whole run of non-'/'
      characters; `([^\/\.]+)` must be followed by ".git" or the end, so it
      is the whole run of characters other than '/' and '.', and only ""
      or ".git" may follow it. No backtracking can do better. */
  function MatchAt(u: string, s: nat): Option<RepoDetails>
    requires s <= |u|
  {
    if !OccursAt(u, Host, s) || s + 10 >= |u| || u[s + 10] !in {'/', ':'} then None
    else
      var o := s + 11;
      var e1 := RunEnd(u, o, {'/'});
      if e1 == o || e1 == |u| then None
      else
        var q := e1 + 1;
        var e2 := RunEnd(u, q, {'/', '.'});
        if e2 == q || (u[e2..] != "" && u[e2..] != ".git") then None
        else Some(RepoDetails(u[o..e1], u[q..e2]))
  }

  /** The leftmost match at or after `s`. */
  function FirstMatchFrom(u: string, s: nat): Option<RepoDetails>
    requires s <= |u|
    decreases |u| - s
  {
    match MatchAt(u, s)
    case Some(d) => Some(d)
    case None => if s == |u| then None else FirstMatchFrom(u, s + 1)
  }

  /** The parse inside `getRepoDetails`, on the trimmed remote URL: no match
      is tried unless the URL contains "github.com", and a match yields its
      two groups. */
  function ParseRemoteUrl(remoteUrl: string): Option<RepoDetails>
  {
    if Contains(remoteUrl, Host) then FirstMatchFrom(remoteUrl, 0) else None
  }

  /** A match at `s` is "github.com", '/' or ':', the owner, '/', the
      repository and nothing or ".git" up to the end of the URL; the owner
      is a non-empty run without '/', the repository a non-empty run
      without '/' or '.'. */
  predicate MatchShape(u: string, s: nat, d: RepoDetails)
  {
    var o := s + 11;
    var e1 := o + |d.owner|;
    var e2 := e1 + 1 + |d.repo|;
    && e2 <= |u|
    && OccursAt(u, Host, s)
    && u[s + 10] in {'/', ':'}
    && d.owner != "" && '/' !in d.owner
    && d.repo != "" && '/' !in d.repo && '.' !in d.repo
    && u[o..e1] == d.owner && u[e1] == '/' && u[e1 + 1..e2] == d.repo
    && (u[e2..] == "" || u[e2..] == ".git")
  }

  /** Every match `MatchAt` reports has that shape. */
  lemma MatchAtSound(u: string, s: nat)
    requires s <= |u| && MatchAt(u, s).Some?
    ensures MatchShape(u, s, MatchAt(u, s).value)
  {
    var o := s + 11;
    var e1 := RunEnd(u, o, {'/'});
    var e2 := RunEnd(u, e1 + 1, {'/', '.'});
    var d := MatchAt(u, s).value;
    assert d.owner == u[o..e1] && d.repo == u[e1 + 1..e2];
    assert '/' !in d.owner by {
      forall k | 0 <= k < |d.owner| ensures d.owner[k] != '/' {
        assert d.owner[k] == u[o + k];
      }
    }
    assert '/' !in d.repo && '.' !in d.repo by {
      forall k | 0 <= k < |d.repo| ensures d.repo[k] != '/' && d.repo[k] != '.' {
        assert d.repo[k] == u[e1 + 1 + k];
      }
    }
  }

  /** A run that stops at `j` ends at `j`. */
  lemma {:induction false} RunEndAt(u: string, i: nat, j: nat, stop: set<char>)
    requires i <= j <= |u|
    requires forall k :: i <= k < j ==> u[k] !in stop
    requires j == |u| || u[j] in stop
    ensures RunEnd(u, i, stop) == j
    decreases j - i
  {
    if i < j {
      RunEndAt(u, i + 1, j, stop);
    }
  }

  /** In a match of that shape the owner is the whole run of non-'/'
      characters after the separator. */
  lemma OwnerRunEnds(u: string, s: nat, d: RepoDetails)
    requires MatchShape(u, s, d)
    ensures RunEnd(u, s + 11, {'/'}) == s + 11 + |d.owner|
  {
    var o := s + 11;
    var e1 := o + |d.owner|;
    forall k | o <= k < e1 ensures u[k] !in {'/'} {
      assert u[k] == u[o..e1][k - o];
    }
    RunEndAt(u, o, e1, {'/'});
  }

  /** In a match of that shape the repository is the whole run of
      characters other than '/' and '.' after the owner's '/'. */
  lemma RepoRunEnds(u: string, s: nat, d: RepoDetails)
    requires MatchShape(u, s, d)
    ensures RunEnd(u, s + 12 + |d.owner|, {'/', '.'}) == s + 12 + |d.owner| + |d.repo|
  {
    var q := s + 12 + |d.owner|;
    var e2 := q + |d.repo|;
    forall k | q <= k < e2 ensures u[k] !in {'/', '.'} {
      assert u[k] == u[q..e2][k - q];
    }
    if e2 < |u| {
      assert u[e2] == u[e2..][0];
    }
    RunEndAt(u, q, e2, {'/', '.'});
  }

  /** Every URL position with that shape is a match `MatchAt` reports. */
  lemma MatchAtComplete(u: string, s: nat, d: RepoDetails)
    requires MatchShape(u, s, d)
    ensures s <= |u| && MatchAt(u, s) == Some(d)
  {
    OwnerRunEnds(u, s, d);
    RepoRunEnds(u, s, d);
  }

  /** The search returns the leftmost match. */
  lemma {:induction false} FirstMatchIsLeftmost(u: string, i: nat) returns (s: nat)
    requires i <= |u| && FirstMatchFrom(u, i).Some?
    ensures i <= s <= |u| && MatchAt(u, s) == FirstMatchFrom(u, i)
    ensures forall t :: i <= t < s ==> MatchAt(u, t).None?
    decreases |u| - i
  {
    if MatchAt(u, i).Some? {
      s := i;
    } else {
      assert i < |u| && FirstMatchFrom(u, i) == FirstMatchFrom(u, i + 1);
      s := FirstMatchIsLeftmost(u, i + 1);
    }
  }

  /** When no position at or after `i` matches, the search finds nothing. */
  lemma {:induction false} NoMatchFrom(u: string, i: nat)
    requires i <= |u|
    requires forall t :: i <= t <= |u| ==> MatchAt(u, t).None?
    ensures FirstMatchFrom(u, i).None?
    decreases |u| - i
  {
    if i < |u| {
      NoMatchFrom(u, i + 1);
    }
  }

  /** A parsed URL has the shape of a match at its leftmost match position,
      and the owner and repository are the two groups found there. */
  lemma ParsedShape(u: string, d: RepoDetails) returns (s: nat)
    requires ParseRemoteUrl(u) == Some(d)
    ensures s <= |u| && MatchShape(u, s, d)
    ensures forall t :: 0 <= t < s ==> MatchAt(u, t).None?
  {
    s := FirstMatchIsLeftmost(u, 0);
    MatchAtSound(u, s);
  }

  /** The parse finds every URL of the form `<prefix>github.com<sep><owner>/
      <repo><suffix>` whose first "github.com" is the host: it yields that
      owner and that repository. */
  lemma ParseFindsRepo(prefix: string, sep: char, owner: string, repo: string, suffix: string)
    requires sep == '/' || sep == ':'
    requires owner != "" && '/' !in owner
    requires repo != "" && '/' !in repo && '.' !in repo
    requires suffix == "" || suffix == ".git"
    requires forall t :: 0 <= t < |prefix| ==>
      !OccursAt(prefix + Host + [sep] + owner + "/" + repo + suffix, Host, t)
    ensures ParseRemoteUrl(prefix + Host + [sep] + owner + "/" + repo + suffix) == Some(RepoDetails(owner, repo))
  {
    var u := prefix + Host + [sep] + owner + "/" + repo + suffix;
    var s := |prefix|;
    var d := RepoDetails(owner, repo);
    var e1 := s + 11 + |owner|;
    assert u[s..s + 10] == Host;
    assert u[s + 10] == sep;
    assert u[s + 11..e1] == owner;
    assert u[e1] == '/';
    assert u[e1 + 1..e1 + 1 + |repo|] == repo;
    assert u[e1 + 1 + |repo|..] == suffix;
    MatchAtComplete(u, s, d);
    assert Contains(u, Host);
    assert FirstMatchFrom(u, 0) == Some(d) by {
      LeftmostAt(u, s, d);
    }
  }

  /** If nothing matches before `s` and `d` matches at `s`, the search from
      the start yields `d`. */
  lemma {:induction false} LeftmostAt(u: string, s: nat, d: RepoDetails)
    requires s <= |u| && MatchAt(u, s) == Some(d)
    requires forall t :: 0 <= t < s ==> !OccursAt(u, Host, t)
    ensures FirstMatchFrom(u, 0) == Some(d)
  {
    var i := s;
    while i > 0
      invariant 0 <= i <= s
      invariant FirstMatchFrom(u, i) == Some(d)
    {
      i := i - 1;
      assert MatchAt(u, i).None?;
    }
  }

  /** An HTTPS remote: `https://github.com/<owner>/<repo>.git`. */
  lemma HttpsRemote(owner: string, repo: string)
    requires owner != "" && '/' !in owner
    requires repo != "" && '/' !in repo && '.' !in repo
    ensures ParseRemoteUrl("https://github.com/" + owner + "/" + repo + ".git") == Some(RepoDetails(owner, repo))
  {
    var prefix := "https://";
    var u := prefix + Host + ['/'] + owner + "/" + repo + ".git";
    assert "https://github.com/" + owner + "/" + repo + ".git" == u;
    forall t | 0 <= t < |prefix| ensures !OccursAt(u, Host, t) {
      assert u[t] == prefix[t];
      assert u[t..t + 10][0] == u[t];
    }
    ParseFindsRepo(prefix, '/', owner, repo, ".git");
  }

  /** An SSH remote: `git@github.com:<owner>/<repo>.git`. */
  lemma SshRemote(owner: string, repo: string)
    requires owner != "" && '/' !in owner
    requires repo != "" && '/' !in repo && '.' !in repo
    ensures ParseRemoteUrl("git@github.com:" + owner + "/" + repo + ".git") == Some(RepoDetails(owner, repo))
  {
    var prefix := "git@";
    var u := prefix + Host + [':'] + owner + "/" + repo + ".git";
    assert "git@github.com:" + owner + "/" + repo + ".git" == u;
    forall t | 0 <= t < |prefix| ensures !OccursAt(u, Host, t) {
      assert u[t] == prefix[t];
      assert u[t..t + 10][0] == u[t];
      if t == 0 {
        assert u[t..t + 10][3] == '@';
      }
    }
    ParseFindsRepo(prefix, ':', owner, repo, ".git");
  }

  /** The repository is the last path segment of the URL, with ".git"
      removed when present. */
  lemma RepoIsLastSegment(u: string, d: RepoDetails)
    requires ParseRemoteUrl(u) == Some(d)
    ensures d.repo != "" && '.' !in d.repo
    ensures Basename(u) == d.repo || Basename(u) == d.repo + ".git"
  {
    var s := ParsedShape(u, d);
    var e1 := s + 11 + |d.owner|;
    var e2 := e1 + 1 + |d.repo|;
    var tail := u[e2..];
    assert u[e1 + 1..] == d.repo + tail by {
      assert u[e1 + 1..] == u[e1 + 1..e2] + u[e2..];
    }
    assert u == u[..e1] + "/" + (d.repo + tail) by {
      assert u == u[..e1] + [u[e1]] + u[e1 + 1..];
    }
    assert NoSlash(d.repo + tail) by {
      forall k | 0 <= k < |d.repo + tail| ensures (d.repo + tail)[k] != '/' {
        if k < |d.repo| {
          assert (d.repo + tail)[k] == d.repo[k];
        }
      }
    }
    LastSlashOfJoin(u[..e1], d.repo + tail);
  }

  /** A URL that ends in '/' never yields details. */
  lemma TrailingSlashRejected(u: string)
    requires u != "" && u[|u| - 1] == '/'
    ensures ParseRemoteUrl(u) == None
  {
    if ParseRemoteUrl(u).Some? {
      var d := ParseRemoteUrl(u).value;
      RepoIsLastSegment(u, d);
    }
  }

  /** A repository name holding a '.' other than the one of a final ".git"
      never yields details: the last segment of the URL has a '.' at
      position `k`, and not as the start of its final ".git". */
  lemma DottedRepoRejected(u: string, k: nat)
    requires k < |Basename(u)| && Basename(u)[k] == '.'
    requires !(k + 4 == |Basename(u)| && Basename(u)[k..] == ".git")
    ensures ParseRemoteUrl(u) == None
  {
    if ParseRemoteUrl(u).Some? {
      var d := ParseRemoteUrl(u).value;
      RepoIsLastSegment(u, d);
      DotOnlyInSuffix(Basename(u), d.repo, k);
    }
  }

  /** In a segment that is a dot-free name, possibly followed by ".git",
      the only '.' is the one that starts ".git". */
  lemma DotOnlyInSuffix(b: string, name: string, k: nat)
    requires '.' !in name && (b == name || b == name + ".git")
    requires k < |b| && b[k] == '.'
    ensures k + 4 == |b| && b[k..] == ".git"
  {
  }

  /** The `includes('github.com')` test changes nothing: every match
      starts with "github.com", so the search alone gives the same result. */
  lemma HostTestRedundant(u: string)
    ensures ParseRemoteUrl(u) == FirstMatchFrom(u, 0)
  {
    if FirstMatchFrom(u, 0).Some? {
      var s := FirstMatchIsLeftmost(u, 0);
      assert OccursAt(u, Host, s);
    }
  }
}
