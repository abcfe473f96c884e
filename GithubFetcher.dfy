/** Parsing of a GitHub repository URL's path into owner, repository, branch
    and sub-path: `/owner/repo` or `/owner/repo/tree/<branch>/<path...>`. */
module GithubFetcher {
  import opened Wrappers
  import opened Text

  datatype RepoLocation = RepoLocation(owner: string, repo: string, branch: string, path: string)

  const DefaultBranch: string := "main"
  const InvalidRepoUrl: string := "Invalid GitHub repo URL"

  /** The path's segments: leading and trailing `/` stripped, then split on `/`. */
  function Segments(urlPath: string): seq<string> {
    Split(StripChars(urlPath, {'/'}), '/')
  }

  /** `parse_github_repo_url`, given the path component of the URL. */
  function ParseGithubRepoUrl(urlPath: string): (r: Result<RepoLocation, string>)
    ensures r.Failure? <==> |Segments(urlPath)| < 2
    ensures r.Failure? ==> r.error == InvalidRepoUrl
    ensures r.Success? ==> r.value.owner == Segments(urlPath)[0] && r.value.repo == Segments(urlPath)[1]
  {
    var parts := Segments(urlPath);
    if |parts| < 2 then Failure(InvalidRepoUrl)
    else
      var owner, repo := parts[0], parts[1];
      if |parts| >= 4 && parts[2] == "tree" then
        Success(RepoLocation(owner, repo, parts[3], Join('/', parts[4..])))
      else
        Success(RepoLocation(owner, repo, DefaultBranch, ""))
  }

  /** The URL is rejected exactly when its stripped path contains no `/`
      (the empty path, `/`, or a bare owner). */
  lemma RejectedIffSingleSegment(urlPath: string)
    ensures ParseGithubRepoUrl(urlPath).Failure? <==> '/' !in StripChars(urlPath, {'/'})
  {
    SplitSingle(StripChars(urlPath, {'/'}), '/');
  }

  /** Without the `tree/<branch>` form the branch is `main` and the path is
      empty; any further segments are ignored. */
  lemma DefaultsOutsideTreeForm(urlPath: string)
    requires ParseGithubRepoUrl(urlPath).Success?
    requires !(|Segments(urlPath)| >= 4 && Segments(urlPath)[2] == "tree")
    ensures ParseGithubRepoUrl(urlPath).value.branch == DefaultBranch
    ensures ParseGithubRepoUrl(urlPath).value.path == ""
  {
  }

  /** In the tree form the branch is the fourth segment, and the path is the
      rest of the stripped path after it (empty when there is nothing more),
      with no segment contents lost. */
  lemma {:induction false} TreeFormPath(urlPath: string)
    requires |Segments(urlPath)| >= 4 && Segments(urlPath)[2] == "tree"
    ensures ParseGithubRepoUrl(urlPath).Success?
    ensures ParseGithubRepoUrl(urlPath).value.branch == Segments(urlPath)[3]
    ensures Split(ParseGithubRepoUrl(urlPath).value.path, '/') ==
      if |Segments(urlPath)| == 4 then [""] else Segments(urlPath)[4..]
  {
    var parts := Segments(urlPath);
    if |parts| > 4 {
      SplitPiecesFree(StripChars(urlPath, {'/'}), '/');
      SplitJoin(parts[4..], '/');
    }
  }

  /** Splitting a join of separator-free pieces gives back the pieces. */
  lemma {:induction false} SplitJoin(parts: seq<string>, sep: char)
    requires |parts| >= 1
    requires forall k :: 0 <= k < |parts| ==> sep !in parts[k]
    ensures Split(Join(sep, parts), sep) == parts
  {
    if |parts| == 1 {
      SplitSingle(parts[0], sep);
    } else {
      SplitJoin(parts[1..], sep);
      SplitCons(parts[0], sep, Join(sep, parts[1..]));
      assert [parts[0]] + parts[1..] == parts;
    }
  }

  /** A non-empty string without `/` is a single segment. */
  predicate IsSegment(s: string) {
    |s| > 0 && '/' !in s
  }

  /** The URL path `/owner/repo/tree/branch/p`. */
  function TreeUrlPath(owner: string, repo: string, branch: string, p: string): string {
    "/" + owner + "/" + repo + "/tree/" + branch + "/" + p
  }

  /** Round trip: the path `/owner/repo/tree/branch/p` parses back into its
      parts, for slash-free non-empty owner, repo and branch and a `p` that
      neither starts nor ends with `/`. */
  lemma RoundTrip(owner: string, repo: string, branch: string, p: string)
    requires IsSegment(owner) && IsSegment(repo) && IsSegment(branch)
    requires p == "" || (p[0] != '/' && p[|p| - 1] != '/')
    ensures ParseGithubRepoUrl(TreeUrlPath(owner, repo, branch, p)) == Success(RepoLocation(owner, repo, branch, p))
  {
    var tail := if p == "" then "" else "/" + p;
    var rest := if p == "" then [branch] else [branch] + Split(p, '/');
    if p == "" {
      SplitSingle(branch, '/');
      assert branch + tail == branch;
    } else {
      SplitCons(branch, '/', p);
      assert branch + tail == branch + ['/'] + p;
      JoinSplit(p, '/');
    }
    TreeUrlPathStripped(owner, repo, branch, p);
    TreeSegments(owner, repo, branch, tail, rest);
    var parts := [owner, repo, "tree"] + rest;
    assert parts[4..] == if p == "" then [] else Split(p, '/');
  }

  /** Stripping the slashes around a tree-form path. */
  lemma TreeUrlPathStripped(owner: string, repo: string, branch: string, p: string)
    requires IsSegment(owner) && IsSegment(branch)
    requires p == "" || (p[0] != '/' && p[|p| - 1] != '/')
    ensures StripChars(TreeUrlPath(owner, repo, branch, p), {'/'})
      == owner + "/" + repo + "/tree/" + branch + (if p == "" then "" else "/" + p)
  {
    var core := owner + "/" + repo + "/tree/" + branch + (if p == "" then "" else "/" + p);
    if p == "" {
      assert TreeUrlPath(owner, repo, branch, p) == "/" + core + "/";
    } else {
      assert TreeUrlPath(owner, repo, branch, p) == "/" + core;
    }
    StripSlashesAround(TreeUrlPath(owner, repo, branch, p), core);
  }

  /** Splitting a tree-form path after its slashes are stripped. */
  lemma TreeSegments(owner: string, repo: string, branch: string, tail: string, rest: seq<string>)
    requires IsSegment(owner) && IsSegment(repo)
    requires Split(branch + tail, '/') == rest
    ensures Split(owner + "/" + repo + "/tree/" + branch + tail, '/') == [owner, repo, "tree"] + rest
  {
    SplitCons("tree", '/', branch + tail);
    assert "tree/" + branch + tail == "tree" + ['/'] + (branch + tail);
    SplitCons(repo, '/', "tree/" + branch + tail);
    assert repo + "/tree/" + branch + tail == repo + ['/'] + ("tree/" + branch + tail);
    SplitCons(owner, '/', repo + "/tree/" + branch + tail);
    assert owner + "/" + repo + "/tree/" + branch + tail == owner + ['/'] + (repo + "/tree/" + branch + tail);
  }

  /** The stripped form of the round-trip path. */
  lemma StripSlashesAround(urlPath: string, core: string)
    requires |core| > 0 && core[0] != '/' && core[|core| - 1] != '/'
    requires urlPath == "/" + core || urlPath == "/" + core + "/"
    ensures StripChars(urlPath, {'/'}) == core
  {
    assert urlPath[1..] == core || urlPath[1..] == core + "/";
    assert TrimStart(urlPath, {'/'}) == TrimStart(urlPath[1..], {'/'});
    assert TrimStart(urlPath[1..], {'/'}) == urlPath[1..];
    assert TrimEnd(core, {'/'}) == core;
    if urlPath[1..] != core {
      assert (core + "/")[..|core|] == core;
      assert TrimEnd(core + "/", {'/'}) == TrimEnd(core, {'/'});
    }
  }
}
