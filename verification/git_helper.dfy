/** The git front end (core/git_helper.py). Every `git` invocation is a call
    of `run`, a function from the argument vector to the finished process:
    its exit status and standard output. A command run with `check=True`
    raises on a non-zero status; the others are inspected by the caller. */
module GitHelper {
  import opened Wrappers
  import opened Seqs
  import opened Text
  import opened LlmTypes

  datatype Completed = Completed(returncode: int, stdout: string)

  /** The repository as seen through `git`: argument vector to outcome. */
  type Git = seq<string> -> Completed

  /** A `check=True` run: the process's output, or the failure it raises. */
  function Checked(run: Git, command: seq<string>): (r: Result<string, Error>)
    ensures r.Ok? <==> run(command).returncode == 0
    ensures r.Ok? ==> r.value == run(command).stdout
    ensures r.Err? ==> r.error == GitFailed(command)
  {
    var done := run(command);
    if done.returncode == 0 then Ok(done.stdout) else Err(GitFailed(command))
  }

  // ---------------------------------------------------------------- branches

  const CurrentBranchCommand := ["git", "rev-parse", "--abbrev-ref", "HEAD"]

  /** `get_current_branch`: the stripped output of `rev-parse`. */
  function GetCurrentBranch(run: Git): (r: Result<string, Error>)
    ensures r.Ok? <==> run(CurrentBranchCommand).returncode == 0
    ensures r.Ok? ==> r.value == Strip(run(CurrentBranchCommand).stdout)
  {
    var out :- Checked(run, CurrentBranchCommand);
    Ok(Strip(out))
  }

  function MergeBaseProbe(branch: string, base: string): seq<string> {
    ["git", "merge-base", branch, base]
  }

  /** The candidate bases, in probing order. */
  const BaseCandidates: seq<string> := ["main", "master", "develop"]

  const FallbackBase := "master"

  /** The merge-base probe of `branch` against `candidate` succeeds. */
  predicate Merges(run: Git, branch: string, candidate: string) {
    run(MergeBaseProbe(branch, candidate)).returncode == 0
  }

  /** The first candidate whose merge-base probe succeeds, else the
      fallback. */
  function FirstMerging(run: Git, branch: string, candidates: seq<string>): (r: string)
    ensures r in candidates || r == FallbackBase
    ensures forall k | 0 <= k < |candidates| && candidates[k] == r :: run(MergeBaseProbe(branch, r)).returncode == 0 || r == FallbackBase
    ensures forall j | 0 <= j < |candidates| && Merges(run, branch, candidates[j])
                       && (forall i | 0 <= i < j :: !Merges(run, branch, candidates[i])) :: r == candidates[j]
    ensures (forall i | 0 <= i < |candidates| :: !Merges(run, branch, candidates[i])) ==> r == FallbackBase
    decreases |candidates|
  {
    if |candidates| == 0 then FallbackBase
    else if run(MergeBaseProbe(branch, candidates[0])).returncode == 0 then candidates[0]
    else
      var rest := candidates[1..];
      var r := FirstMerging(run, branch, rest);
      assert forall j | 1 <= j < |candidates| :: candidates[j] == rest[j - 1];
      r
  }

  /** `get_base_branch`: `main` when it shares history with the branch,
      else `master` when that does, else `develop` when that does, and
      `master` when none does. */
  function GetBaseBranch(run: Git, branch: string): (r: string)
    ensures r in {"main", "master", "develop"}
    ensures var main := run(MergeBaseProbe(branch, "main")).returncode == 0;
            var master := run(MergeBaseProbe(branch, "master")).returncode == 0;
            var develop := run(MergeBaseProbe(branch, "develop")).returncode == 0;
            && (r == "main" <==> main)
            && (r == "develop" <==> !main && !master && develop)
            && (r == "master" <==> !main && (master || !develop))
  {
    assert BaseCandidates[1..][1..][1..] == [];
    FirstMerging(run, branch, BaseCandidates)
  }

  /** The base a command compares against: the one given, unless it is
      absent or empty, in which case it is probed for. */
  function ResolveBase(run: Git, branch: string, base: Option<string>): (r: string)
    ensures base.Some? && base.value != "" ==> r == base.value
    ensures base.None? || base.value == "" ==> r in {"main", "master", "develop"}
  {
    if base.None? || base.value == "" then GetBaseBranch(run, branch) else base.value
  }

  // ---------------------------------------------------------------- diff, log, files

  /** `get_diff`: the diff from the merge base of the two branches (its
      stripped output) to the branch. Either command failing raises. */
  function GetDiff(run: Git, branch: string, base: Option<string>): (r: Result<string, Error>)
    ensures var b := ResolveBase(run, branch, base);
            var mergeBase := run(["git", "merge-base", b, branch]);
            var diff := run(["git", "diff", Strip(mergeBase.stdout), branch]);
            && (r.Ok? <==> mergeBase.returncode == 0 && diff.returncode == 0)
            && (r.Ok? ==> r.value == diff.stdout)
  {
    var b := ResolveBase(run, branch, base);
    var mergeBase :- Checked(run, ["git", "merge-base", b, branch]);
    Checked(run, ["git", "diff", Strip(mergeBase), branch])
  }

  /** A line of command output that carries text. */
  predicate HasText(line: string) {
    Strip(line) != ""
  }

  /** A line as the cleaning leaves it: stripped, and not empty. */
  predicate IsClean(line: string) {
    line != "" && Strip(line) == line
  }

  /** `[line.strip() for line in lines if line.strip()]` */
  function CleanLines(lines: seq<string>): (r: seq<string>)
    ensures |r| <= |lines|
    ensures forall k | 0 <= k < |r| :: IsClean(r[k])
    decreases |lines|
  {
    if |lines| == 0 then []
    else
      var s := Strip(lines[0]);
      var head := if s != "" then [s] else [];
      var rest := CleanLines(lines[1..]);
      StripIdempotent(lines[0]);
      assert head == [] || IsClean(head[0]);
      head + rest
  }

  /** The cleaned lines are the stripped text lines, one per line that has
      text, in their original order. */
  lemma {:induction false} CleanLinesAreStrippedTextLines(lines: seq<string>)
    ensures CleanLines(lines) == Map(Strip, Filter(lines, HasText))
    decreases |lines|
  {
    if |lines| > 0 {
      MapFilterHead(Strip, HasText, lines);
      CleanLinesAreStrippedTextLines(lines[1..]);
    }
  }

  /** Stripping removes characters and never adds one. */
  lemma StripKeepsAbsent(s: string, c: char)
    requires c !in s
    ensures c !in Strip(s)
  {
    var t := TrimStart(s);
    assert t == s[|s| - |t|..];
    assert Strip(s) == t[..|Strip(s)|];
  }

  /** Cleaning introduces no character that no line holds. */
  lemma CleanLinesKeepsAbsent(lines: seq<string>, c: char)
    requires forall k | 0 <= k < |lines| :: c !in lines[k]
    ensures forall k | 0 <= k < |CleanLines(lines)| :: c !in CleanLines(lines)[k]
  {
    CleanLinesAreStrippedTextLines(lines);
    var kept := Filter(lines, HasText);
    FilterIsSubsequence(lines, HasText);
    SubsequenceMembers(kept, lines);
    assert forall k | 0 <= k < |kept| :: kept[k] in lines;
    StripAllKeepsAbsent(kept, c);
  }

  /** Stripping every line introduces no character either. */
  lemma StripAllKeepsAbsent(lines: seq<string>, c: char)
    requires forall k | 0 <= k < |lines| :: c !in lines[k]
    ensures forall k | 0 <= k < |lines| :: c !in Map(Strip, lines)[k]
  {
    forall k | 0 <= k < |lines|
      ensures c !in Map(Strip, lines)[k]
    {
      StripKeepsAbsent(lines[k], c);
    }
  }

  /** The lines of a command's output, stripped, without the blank ones. */
  function OutputLines(stdout: string): (r: seq<string>)
    ensures forall k | 0 <= k < |r| :: IsClean(r[k]) && '\n' !in r[k]
  {
    var lines := Split(stdout, '\n');
    CleanLinesKeepsAbsent(lines, '\n');
    CleanLines(lines)
  }

  /** Items printed one per line are read back unchanged, provided each is
      already stripped, non-empty and free of newlines. */
  lemma OutputLinesRoundTrip(items: seq<string>)
    requires forall k | 0 <= k < |items| :: IsClean(items[k]) && '\n' !in items[k]
    ensures OutputLines(Join(items, '\n')) == items
  {
    if |items| == 0 {
      assert Split("", '\n') == [""];
      StripEmptyIffBlank("");
    } else {
      SplitJoin(items, '\n');
      CleanLinesKeepsClean(items);
    }
  }

  lemma {:induction false} CleanLinesKeepsClean(items: seq<string>)
    requires forall k | 0 <= k < |items| :: IsClean(items[k])
    ensures CleanLines(items) == items
    decreases |items|
  {
    if |items| > 0 {
      var rest := items[1..];
      assert IsClean(items[0]);
      CleanLinesKeepsClean(rest);
      CleanLinesOfClean(items);
      assert items == [items[0]] + rest;
    }
  }

  /** A clean first line is kept as it is. */
  lemma CleanLinesOfClean(items: seq<string>)
    requires |items| > 0 && IsClean(items[0])
    ensures CleanLines(items) == [items[0]] + CleanLines(items[1..])
  {
    var s := Strip(items[0]);
    assert s == items[0] && s != "";
  }

  /** `get_commit_messages`: the subjects of the commits in `base..branch`. */
  function GetCommitMessages(run: Git, branch: string, base: Option<string>): (r: Result<seq<string>, Error>)
    ensures var command := ["git", "log", ResolveBase(run, branch, base) + ".." + branch, "--pretty=format:%s"];
            && (r.Ok? <==> run(command).returncode == 0)
            && (r.Ok? ==> r.value == OutputLines(run(command).stdout))
  {
    var b := ResolveBase(run, branch, base);
    var out :- Checked(run, ["git", "log", b + ".." + branch, "--pretty=format:%s"]);
    Ok(OutputLines(out))
  }

  /** `get_changed_files`: the paths changed in `base...branch`. */
  function GetChangedFiles(run: Git, branch: string, base: Option<string>): (r: Result<seq<string>, Error>)
    ensures var command := ["git", "diff", "--name-only", ResolveBase(run, branch, base) + "..." + branch];
            && (r.Ok? <==> run(command).returncode == 0)
            && (r.Ok? ==> r.value == OutputLines(run(command).stdout))
  {
    var b := ResolveBase(run, branch, base);
    var out :- Checked(run, ["git", "diff", "--name-only", b + "..." + branch]);
    Ok(OutputLines(out))
  }

  // ---------------------------------------------------------------- the repository

  const GitDirCommand := ["git", "rev-parse", "--git-dir"]

  /** `is_git_repo`: true when the checked `git rev-parse --git-dir` run
      completes, false when it raises. */
  function IsGitRepo(run: Git): (r: bool)
    ensures r <==> run(GitDirCommand).returncode == 0
  {
    match Checked(run, GitDirCommand)
    case Ok(_) => true
    case Err(_) => false
  }

  /** The repository name in a remote URL: one trailing `.git` removed, then
      whatever follows the last `/`. */
  function RepoName(url: string): (name: string)
    ensures '/' !in name
  {
    var trimmed := if EndsWith(url, ".git") then url[..|url| - 4] else url;
    var pieces := Split(trimmed, '/');
    pieces[|pieces| - 1]
  }

  /** The name is the last path segment of the URL, with or without `.git`. */
  lemma RepoNameOfUrl(prefix: string, name: string)
    requires '/' !in name
    ensures RepoName(prefix + "/" + name + ".git") == name
    ensures !EndsWith(name, ".git") ==> RepoName(prefix + "/" + name) == name
  {
    var url := prefix + "/" + name + ".git";
    assert EndsWith(url, ".git");
    assert url[..|url| - 4] == prefix + ['/'] + name;
    SplitLast(prefix, name, '/');
    if !EndsWith(name, ".git") {
      var plain := prefix + "/" + name;
      if |name| >= 4 {
        assert plain[|plain| - 4..] == name[|name| - 4..];
      } else {
        assert plain[|plain| - |name| - 1] == '/';
      }
      assert plain == prefix + ['/'] + name;
    }
  }

  /** A URL without `/` is its own last segment: the name is the whole
      URL, less one trailing `.git`. */
  lemma RepoNameWithoutSlash(url: string)
    requires '/' !in url
    ensures RepoName(url) == (if EndsWith(url, ".git") then url[..|url| - 4] else url)
  {
    var trimmed := if EndsWith(url, ".git") then url[..|url| - 4] else url;
    assert forall k | 0 <= k < |trimmed| :: trimmed[k] == url[k];
    SplitNoSeparator(trimmed, '/');
  }

  const RemoteUrlCommand := ["git", "config", "--get", "remote.origin.url"]
  const LastCommitCommand := ["git", "log", "-1", "--pretty=format:%H %s"]

  /** The dictionary `get_repo_info` returns; a field is `None` when its key
      is absent. */
  datatype RepoInfo = RepoInfo(
    remoteUrl: Option<string>,
    repoName: Option<string>,
    currentBranch: Option<string>,
    lastCommit: Option<string>,
    error: Option<Error>)

  /** `get_repo_info`. Outside a repository it raises. Inside, the remote
      URL and the last commit are read without `check`, so their failure
      only leaves their keys out; a failure to read the current branch is
      recorded under `error`, ends the collection, and keeps what was
      collected before it. */
  function GetRepoInfo(run: Git): (r: Result<RepoInfo, Error>)
    ensures r.Ok? <==> IsGitRepo(run)
    ensures r.Err? ==> r.error == NotARepository
    ensures r.Ok? ==>
              var info := r.value;
              var remote := run(RemoteUrlCommand);
              && (info.remoteUrl.Some? <==> remote.returncode == 0)
              && (info.repoName.Some? <==> remote.returncode == 0)
              && (info.remoteUrl.Some? ==> info.remoteUrl.value == Strip(remote.stdout)
                                           && info.repoName.value == RepoName(Strip(remote.stdout)))
              && (info.error.Some? <==> GetCurrentBranch(run).Err?)
              && (info.error.Some? ==> info.currentBranch.None? && info.lastCommit.None?)
              && (info.error.None? ==> info.currentBranch == Some(GetCurrentBranch(run).value)
                                       && (info.lastCommit.Some? <==> run(LastCommitCommand).returncode == 0)
                                       && (info.lastCommit.Some? ==> info.lastCommit.value == Strip(run(LastCommitCommand).stdout)))
  {
    if !IsGitRepo(run) then Err(NotARepository)
    else
      var remote := run(RemoteUrlCommand);
      var url := Strip(remote.stdout);
      var known := if remote.returncode == 0
        then RepoInfo(Some(url), Some(RepoName(url)), None, None, None)
        else RepoInfo(None, None, None, None, None);
      match GetCurrentBranch(run)
      case Err(e) => Ok(known.(error := Some(e)))
      case Ok(branch) =>
        var last := run(LastCommitCommand);
        Ok(known.(currentBranch := Some(branch),
                  lastCommit := if last.returncode == 0 then Some(Strip(last.stdout)) else None))
  }
}
