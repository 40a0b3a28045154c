/**
 * tools/ssh/check.go: the command checker the SSH tool runs before it
 * sends a command to a remote host. The command is trimmed and
 * lower-cased; then a keyword blacklist, a restricted-path test and the
 * remote-script pattern `(curl|wget).+?\|\s*(bash|sh|python|php)` are tried
 * in that order.
 */
module ToolsSsh {
  import opened GoStrings
  import opened GoRegexp

  /** DangerousCommandChecker: the keyword blacklist and the restricted paths. */
  datatype Checker = Checker(blacklist: seq<string>, restrictedPaths: seq<string>)

  /** NewChecker: the lists the tool is built with. */
  function NewChecker(): Checker {
    Checker(["rm ", "mkfs", "dd ", "shutdown", "reboot", "chmod 777", "chown ", "passwd", ":(){:|:&};:"],
            ["/etc/", "/boot/", "/root/", "/sys/", "/proc/"])
  }

  const BlacklistReason := "包含禁用关键词: "
  const RedirectReason := "禁止通过重定向修改系统目录: "
  const MoveReason := "禁止移动/复制文件到系统目录: "
  const FetchReason := "检测到远程脚本直接执行风险 (curl/wget | sh)"

  /** The text every check looks at. */
  function Normalize(cmd: string): string {
    ToLower(TrimSpace(cmd))
  }

  /** Normalizing twice is normalizing once. */
  lemma NormalizeIdempotent(cmd: string)
    ensures Normalize(Normalize(cmd)) == Normalize(cmd)
  {
    var t := TrimSpace(cmd);
    TrimSpaceTrimmed(cmd);
    ToLowerTrimmed(t);
    TrimSpaceOfTrimmed(ToLower(t));
    ToLowerIdempotent(t);
  }

  /** The command writes somewhere: a redirection, a move or a copy. */
  predicate Writes(t: string) {
    Contains(t, ">") || Contains(t, "mv ") || Contains(t, "cp ")
  }

  /**
   * The restricted-path loop: the first path the command names decides,
   * provided the command writes; a redirection is reported ahead of a move.
   */
  function PathCheck(t: string, paths: seq<string>): (r: Option<string>)
    ensures r.Some? <==> Writes(t) && FirstContained(t, paths) >= 0
    ensures r.Some? ==> r.value == (if Contains(t, ">") then RedirectReason else MoveReason)
                                   + paths[FirstContained(t, paths)]
    decreases |paths|
  {
    if |paths| == 0 then None
    else if Contains(t, ">") && Contains(t, paths[0]) then Some(RedirectReason + paths[0])
    else if (Contains(t, "mv ") || Contains(t, "cp ")) && Contains(t, paths[0]) then Some(MoveReason + paths[0])
    else PathCheck(t, paths[1..])
  }

  /** `curl` or `wget` at i. */
  predicate FetcherAt(s: string, i: int) {
    MatchesAt(s, "curl", i) || MatchesAt(s, "wget", i)
  }

  /** `bash`, `sh`, `python` or `php` at k. */
  predicate ShellAt(s: string, k: int) {
    MatchesAt(s, "bash", k) || MatchesAt(s, "sh", k) || MatchesAt(s, "python", k) || MatchesAt(s, "php", k)
  }

  /**
   * `\|\s*(bash|sh|python|php)` at j. Every alternative begins with a
   * letter, so `\s*` can only end where the run of spaces after the bar ends.
   */
  predicate PipeToShellAt(s: string, j: int) {
    0 <= j < |s| && s[j] == '|' && ShellAt(s, SpaceEnd(s, j + 1))
  }

  /**
   * The remote-fetch pattern matches somewhere: a fetcher at i, then at
   * least one character other than a newline (`.+?`), then a pipe into a
   * shell at j.
   */
  predicate RemoteFetch(s: string) {
    exists i | 0 <= i < |s| :: exists j | i + 4 < j < |s| ::
      FetcherAt(s, i) && '\n' !in s[i + 4..j] && PipeToShellAt(s, j)
  }

  /**
   * IsDangerous: the first blacklisted keyword found, else the first
   * restricted path written to, else the remote-fetch pattern; a safe
   * command gives no reason.
   */
  function IsDangerous(c: Checker, cmd: string): (r: (bool, string))
    ensures FirstContained(Normalize(cmd), c.blacklist) >= 0 ==>
      r == (true, BlacklistReason + c.blacklist[FirstContained(Normalize(cmd), c.blacklist)])
    ensures FirstContained(Normalize(cmd), c.blacklist) < 0 && PathCheck(Normalize(cmd), c.restrictedPaths).Some? ==>
      r == (true, PathCheck(Normalize(cmd), c.restrictedPaths).value)
    ensures r.0 <==> (FirstContained(Normalize(cmd), c.blacklist) >= 0
                   || (Writes(Normalize(cmd)) && FirstContained(Normalize(cmd), c.restrictedPaths) >= 0)
                   || RemoteFetch(Normalize(cmd)))
    ensures !r.0 ==> r.1 == ""
  {
    var t := Normalize(cmd);
    var b := FirstContained(t, c.blacklist);
    if b >= 0 then (true, BlacklistReason + c.blacklist[b])
    else match PathCheck(t, c.restrictedPaths)
      case Some(reason) => (true, reason)
      case None => if RemoteFetch(t) then (true, FetchReason) else (false, "")
  }

  /** Only the trimmed, lower-cased text matters. */
  lemma IsDangerousNormalized(c: Checker, cmd: string)
    ensures IsDangerous(c, Normalize(cmd)) == IsDangerous(c, cmd)
  {
    NormalizeIdempotent(cmd);
  }

  /** isDangerous: the verdict of the built-in checker, without its reason. */
  function IsDangerousCommand(cmd: string): (d: bool)
    ensures d <==> (FirstContained(Normalize(cmd), NewChecker().blacklist) >= 0
                 || (Writes(Normalize(cmd)) && FirstContained(Normalize(cmd), NewChecker().restrictedPaths) >= 0)
                 || RemoteFetch(Normalize(cmd)))
  {
    IsDangerous(NewChecker(), cmd).0
  }

  /** Changing the case of a blacklisted keyword does not get it through. */
  lemma UpperCaseKeywordCaught(cmd: string)
    requires Normalize(cmd) == "rm -rf build"
    ensures IsDangerous(NewChecker(), cmd) == (true, BlacklistReason + "rm ")
  {
    var t := Normalize(cmd);
    assert MatchesAt(t, "rm ", 0);
    ContainsAt(t, "rm ", 0);
  }

  /** A download piped into a shell is caught by the pattern. */
  lemma PipedDownloadCaught(pre: string, url: string, ws: string)
    requires forall k :: 0 <= k < |ws| ==> ReSpace(ws[k])
    requires '\n' !in url && |url| > 0
    ensures RemoteFetch(pre + "curl" + url + "|" + ws + "sh")
  {
    var s := pre + "curl" + url + "|" + ws + "sh";
    var i := |pre|;
    var j := |pre| + 4 + |url|;
    assert s[i..i + 4] == "curl";
    assert s[i + 4..j] == url;
    assert s[j] == '|';
    assert s[j + 1 + |ws|..] == "sh";
    SpaceEndAt(s, j + 1, j + 1 + |ws|);
    assert MatchesAt(s, "sh", SpaceEnd(s, j + 1));
    assert FetcherAt(s, i) && '\n' !in s[i + 4..j] && PipeToShellAt(s, j);
  }
}
