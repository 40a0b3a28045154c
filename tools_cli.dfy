/**
 * tools/cli.go: the shell-command tool. A command is classified against a
 * blacklist table and an ordered list of risky patterns, dangerous
 * commands are refused, and every executed command is logged in a history
 * that keeps the latest 1000 records.
 *
 * Go visits the blacklist map in an unspecified order; the model takes that
 * order as the parameter `order`, any sequence listing exactly the table's
 * keys. Running the shell is the parameter `run` (shell, arguments, timeout
 * in seconds to stdout, stderr and exit code); the start time and duration
 * are parameters as well.
 */
module ToolsCli {
  import opened GoStrings

  datatype Level = Safe | Moderate | Dangerous

  /** CommandDangerousLevel */
  datatype Assessment = Assessment(level: Level, description: string, reasons: seq<string>)

  /** An entry of riskyCommandPatterns. */
  datatype Pattern = Pattern(pattern: string, level: Level, description: string, reason: string)

  /** dangerousCommands */
  const DangerousCommands: map<string, Assessment> := map[
    "rm -rf /" := Assessment(Dangerous, "删除根目录", ["会导致系统完全崩溃"]),
    "rm -rf /*" := Assessment(Dangerous, "删除根目录下所有内容", ["会导致系统完全崩溃"]),
    "mkfs" := Assessment(Dangerous, "格式化文件系统", ["会清除磁盘上的所有数据"]),
    "dd if=/dev/zero" := Assessment(Dangerous, "使用 dd 命令覆盖设备", ["可能永久性擦除数据"]),
    ":(){ :|:& };:" := Assessment(Dangerous, "fork 炸弹", ["会耗尽系统资源"]),
    "chmod -R 777 /" := Assessment(Dangerous, "递归修改根目录权限", ["严重的安全风险"]),
    "chown -R" := Assessment(Dangerous, "递归修改所有者", ["可能破坏系统权限"]),
    "mv /" := Assessment(Dangerous, "移动根目录", ["会破坏系统结构"]),
    "kill -9 -1" := Assessment(Dangerous, "杀死所有进程", ["会导致系统崩溃"]),
    "killall9" := Assessment(Dangerous, "杀死所有进程", ["会导致系统崩溃"])
  ]

  /** riskyCommandPatterns, in the order they are tried. */
  const RiskyPatterns: seq<Pattern> := [
    Pattern("rm -rf", Dangerous, "强制递归删除", "可能意外删除重要文件"),
    Pattern("dd if=", Dangerous, "dd 磁盘写入命令", "可能覆盖重要数据"),
    Pattern("mv /", Dangerous, "移动根目录", "会破坏系统结构"),
    Pattern("chmod 777", Moderate, "设置全局可写权限", "安全风险"),
    Pattern("chmod -R 777", Dangerous, "递归设置全局可写权限", "严重安全风险"),
    Pattern("wget", Moderate, "下载文件", "可能下载恶意内容"),
    Pattern("curl", Moderate, "下载/上传数据", "可能泄露数据或下载恶意内容"),
    Pattern("> /", Dangerous, "重定向到系统目录", "可能破坏系统文件"),
    Pattern("kill -9", Moderate, "强制终止进程", "可能导致数据丢失"),
    Pattern("killall", Moderate, "终止进程组", "可能导致服务中断"),
    Pattern("pkill", Moderate, "终止进程", "可能导致服务中断")
  ]

  const DefaultAssessment := Assessment(Moderate, "常规命令", ["需要监控执行"])

  /** A visiting order of a map: every key, and nothing else. */
  predicate MapOrder(order: seq<string>, table: map<string, Assessment>) {
    (forall k | k in order :: k in table) && (forall k | k in table :: k in order)
  }

  /** The words actually searched for: as written, or folded to lower case. */
  function Keys(words: seq<string>, fold: bool): (ks: seq<string>)
    ensures |ks| == |words|
    ensures forall i :: 0 <= i < |ks| ==> ks[i] == if fold then ToLower(words[i]) else words[i]
  {
    seq(|words|, i requires 0 <= i < |words| => if fold then ToLower(words[i]) else words[i])
  }

  function PatternWords(ps: seq<Pattern>): (ws: seq<string>)
    ensures |ws| == |ps| && forall i :: 0 <= i < |ps| ==> ws[i] == ps[i].pattern
  {
    seq(|ps|, i requires 0 <= i < |ps| => ps[i].pattern)
  }

  function FromPattern(p: Pattern): Assessment {
    Assessment(p.level, p.description, [p.reason])
  }

  /**
   * The classification loops over a lower-cased command t: the first table
   * word found (in the visiting order), else the first pattern found, else
   * the default. `fold` says whether the words are lower-cased too.
   */
  function Classify(t: string, table: map<string, Assessment>, order: seq<string>,
                    ps: seq<Pattern>, fold: bool): (r: Assessment)
    requires MapOrder(order, table)
    ensures FirstContained(t, Keys(order, fold)) >= 0 ==>
      r == table[order[FirstContained(t, Keys(order, fold))]]
    ensures FirstContained(t, Keys(order, fold)) < 0 && FirstContained(t, Keys(PatternWords(ps), fold)) >= 0 ==>
      r == FromPattern(ps[FirstContained(t, Keys(PatternWords(ps), fold))])
    ensures FirstContained(t, Keys(order, fold)) < 0 && FirstContained(t, Keys(PatternWords(ps), fold)) < 0 ==>
      r == DefaultAssessment
  {
    var b := FirstContained(t, Keys(order, fold));
    if b >= 0 then
      assert order[b] in table;
      table[order[b]]
    else
      var p := FirstContained(t, Keys(PatternWords(ps), fold));
      if p >= 0 then FromPattern(ps[p]) else DefaultAssessment
  }

  /** Tables whose entries are dangerous and patterns that are never safe. */
  predicate WellLevelled(table: map<string, Assessment>, ps: seq<Pattern>) {
    (forall k | k in table :: table[k].level == Dangerous)
    && (forall i | 0 <= i < |ps| :: ps[i].level != Safe)
  }

  lemma BuiltInWellLevelled()
    ensures WellLevelled(DangerousCommands, RiskyPatterns)
  {
  }

  /** Nothing is classified safe, and a table hit is dangerous, whatever the visiting order. */
  lemma ClassifyNeverSafe(t: string, table: map<string, Assessment>, order: seq<string>, ps: seq<Pattern>, fold: bool)
    requires MapOrder(order, table) && WellLevelled(table, ps)
    ensures Classify(t, table, order, ps, fold).level != Safe
    ensures FirstContained(t, Keys(order, fold)) >= 0 ==>
      Classify(t, table, order, ps, fold).level == Dangerous && Classify(t, table, order, ps, fold) in table.Values
  {
    var b := FirstContained(t, Keys(order, fold));
    if b >= 0 {
      assert order[b] in table;
    }
  }

  /** Any table word in the text, folded, is a hit. */
  lemma ClassifyHit(t: string, table: map<string, Assessment>, order: seq<string>, ps: seq<Pattern>, k: string)
    requires MapOrder(order, table) && WellLevelled(table, ps)
    requires k in table && Contains(t, ToLower(k))
    ensures Classify(t, table, order, ps, true).level == Dangerous
    ensures Classify(t, table, order, ps, true) in table.Values
  {
    var i := IndexOfKey(order, k);
    assert Keys(order, true)[i] == ToLower(k);
    ClassifyNeverSafe(t, table, order, ps, true);
  }

  /** No hit anywhere gives the default. */
  lemma ClassifyNoHit(t: string, table: map<string, Assessment>, order: seq<string>, ps: seq<Pattern>)
    requires MapOrder(order, table)
    requires forall k | k in table :: !Contains(t, ToLower(k))
    requires forall i | 0 <= i < |ps| :: !Contains(t, ToLower(ps[i].pattern))
    ensures Classify(t, table, order, ps, true) == DefaultAssessment
  {
    forall i | 0 <= i < |order|
      ensures !Contains(t, Keys(order, true)[i])
    {
      assert order[i] in table;
    }
  }

  /** Without a table hit the first pattern in list order decides. */
  lemma ClassifyFirstPattern(t: string, table: map<string, Assessment>, order: seq<string>, ps: seq<Pattern>, p: nat)
    requires MapOrder(order, table)
    requires forall k | k in table :: !Contains(t, ToLower(k))
    requires p < |ps| && Contains(t, ToLower(ps[p].pattern))
    requires forall i | 0 <= i < p :: !Contains(t, ToLower(ps[i].pattern))
    ensures Classify(t, table, order, ps, true) == FromPattern(ps[p])
  {
    forall i | 0 <= i < |order|
      ensures !Contains(t, Keys(order, true)[i])
    {
      assert order[i] in table;
    }
    var ws := Keys(PatternWords(ps), true);
    forall i | 0 <= i < p
      ensures !Contains(t, ws[i])
    {
      assert ws[i] == ToLower(ps[i].pattern);
    }
    FirstContainedAt(t, ws, p);
  }

  /** evaluateCommandSecurity as written: only the command is lower-cased. */
  function EvaluateAsWritten(command: string, order: seq<string>): (r: Assessment)
    requires MapOrder(order, DangerousCommands)
    ensures r.level != Safe
  {
    BuiltInWellLevelled();
    ClassifyNeverSafe(ToLower(command), DangerousCommands, order, RiskyPatterns, false);
    Classify(ToLower(command), DangerousCommands, order, RiskyPatterns, false)
  }

  /** evaluateCommandSecurity with the table's words compared case-insensitively too. */
  function EvaluateCommandSecurity(command: string, order: seq<string>): (r: Assessment)
    requires MapOrder(order, DangerousCommands)
    ensures r.level != Safe
  {
    BuiltInWellLevelled();
    ClassifyNeverSafe(ToLower(command), DangerousCommands, order, RiskyPatterns, true);
    Classify(ToLower(command), DangerousCommands, order, RiskyPatterns, true)
  }

  /** Any blacklist word in the command, in any case, makes it dangerous. */
  lemma BlacklistHitDangerous(command: string, order: seq<string>, k: string)
    requires MapOrder(order, DangerousCommands)
    requires k in DangerousCommands && Contains(ToLower(command), ToLower(k))
    ensures EvaluateCommandSecurity(command, order).level == Dangerous
    ensures EvaluateCommandSecurity(command, order) in DangerousCommands.Values
  {
    BuiltInWellLevelled();
    ClassifyHit(ToLower(command), DangerousCommands, order, RiskyPatterns, k);
  }

  /** A command that contains no word of either list is moderate with the default reason. */
  lemma NoHitDefault(command: string, order: seq<string>)
    requires MapOrder(order, DangerousCommands)
    requires forall k | k in DangerousCommands :: !Contains(ToLower(command), ToLower(k))
    requires forall i | 0 <= i < |RiskyPatterns| :: !Contains(ToLower(command), ToLower(RiskyPatterns[i].pattern))
    ensures EvaluateCommandSecurity(command, order) == DefaultAssessment
  {
    ClassifyNoHit(ToLower(command), DangerousCommands, order, RiskyPatterns);
  }

  /** Without a blacklist hit, the first risky pattern in list order decides. */
  lemma FirstPatternWins(command: string, order: seq<string>, p: nat)
    requires MapOrder(order, DangerousCommands)
    requires forall k | k in DangerousCommands :: !Contains(ToLower(command), ToLower(k))
    requires p < |RiskyPatterns| && Contains(ToLower(command), ToLower(RiskyPatterns[p].pattern))
    requires forall i | 0 <= i < p :: !Contains(ToLower(command), ToLower(RiskyPatterns[i].pattern))
    ensures EvaluateCommandSecurity(command, order) == FromPattern(RiskyPatterns[p])
  {
    ClassifyFirstPattern(ToLower(command), DangerousCommands, order, RiskyPatterns, p);
  }

  /** Where a key sits in a map order. */
  function IndexOfKey(order: seq<string>, k: string): (i: nat)
    requires k in order
    ensures i < |order| && order[i] == k
  {
    if order[0] == k then 0 else 1 + IndexOfKey(order[1..], k)
  }

  /** With the corrected comparison the command's own case does not matter. */
  lemma EvaluateCaseInsensitive(command: string, order: seq<string>)
    requires MapOrder(order, DangerousCommands)
    ensures EvaluateCommandSecurity(ToLower(command), order) == EvaluateCommandSecurity(command, order)
  {
    ToLowerIdempotent(command);
  }

  /** A table word with an upper-case letter never matches as written. */
  lemma UpperWordNeverMatches(command: string, order: seq<string>, i: nat, k: nat)
    requires MapOrder(order, DangerousCommands) && i < |order|
    requires k < |order[i]| && IsUpperAscii(order[i][k])
    ensures FirstContained(ToLower(command), Keys(order, false)) != i
  {
    UpperNeverContained(command, order[i], k);
  }

  /** A word that has a character s lacks is not contained in s. */
  lemma MissingChar(s: string, w: string, k: nat)
    requires k < |w| && w[k] !in s
    ensures !Contains(s, w)
  {
    forall i | 0 <= i && i + |w| <= |s|
      ensures !MatchesAt(s, w, i)
    {
      assert s[i..i + |w|][k] == s[i + k];
    }
    ContainsIff(s, w);
  }

  /** Some character of w is missing from `chown -r u`. */
  predicate LacksChownChar(w: string) {
    'm' in w || 'd' in w || ':' in w || 'R' in w || 'k' in w || 'v' in w || '>' in w || 'p' in w || 'e' in w || 'l' in w
  }

  lemma ChownLacks(w: string)
    requires LacksChownChar(w)
    ensures !Contains("chown -r u", w)
  {
    var t := "chown -r u";
    var c :| c in w && c in "mdRkv>pel:" ;
    var k :| 0 <= k < |w| && w[k] == c;
    MissingChar(t, w, k);
  }

  lemma ChownKeysAbsent(order: seq<string>)
    requires MapOrder(order, DangerousCommands)
    ensures forall i :: 0 <= i < |order| ==> !Contains("chown -r u", order[i])
  {
    forall i | 0 <= i < |order|
      ensures !Contains("chown -r u", order[i])
    {
      assert order[i] in DangerousCommands;
      ChownLacks(order[i]);
    }
  }

  lemma ChownPatternsAbsent()
    ensures forall i :: 0 <= i < |RiskyPatterns| ==> !Contains("chown -r u", RiskyPatterns[i].pattern)
  {
    forall i | 0 <= i < |RiskyPatterns|
      ensures !Contains("chown -r u", RiskyPatterns[i].pattern)
    {
      ChownLacks(RiskyPatterns[i].pattern);
    }
  }

  lemma ChownHit(t: string, key: string)
    requires t == "chown -r u" && key == "chown -R"
    ensures key in DangerousCommands && Contains(t, ToLower(key))
  {
    ChownKey(key);
    ChownLower(key);
    ChownMatch(t);
  }

  lemma ChownKey(key: string)
    requires key == "chown -R"
    ensures key in DangerousCommands
  {
  }

  lemma ChownLower(key: string)
    requires key == "chown -R"
    ensures ToLower(key) == "chown -r"
  {
  }

  lemma ChownMatch(t: string)
    requires t == "chown -r u"
    ensures Contains(t, "chown -r")
  {
    assert MatchesAt(t, "chown -r", 0);
    ContainsAt(t, "chown -r", 0);
  }

  /**
   * `chown -R u` as written falls through every entry to the default
   * moderate verdict, because its lower-cased form `chown -r u` cannot
   * contain `chown -R`; with the corrected comparison it is dangerous.
   */
  lemma ChownRecursiveMissed(cmd: string, order: seq<string>)
    requires cmd == "chown -R u"
    requires MapOrder(order, DangerousCommands)
    ensures EvaluateAsWritten(cmd, order) == DefaultAssessment
    ensures EvaluateCommandSecurity(cmd, order).level == Dangerous
  {
    var t := ToLower(cmd);
    assert t == "chown -r u";
    ChownKeysAbsent(order);
    ChownPatternsAbsent();
    var ks := Keys(order, false);
    var ws := Keys(PatternWords(RiskyPatterns), false);
    assert forall i :: 0 <= i < |ks| ==> !Contains(t, ks[i]);
    assert forall i :: 0 <= i < |ws| ==> !Contains(t, ws[i]);
    ChownHit(t, "chown -R");
    BlacklistHitDangerous(cmd, order, "chown -R");
  }

  /** getSecurityLevelName */
  function SecurityLevelName(l: Level): (n: string)
    ensures n != "未知"
  {
    match l
    case Safe => "安全"
    case Moderate => "中等风险"
    case Dangerous => "危险"
  }

  lemma SecurityLevelNamesDistinct(a: Level, b: Level)
    requires a != b
    ensures SecurityLevelName(a) != SecurityLevelName(b)
  {
  }

  /** The timeout in seconds: 30 unless 1..300 is given; above 300 is refused. */
  function TimeoutSeconds(t: int): (r: Option<int>)
    ensures r.None? <==> t > 300
    ensures r.Some? ==> 1 <= r.value <= 300
    ensures 1 <= t <= 300 ==> r == Some(t)
    ensures t <= 0 ==> r == Some(30)
  {
    if t > 0 && t <= 300 then Some(t) else if t > 300 then None else Some(30)
  }

  /** The shell and its arguments for the operating system `goos`. */
  function ShellCommand(goos: string, command: string): (r: (string, seq<string>))
    ensures |r.1| == 2 && r.1[1] == command
  {
    if goos == "windows" then ("cmd", ["/c", command])
    else if goos == "darwin" || goos == "linux" then ("/bin/bash", ["-c", command])
    else ("/bin/sh", ["-c", command])
  }

  /** CommandExecutionRecord */
  datatype Record = Record(command: string, executedAt: int, exitCode: int, duration: int,
                           securityLevel: Level, approved: bool)

  /** ExecuteCommandResponse; the execution time is kept as the duration. */
  datatype Response = Response(stdout: string, stderr: string, exitCode: int, executionTime: int,
                               securityLevel: string, warningMessage: string, errorMessage: string)

  function ErrorResponse(msg: string): Response {
    Response("", "", 0, 0, "", "", msg)
  }

  function RejectionMessage(a: Assessment): string {
    "命令执行被拒绝：检测到危险命令\n\n危险等级：" + SecurityLevelName(a.level)
    + "\n风险描述：" + a.description + "\n拒绝原因：" + JoinWith(a.reasons, "；")
    + "\n\n出于安全考虑，此命令不会被执行。如需执行，请联系系统管理员。"
  }

  function WarningMessage(a: Assessment): string {
    if a.level == Moderate then "注意：此命令被评估为中等风险 (" + a.description + ")。原因：" + JoinWith(a.reasons, "；")
    else ""
  }

  const HistoryCap := 1000

  /** The latest n elements of h, or all of them when there are fewer. */
  function KeepLast<T>(h: seq<T>, n: nat): (r: seq<T>)
    ensures |r| == if |h| > n then n else |h|
    ensures r == h[|h| - |r|..]
  {
    if |h| > n then h[|h| - n..] else h
  }

  /** GetCommandHistory's limit: 10 unless 1..100 is asked for. */
  function HistoryLimit(limit: int): (n: nat)
    ensures 1 <= n <= 100
    ensures 1 <= limit <= 100 ==> n == limit
  {
    if limit > 0 && limit <= 100 then limit else 10
  }

  /** The package-level command history. */
  class CommandLog {
    var history: seq<Record>

    ghost predicate Valid()
      reads this
    {
      |history| <= HistoryCap
    }

    constructor ()
      ensures history == [] && Valid()
    {
      history := [];
    }

    /**
     * ExecuteCommand: an empty command, a dangerous command and a timeout
     * over 300 seconds are answered with an error and run nothing; any
     * other command runs, is logged, and a moderate one carries a warning.
     */
    method ExecuteCommand(command: string, timeout: int, order: seq<string>, goos: string,
                          run: (string, seq<string>, int) -> (string, string, int),
                          startTime: int, duration: int) returns (resp: Response)
      requires MapOrder(order, DangerousCommands)
      modifies this
      ensures command == "" ==> resp == ErrorResponse("command 参数是必需的") && history == old(history)
      ensures command != "" && EvaluateCommandSecurity(command, order).level == Dangerous ==>
        resp == Response("", "", 0, 0, "危险", "", RejectionMessage(EvaluateCommandSecurity(command, order)))
        && history == old(history)
      ensures command != "" && EvaluateCommandSecurity(command, order).level != Dangerous && timeout > 300 ==>
        resp == ErrorResponse("超时时间不能超过 300 秒") && history == old(history)
      ensures command != "" && EvaluateCommandSecurity(command, order).level != Dangerous && timeout <= 300 ==>
        (var a := EvaluateCommandSecurity(command, order);
         var sh := ShellCommand(goos, command);
         var out := run(sh.0, sh.1, TimeoutSeconds(timeout).value);
         resp == Response(out.0, out.1, out.2, duration, SecurityLevelName(a.level), WarningMessage(a), "")
         && history == KeepLast(old(history) + [Record(command, startTime, out.2, duration, a.level, true)], HistoryCap))
      ensures old(Valid()) ==> Valid()
    {
      if command == "" {
        return ErrorResponse("command 参数是必需的");
      }
      var a := EvaluateCommandSecurity(command, order);
      if a.level == Dangerous {
        return Response("", "", 0, 0, SecurityLevelName(a.level), "", RejectionMessage(a));
      }
      var t := TimeoutSeconds(timeout);
      if t.None? {
        return ErrorResponse("超时时间不能超过 300 秒");
      }
      var sh := ShellCommand(goos, command);
      var out := run(sh.0, sh.1, t.value);
      var rec := Record(command, startTime, out.2, duration, a.level, a.level != Dangerous);
      Log(rec);
      resp := Response(out.0, out.1, out.2, duration, SecurityLevelName(a.level), WarningMessage(a), "");
    }

    /** Appends a record and drops the oldest ones beyond the cap. */
    method Log(rec: Record)
      modifies this
      ensures history == KeepLast(old(history) + [rec], HistoryCap)
    {
      history := history + [rec];
      if |history| > HistoryCap {
        history := history[|history| - HistoryCap..];
      }
    }

    /** GetCommandHistory: the latest `limit` records, oldest first, and the total kept. */
    method GetCommandHistory(limit: int) returns (records: seq<Record>, total: nat)
      ensures total == |history|
      ensures |records| == if |history| > HistoryLimit(limit) then HistoryLimit(limit) else |history|
      ensures records == history[|history| - |records|..]
    {
      var n := HistoryLimit(limit);
      var start := 0;
      if |history| > n {
        start := |history| - n;
      }
      records := history[start..];
      total := |history|;
    }
  }

  /** Logging one more command keeps the latest records, ending with the new one. */
  lemma KeepLastAppend<T>(h: seq<T>, x: T, n: nat)
    requires |h| <= n && n > 0
    ensures |KeepLast(h + [x], n)| == |h| + 1 || |KeepLast(h + [x], n)| == n
    ensures KeepLast(h + [x], n)[|KeepLast(h + [x], n)| - 1] == x
    ensures KeepLast(h + [x], n)[..|KeepLast(h + [x], n)| - 1] == KeepLast(h, n - 1)
  {
  }
}
