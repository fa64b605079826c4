/** The simulated server console of the client-routed front end: submitted
    commands are echoed after a prompt, looked up (trimmed, ignoring case)
    in a table of canned outputs, and kept in a history that the arrow keys
    walk through. */
module Terminal {
  import opened Common

  datatype EntryKind = CommandEntry | OutputEntry | ErrorEntry

  datatype Entry = Entry(kind: EntryKind, content: string, timestamp: string)

  const Prompt := "admin@vps-server:~$ "

  /** The two entries the console opens with. */
  function InitialEntries(ts: string): (r: seq<Entry>)
    ensures |r| == 2 && forall i :: 0 <= i < 2 ==> r[i].kind == OutputEntry && r[i].timestamp == ts
  {
    [Entry(OutputEntry, "Welcome to VPS Console - Ubuntu 22.04.3 LTS", ts),
     Entry(OutputEntry, "admin@vps-server:~$ Connected successfully", ts)]
  }

  /** The canned outputs of every command the table knows except "date",
      keyed by the exact (already trimmed and lower-cased) command text. */
  const StaticOutputs: map<string, seq<string>> := map[
    "ls" := [
      "documents  scripts  logs  config.json  server.log  backup.tar.gz",
      "index.html  app.js  screenshot.png"],
    "ls -la" := [
      "total 48",
      "drwxr-xr-x 5 admin admin 4096 Jan 16 17:30 .",
      "drwxr-xr-x 3 root  root  4096 Jan 15 10:00 ..",
      "drwxr-xr-x 2 admin admin 4096 Jan 15 14:30 documents",
      "drwxr-xr-x 2 admin admin 4096 Jan 14 09:15 scripts",
      "drwxr-xr-x 2 admin admin 4096 Jan 16 11:22 logs",
      "-rw-r--r-- 1 admin admin 2458 Jan 16 16:45 config.json",
      "-rw-r--r-- 1 admin admin 15925248 Jan 16 17:30 server.log",
      "-rw-r--r-- 1 admin admin 1288490240 Jan 15 02:00 backup.tar.gz"],
    "pwd" := ["/home/admin"],
    "whoami" := ["admin"],
    "uptime" := ["17:32:15 up 15 days,  4:23,  2 users,  load average: 0.45, 0.32, 0.28"],
    "df -h" := [
      "Filesystem      Size  Used Avail Use% Mounted on",
      "/dev/vda1        50G   32G   16G  67% /",
      "tmpfs           2.0G     0  2.0G   0% /dev/shm",
      "/dev/vda2       100G   45G   50G  48% /home"],
    "free -h" := [
      "               total        used        free      shared  buff/cache   available",
      "Mem:           4.0Gi       2.1Gi       0.8Gi       256Mi       1.1Gi       1.5Gi",
      "Swap:          2.0Gi       512Mi       1.5Gi"],
    "ps aux" := [
      "USER         PID %CPU %MEM    VSZ   RSS TTY      STAT START   TIME COMMAND",
      "root           1  0.0  0.1 169404  8932 ?        Ss   Jan15   0:04 /sbin/init",
      "admin       1234  0.5  2.1 998844 86420 ?        Sl   16:30   0:12 node server.js",
      "admin       5678  0.0  0.3  21532  3984 pts/0    Ss   17:15   0:00 -bash"],
    "clear" := [],
    "help" := [
      "Available commands:",
      "  ls, ls -la    - List directory contents",
      "  pwd           - Print working directory",
      "  whoami        - Display current user",
      "  date          - Display current date and time",
      "  uptime        - Show system uptime",
      "  df -h         - Display disk usage",
      "  free -h       - Display memory usage",
      "  ps aux        - List running processes",
      "  clear         - Clear terminal",
      "  help          - Show this help message"]
  ]

  /** The output of a command, looked up by its exact key; `dateLine` is
      the date as text at the time the table was built. */
  function CommandOutput(key: string, dateLine: string): (r: Option<seq<string>>)
    ensures r.Some? <==> key == "date" || key in StaticOutputs
    ensures key == "date" ==> r == Some([dateLine])
    ensures key in StaticOutputs ==> r == Some(StaticOutputs[key])
  {
    if key == "date" then Some([dateLine])
    else if key in StaticOutputs then Some(StaticOutputs[key])
    else None
  }

  /** "clear" is in the table with no output; the empty key is not. */
  lemma CommandTable(dateLine: string)
    ensures CommandOutput("clear", dateLine) == Some([])
    ensures CommandOutput("pwd", dateLine) == Some(["/home/admin"])
    ensures CommandOutput("", dateLine) == None
  {
  }

  /** The lookup key of a typed command. */
  function CommandKey(cmd: string): (r: string)
    ensures r == "" <==> Blank(cmd)
  {
    TrimEmptyIffBlank(cmd);
    ToLower(Trim(cmd))
  }

  /** The output lines of a command as entries. */
  function OutputEntriesOf(lines: seq<string>, ts: string): (r: seq<Entry>)
    ensures |r| == |lines|
    ensures forall i :: 0 <= i < |lines| ==> r[i] == Entry(OutputEntry, lines[i], ts)
  {
    seq(|lines|, i requires 0 <= i < |lines| => Entry(OutputEntry, lines[i], ts))
  }

  /** The log after running `cmd`: "clear" (in any case, with any
      surrounding white space) empties it; otherwise the raw command is
      echoed after the prompt and followed by its output, by nothing when
      it is blank, or by an error naming the raw command. */
  function AfterCommand(entries: seq<Entry>, cmd: string, ts: string, dateLine: string): seq<Entry>
  {
    var key := CommandKey(cmd);
    if key == "clear" then []
    else
      var echoed := entries + [Entry(CommandEntry, Prompt + cmd, ts)];
      match CommandOutput(key, dateLine)
      case Some(lines) => echoed + OutputEntriesOf(lines, ts)
      case None =>
        if key == "" then echoed
        else echoed + [Entry(ErrorEntry, "bash: " + cmd + ": command not found", ts)]
  }

  /** Any command other than "clear" keeps the earlier log as a prefix and
      appends the echo of the raw command, then one output entry per line
      of its output in order, or (for an unknown command) one error naming
      the command as typed. */
  lemma {:induction false} CommandExtendsLog(entries: seq<Entry>, cmd: string, ts: string, dateLine: string)
    requires CommandKey(cmd) != "clear"
    ensures var r := AfterCommand(entries, cmd, ts, dateLine);
      entries <= r && |r| > |entries| && r[|entries|] == Entry(CommandEntry, Prompt + cmd, ts)
      && (CommandOutput(CommandKey(cmd), dateLine).Some? ==>
            r == entries + [Entry(CommandEntry, Prompt + cmd, ts)]
                 + OutputEntriesOf(CommandOutput(CommandKey(cmd), dateLine).value, ts))
      && (CommandOutput(CommandKey(cmd), dateLine).None? && !Blank(cmd) ==>
            r == entries + [Entry(CommandEntry, Prompt + cmd, ts), Entry(ErrorEntry, "bash: " + cmd + ": command not found", ts)])
  {
    var key := CommandKey(cmd);
    var r := AfterCommand(entries, cmd, ts, dateLine);
    var echoed := entries + [Entry(CommandEntry, Prompt + cmd, ts)];
    TrimEmptyIffBlank(cmd);
    assert |ToLower(Trim(cmd))| == |Trim(cmd)|;
    assert r[..|echoed|] == echoed;
    assert echoed[..|entries|] == entries;
  }

  /** "clear", in any case and with any white space around it, empties the
      log; it is the only command that shortens it. */
  lemma ClearEmptiesLog(entries: seq<Entry>, cmd: string, ts: string, dateLine: string)
    ensures CommandKey(cmd) == "clear" ==> AfterCommand(entries, cmd, ts, dateLine) == []
    ensures CommandKey(cmd) != "clear" ==> |AfterCommand(entries, cmd, ts, dateLine)| > |entries|
    ensures CommandKey(" CLEAR ") == "clear"
  {
    if CommandKey(cmd) != "clear" {
      CommandExtendsLog(entries, cmd, ts, dateLine);
    }
    assert TrimStart(" CLEAR ") == "CLEAR ";
    assert TrimEnd("CLEAR ") == "CLEAR" by {
      assert TrimEnd("CLEAR"[..]) == "CLEAR";
      assert "CLEAR "[..5] == "CLEAR";
    }
    assert ToLower("CLEAR") == "clear";
  }

  /** A blank command only echoes the prompt. */
  lemma BlankCommandOnlyEchoes(entries: seq<Entry>, cmd: string, ts: string, dateLine: string)
    requires Blank(cmd)
    ensures AfterCommand(entries, cmd, ts, dateLine) == entries + [Entry(CommandEntry, Prompt + cmd, ts)]
  {
    TrimEmptyIffBlank(cmd);
    assert CommandKey(cmd) == "";
  }

  /** Case and surrounding white space do not matter for the lookup, but
      the echo and the error keep the command as typed. */
  lemma LookupIgnoresCaseAndSpace()
    ensures CommandKey(" PWD ") == "pwd"
    ensures AfterCommand([], " PWD ", "t", "d") ==
      [Entry(CommandEntry, Prompt + " PWD ", "t"), Entry(OutputEntry, "/home/admin", "t")]
  {
    assert TrimStart(" PWD ") == "PWD ";
    assert TrimEnd("PWD ") == "PWD" by {
      assert TrimEnd("PWD"[..]) == "PWD";
      assert "PWD "[..3] == "PWD";
    }
    assert ToLower("PWD") == "pwd";
  }

  /** The history cursor: which entry is recalled (-1 for none) and the
      text in the input. */
  datatype Cursor = Cursor(index: int, command: string)

  predicate CursorInHistory<T>(history: seq<T>, index: int)
  {
    index == -1 || 0 <= index < |history|
  }

  /** ArrowUp recalls the newest command from the sentinel, else the one
      before (staying at the oldest); ArrowDown moves to the next, and past
      the newest back to the sentinel with an empty input; other keys do
      nothing. */
  function KeyDown(history: seq<string>, c: Cursor, key: string): (r: Cursor)
    requires CursorInHistory(history, c.index)
    ensures CursorInHistory(history, r.index)
    ensures key != "ArrowUp" && key != "ArrowDown" ==> r == c
    ensures key == "ArrowUp" && |history| > 0 ==> r.index != -1 && r.command == history[r.index]
    ensures key == "ArrowDown" && c.index != -1 ==> r.index == -1 || r.command == history[r.index]
    ensures key == "ArrowUp" && |history| == 0 ==> r == c
    ensures key == "ArrowUp" && |history| > 0 && c.index == -1 ==> r.index == |history| - 1
    ensures key == "ArrowUp" && c.index > 0 ==> r.index == c.index - 1
    ensures key == "ArrowUp" && c.index == 0 ==> r.index == 0
    ensures key == "ArrowDown" && c.index == -1 ==> r == c
    ensures key == "ArrowDown" && c.index != -1 && c.index + 1 < |history| ==> r.index == c.index + 1
    ensures key == "ArrowDown" && c.index != -1 && c.index + 1 >= |history| ==> r == Cursor(-1, "")
  {
    if key == "ArrowUp" then
      if |history| > 0 then
        var i := if c.index == -1 then |history| - 1 else if c.index - 1 < 0 then 0 else c.index - 1;
        Cursor(i, history[i])
      else c
    else if key == "ArrowDown" then
      if c.index != -1 then
        var i := c.index + 1;
        if i >= |history| then Cursor(-1, "") else Cursor(i, history[i])
      else c
    else c
  }

  /** `k` presses of ArrowUp. */
  function PressUp(history: seq<string>, c: Cursor, k: nat): (r: Cursor)
    requires CursorInHistory(history, c.index)
    ensures CursorInHistory(history, r.index)
    decreases k
  {
    if k == 0 then c else PressUp(history, KeyDown(history, c, "ArrowUp"), k - 1)
  }

  /** From the sentinel, `k` presses of ArrowUp recall the `k`-th newest
      command, and the oldest one once `k` reaches the history's length. */
  lemma {:induction false} RepeatedUpRecalls(history: seq<string>, c: Cursor, k: nat)
    requires |history| > 0 && c.index == -1 && k >= 1
    ensures var r := PressUp(history, c, k);
      r.index == (if |history| - k < 0 then 0 else |history| - k) && r.command == history[r.index]
  {
    var first := KeyDown(history, c, "ArrowUp");
    assert first.index == |history| - 1;
    UpFromIndexRecalls(history, first, k - 1);
  }

  lemma {:induction false} UpFromIndexRecalls(history: seq<string>, c: Cursor, k: nat)
    requires 0 <= c.index < |history| && c.command == history[c.index]
    ensures var r := PressUp(history, c, k);
      r.index == (if c.index - k < 0 then 0 else c.index - k) && r.command == history[r.index]
    decreases k
  {
    if k > 0 {
      UpFromIndexRecalls(history, KeyDown(history, c, "ArrowUp"), k - 1);
    }
  }

  /** ArrowDown undoes ArrowUp: below the oldest entry it returns to the
      command it came from, and from the sentinel it comes back to the
      sentinel with an empty input. */
  lemma DownUndoesUp(history: seq<string>, c: Cursor)
    requires |history| > 0 && CursorInHistory(history, c.index)
    requires c.index != 0
    ensures var back := KeyDown(history, KeyDown(history, c, "ArrowUp"), "ArrowDown");
      back.index == c.index
      && (c.index == -1 ==> back.command == "")
      && (c.index != -1 ==> back.command == history[c.index])
  {
  }

  /** The text the copy button puts on the clipboard: the contents one per
      line. */
  function CopyText(entries: seq<Entry>): string
  {
    Join(seq(|entries|, i requires 0 <= i < |entries| => entries[i].content), '\n')
  }

  /** Splitting the copied text at line breaks gives back the contents of a
      non-empty log none of whose entries spans several lines. */
  lemma CopyTextRoundTrip(entries: seq<Entry>)
    requires |entries| >= 1
    requires forall i :: 0 <= i < |entries| ==> '\n' !in entries[i].content
    ensures Split(CopyText(entries), '\n') == seq(|entries|, i requires 0 <= i < |entries| => entries[i].content)
  {
    SplitJoin(seq(|entries|, i requires 0 <= i < |entries| => entries[i].content), '\n');
  }

  /** One line of the downloaded log. */
  function LogLine(e: Entry): string
  {
    "[" + e.timestamp + "] " + e.content
  }

  /** The text of the downloaded log: each entry as "[timestamp] content",
      one per line. */
  function LogText(entries: seq<Entry>): (r: string)
    ensures entries == [] ==> r == ""
    ensures |entries| == 1 ==> r == LogLine(entries[0])
  {
    Join(seq(|entries|, i requires 0 <= i < |entries| => LogLine(entries[i])), '\n')
  }

  /** Splitting the downloaded text at line breaks gives one
      "[timestamp] content" line per entry, in order, when no timestamp or
      content spans several lines. */
  lemma LogTextRoundTrip(entries: seq<Entry>)
    requires |entries| >= 1
    requires forall i :: 0 <= i < |entries| ==> '\n' !in entries[i].content && '\n' !in entries[i].timestamp
    ensures Split(LogText(entries), '\n') == seq(|entries|, i requires 0 <= i < |entries| => LogLine(entries[i]))
  {
    var lines := seq(|entries|, i requires 0 <= i < |entries| => LogLine(entries[i]));
    forall i | 0 <= i < |lines|
      ensures '\n' !in lines[i]
    {
      var e := entries[i];
      assert lines[i] == "[" + e.timestamp + "] " + e.content;
    }
    SplitJoin(lines, '\n');
  }

  /** The console page. */
  class Console {
    var command: string
    var history: seq<string>
    var historyIndex: int
    var entries: seq<Entry>
    var isConnected: bool

    ghost predicate Valid()
      reads this
    {
      CursorInHistory(history, historyIndex)
    }

    constructor (ts: string)
      ensures Valid()
      ensures command == "" && history == [] && historyIndex == -1 && isConnected
      ensures entries == InitialEntries(ts)
    {
      command, history, historyIndex := "", [], -1;
      entries := InitialEntries(ts);
      isConnected := true;
    }

    /** Add one output entry per line after `log`, as the command handler's
        loop does. */
    static method AppendOutput(log: seq<Entry>, lines: seq<string>, ts: string) returns (r: seq<Entry>)
      ensures |r| == |log| + |lines|
      ensures r[..|log|] == log
      ensures forall i :: 0 <= i < |lines| ==> r[|log| + i] == Entry(OutputEntry, lines[i], ts)
    {
      r := log;
      var k := 0;
      while k < |lines|
        invariant 0 <= k <= |lines|
        invariant |r| == |log| + k
        invariant r[..|log|] == log
        invariant forall i :: 0 <= i < k ==> r[|log| + i] == Entry(OutputEntry, lines[i], ts)
      {
        r := r + [Entry(OutputEntry, lines[k], ts)];
        k := k + 1;
      }
    }

    /** Run `cmd` at time `ts`: it joins the history (even "clear"), the
        recall cursor resets, and the log becomes `AfterCommand`. */
    method ExecuteCommand(cmd: string, ts: string, dateLine: string)
      requires Valid()
      modifies this
      ensures Valid()
      ensures history == old(history) + [cmd] && historyIndex == -1
      ensures entries == AfterCommand(old(entries), cmd, ts, dateLine)
      ensures command == old(command) && isConnected == old(isConnected)
    {
      history := history + [cmd];
      historyIndex := -1;
      var key := CommandKey(cmd);
      if key == "clear" {
        entries := [];
        return;
      }
      var next := entries + [Entry(CommandEntry, Prompt + cmd, ts)];
      var output := CommandOutput(key, dateLine);
      if output.Some? {
        next := AppendOutput(next, output.value, ts);
        assert next == entries + [Entry(CommandEntry, Prompt + cmd, ts)] + OutputEntriesOf(output.value, ts);
      } else if key != "" {
        next := next + [Entry(ErrorEntry, "bash: " + cmd + ": command not found", ts)];
      }
      entries := next;
    }

    /** Submitting the input runs it, resets the recall cursor and empties
        the input, unless it is blank; a blank input changes nothing. */
    method Submit(ts: string, dateLine: string)
      requires Valid()
      modifies this
      ensures Valid()
      ensures Blank(old(command)) ==>
        (history == old(history) && historyIndex == old(historyIndex)
         && entries == old(entries) && command == old(command))
      ensures !Blank(old(command)) ==>
        (history == old(history) + [old(command)] && historyIndex == -1
         && entries == AfterCommand(old(entries), old(command), ts, dateLine) && command == "")
      ensures isConnected == old(isConnected)
    {
      TrimEmptyIffBlank(command);
      if Trim(command) != "" {
        ExecuteCommand(command, ts, dateLine);
        command := "";
      }
    }

    /** Typing sets the input and nothing else. */
    method Type(text: string)
      requires Valid()
      modifies this
      ensures Valid()
      ensures command == text
      ensures history == old(history) && historyIndex == old(historyIndex)
      ensures entries == old(entries) && isConnected == old(isConnected)
    {
      command := text;
    }

    /** The submit button is enabled. */
    function CanSubmit(): (r: bool)
      reads this
      ensures r <==> isConnected && !Blank(command)
    {
      TrimEmptyIffBlank(command);
      isConnected && Trim(command) != ""
    }

    method PressKey(key: string)
      requires Valid()
      modifies this
      ensures Valid()
      ensures Cursor(historyIndex, command) == KeyDown(old(history), Cursor(old(historyIndex), old(command)), key)
      ensures history == old(history) && entries == old(entries) && isConnected == old(isConnected)
    {
      var c := KeyDown(history, Cursor(historyIndex, command), key);
      historyIndex, command := c.index, c.command;
    }

    /** The clear button empties the log and nothing else. */
    method ClearConsole()
      modifies this
      ensures entries == []
      ensures command == old(command) && history == old(history) && historyIndex == old(historyIndex)
      ensures isConnected == old(isConnected)
    {
      entries := [];
    }

    method ToggleConnection()
      modifies this
      ensures isConnected == !old(isConnected)
      ensures command == old(command) && history == old(history) && historyIndex == old(historyIndex)
      ensures entries == old(entries)
    {
      isConnected := !isConnected;
    }
  }
}
