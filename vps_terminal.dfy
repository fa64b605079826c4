/** The per-server console overlay of the file-routed front end: a list of
    text lines; Enter echoes the trimmed input after a prompt and appends a
    canned reply, and always empties the input. */
module VpsTerminal {
  import opened Common

  /** The lines the overlay opens with. */
  function Banner(vpsId: string): (r: seq<string>)
    ensures |r| == 4 && r[0] == "Connected to VPS " + vpsId
  {
    ["Connected to VPS " + vpsId,
     "Ubuntu 22.04.3 LTS",
     "Last login: Wed Jan 10 14:30:22 2024",
     "user@vps-001:~$ "]
  }

  /** The lines "clear" resets the overlay to. */
  function ResetLines(vpsId: string): (r: seq<string>)
    ensures r == Banner(vpsId)[..1] + Banner(vpsId)[3..]
  {
    ["Connected to VPS " + vpsId, "user@vps-001:~$ "]
  }

  /** The echo of a command. */
  function Echo(vpsId: string, command: string): string
  {
    "user@" + vpsId + ":~$ " + command
  }

  /** The reply to a command, chosen by its lower-cased text; `now` is the
      current date as text. */
  function Reply(command: string, now: string): string
  {
    match ToLower(command)
    case "ls" => "Documents  Downloads  Pictures  Videos  projects"
    case "pwd" => "/home/user"
    case "whoami" => "user"
    case "date" => now
    case "clear" => ""
    case _ => "bash: " + command + ": command not found"
  }

  predicate KnownCommand(key: string)
  {
    key == "ls" || key == "pwd" || key == "whoami" || key == "date" || key == "clear"
  }

  /** Commands that differ only in case get the same reply when the
      command is known; an unknown command's reply names it as typed. */
  lemma ReplyIgnoresCase(a: string, b: string, now: string)
    requires ToLower(a) == ToLower(b)
    ensures KnownCommand(ToLower(a)) ==> Reply(a, now) == Reply(b, now)
    ensures !KnownCommand(ToLower(a)) ==> Reply(a, now) == "bash: " + a + ": command not found"
  {
  }

  /** "LS" is answered like "ls". */
  lemma UpperCaseListing(now: string)
    ensures Reply("LS", now) == "Documents  Downloads  Pictures  Videos  projects"
  {
    assert ToLower("LS") == "ls";
  }

  /** The overlay for server `vpsId`. */
  class VpsConsole {
    const vpsId: string
    var input: string
    var lines: seq<string>

    constructor (vpsId: string)
      ensures this.vpsId == vpsId && input == "" && lines == Banner(vpsId)
    {
      this.vpsId := vpsId;
      input := "";
      lines := Banner(vpsId);
    }

    method Type(text: string)
      modifies this
      ensures input == text && lines == old(lines)
    {
      input := text;
    }

    /** A key press in the input. On Enter a non-blank input is echoed
        (trimmed) and answered. For "clear" the reset of the lines and the
        append of the echo are two updates whose order is not fixed;
        `resetWins` says whether the reset is applied last. */
    method PressKey(key: string, now: string, resetWins: bool)
      modifies this
      ensures key != "Enter" ==> input == old(input) && lines == old(lines)
      ensures key == "Enter" ==> input == ""
      ensures key == "Enter" && Blank(old(input)) ==> lines == old(lines)
      ensures key == "Enter" && !Blank(old(input)) && ToLower(Trim(old(input))) != "clear" ==>
        lines == old(lines) + [Echo(vpsId, Trim(old(input))), Reply(Trim(old(input)), now)]
      ensures key == "Enter" && !Blank(old(input)) && ToLower(Trim(old(input))) == "clear" ==>
        lines == if resetWins then ResetLines(vpsId) else old(lines) + [Echo(vpsId, Trim(old(input))), ""]
    {
      if key == "Enter" {
        TrimEmptyIffBlank(input);
        var command := Trim(input);
        if command != "" {
          var appended := lines + [Echo(vpsId, command), Reply(command, now)];
          if ToLower(command) == "clear" && resetWins {
            lines := ResetLines(vpsId);
          } else {
            lines := appended;
          }
        }
        input := "";
      }
    }
  }
}
