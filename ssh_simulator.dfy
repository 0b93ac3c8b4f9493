/**
 * The simulated remote shell behind the `aura_ssh_command` tool
 * (`simulateSSHCommand` in services/geminiService.ts): a fixed table of
 * command prefixes with canned output, tested in order.
 */
module SshSimulator {
  import opened Types
  import opened JsStrings

  const LsOutput: string :=
    "drwxr-xr-x  5 user  staff   160 Nov 12 10:00 project_alpha\n"
    + "-rw-r--r--  1 user  staff  2048 Nov 11 14:30 main.py\n"
    + "-rw-r--r--  1 user  staff   512 Nov 10 09:15 config.json"
  const PwdOutput: string := "/home/probotics/workspace"
  const WhoamiOutput: string := "probotics_agent_v3"
  const CatConfigOutput: string :=
    "{\n  \"env\": \"production\",\n  \"db\": \"postgres://localhost:5432/core\"\n}"
  const PingOutput: string :=
    "PING google.com (142.250.190.46): 56 data bytes\n"
    + "64 bytes from 142.250.190.46: icmp_seq=0 ttl=118 time=14.2 ms\n"
    + "64 bytes from 142.250.190.46: icmp_seq=1 ttl=118 time=13.8 ms"
  const GitStatusOutput: string :=
    "On branch feature/neural-link\nChanges not staged for commit:\n  modified: src/core/synapse.ts"

  /** The command table in the order the simulator tests it. */
  const CommandTable: seq<(string, string)> := [
    ("ls", LsOutput),
    ("pwd", PwdOutput),
    ("whoami", WhoamiOutput),
    ("cat config.json", CatConfigOutput),
    ("ping", PingOutput),
    ("git status", GitStatusOutput)
  ]

  /** The simulator's view of a command: trimmed, then lower-cased. */
  function NormalizeShellCommand(command: string): string {
    ToLower(Trim(command))
  }

  function CommandNotFound(cmd: string): string {
    "bash: " + FirstWord(cmd) + ": command not found"
  }

  /** The output of the first table entry whose prefix `cmd` starts with. */
  function FirstMatch(table: seq<(string, string)>, cmd: string): Option<string> {
    if table == [] then None
    else if StartsWith(cmd, table[0].0) then Some(table[0].1)
    else FirstMatch(table[1..], cmd)
  }

  /** `FirstMatch` finds nothing exactly when no prefix matches, and otherwise
      the output of a matching entry with no matching entry before it. */
  lemma {:induction false} FirstMatchSpec(table: seq<(string, string)>, cmd: string)
    ensures FirstMatch(table, cmd).None? <==> forall k :: 0 <= k < |table| ==> !StartsWith(cmd, table[k].0)
    ensures FirstMatch(table, cmd).Some? ==>
      exists k :: 0 <= k < |table| && StartsWith(cmd, table[k].0) && FirstMatch(table, cmd).value == table[k].1
        && (forall j :: 0 <= j < k ==> !StartsWith(cmd, table[j].0))
  {
    if table != [] && !StartsWith(cmd, table[0].0) {
      FirstMatchSpec(table[1..], cmd);
      assert forall k :: 1 <= k < |table| ==> table[k] == table[1..][k - 1];
      if FirstMatch(table, cmd).Some? {
        var k :| 0 <= k < |table[1..]| && StartsWith(cmd, table[1..][k].0) && FirstMatch(table, cmd).value == table[1..][k].1
          && (forall j :: 0 <= j < k ==> !StartsWith(cmd, table[1..][j].0));
        assert table[k + 1] == table[1..][k];
        assert forall j :: 1 <= j < k + 1 ==> table[j] == table[1..][j - 1];
      }
    }
  }

  /** The reply to an already normalized command: the first prefix that matches wins. */
  function Respond(cmd: string): string {
    if StartsWith(cmd, "ls") then LsOutput
    else if StartsWith(cmd, "pwd") then PwdOutput
    else if StartsWith(cmd, "whoami") then WhoamiOutput
    else if StartsWith(cmd, "cat config.json") then CatConfigOutput
    else if StartsWith(cmd, "ping") then PingOutput
    else if StartsWith(cmd, "git status") then GitStatusOutput
    else CommandNotFound(cmd)
  }

  /** `simulateSSHCommand`. */
  function SimulateSshCommand(command: string): string {
    Respond(NormalizeShellCommand(command))
  }

  /** The chain of prefix tests is exactly a first-match lookup in the table;
      a command matching no prefix gets bash's "command not found" for its first word. */
  lemma RespondIsTableLookup(cmd: string)
    ensures Respond(cmd) ==
      match FirstMatch(CommandTable, cmd)
      case Some(out) => out
      case None => CommandNotFound(cmd)
  {
    var t0 := CommandTable;
    var t1 := t0[1..];
    var t2 := t1[1..];
    var t3 := t2[1..];
    var t4 := t3[1..];
    var t5 := t4[1..];
    assert t0[0] == ("ls", LsOutput);
    assert t1[0] == ("pwd", PwdOutput);
    assert t2[0] == ("whoami", WhoamiOutput);
    assert t3[0] == ("cat config.json", CatConfigOutput);
    assert t4[0] == ("ping", PingOutput);
    assert t5 == [("git status", GitStatusOutput)];
    assert FirstMatch(t5, cmd) == if StartsWith(cmd, "git status") then Some(GitStatusOutput) else None by {
      assert t5[1..] == [];
    }
    assert FirstMatch(t4, cmd) == if StartsWith(cmd, "ping") then Some(PingOutput) else FirstMatch(t5, cmd);
    assert FirstMatch(t3, cmd) == if StartsWith(cmd, "cat config.json") then Some(CatConfigOutput) else FirstMatch(t4, cmd);
    assert FirstMatch(t2, cmd) == if StartsWith(cmd, "whoami") then Some(WhoamiOutput) else FirstMatch(t3, cmd);
    assert FirstMatch(t1, cmd) == if StartsWith(cmd, "pwd") then Some(PwdOutput) else FirstMatch(t2, cmd);
    assert FirstMatch(t0, cmd) == if StartsWith(cmd, "ls") then Some(LsOutput) else FirstMatch(t1, cmd);
  }

  /** The simulator answers a command by table lookup on its normalized form. */
  lemma SimulateIsTableLookup(command: string)
    ensures var cmd := NormalizeShellCommand(command);
      SimulateSshCommand(command) ==
        match FirstMatch(CommandTable, cmd)
        case Some(out) => out
        case None => CommandNotFound(cmd)
  {
    RespondIsTableLookup(NormalizeShellCommand(command));
  }

  /** Normalizing twice is normalizing once. */
  lemma NormalizeIdempotent(command: string)
    ensures NormalizeShellCommand(Trim(command)) == NormalizeShellCommand(command)
    ensures NormalizeShellCommand(ToLower(command)) == NormalizeShellCommand(command)
  {
    TrimIdempotent(command);
    TrimLower(command);
    ToLowerIdempotent(Trim(command));
  }

  /** The simulator ignores surrounding whitespace and letter case. */
  lemma SimulateIgnoresCaseAndSpacing(command: string)
    ensures SimulateSshCommand(Trim(command)) == SimulateSshCommand(command)
    ensures SimulateSshCommand(ToLower(command)) == SimulateSshCommand(command)
  {
    NormalizeIdempotent(command);
  }

  /** Output for a command that matches no prefix names its first word. */
  lemma UnknownCommandReport(command: string)
    requires forall k :: 0 <= k < |CommandTable| ==> !StartsWith(NormalizeShellCommand(command), CommandTable[k].0)
    ensures var cmd := NormalizeShellCommand(command);
      SimulateSshCommand(command) == "bash: " + FirstWord(cmd) + ": command not found"
  {
    var cmd := NormalizeShellCommand(command);
    FirstMatchSpec(CommandTable, cmd);
    SimulateIsTableLookup(command);
  }
}
