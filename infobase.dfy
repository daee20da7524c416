/** `cleanCommand` of services/info/base.go: the output of a command with its
    trailing new lines cut off. The command, its error and the debug flags
    only decide what is logged, which is not modelled; they are parameters
    so that the result can be shown not to depend on them. */
module InfoBase {
  import opened GoText
  import opened Results

  /** A command as `cleanCommand` logs it: its text and its path. */
  datatype Cmd = Cmd(text: string, path: string)

  /** `cleanCommand(resp, cmd, err, debug...)`. */
  function CleanCommand(resp: string, cmd: Cmd, err: Option<string>, debug: seq<bool>): (r: string)
    ensures r == [] || r[|r| - 1] != '\n'
    ensures |r| <= |resp| && r == resp[..|r|]
    ensures forall i :: |r| <= i < |resp| ==> resp[i] == '\n'
  {
    TrimRightChar(resp, '\n')
  }

  /** Cleaning is idempotent. */
  lemma CleanCommandIdempotent(resp: string, cmd: Cmd, err: Option<string>, debug: seq<bool>)
    ensures CleanCommand(CleanCommand(resp, cmd, err, debug), cmd, err, debug) == CleanCommand(resp, cmd, err, debug)
  {
  }

  /** Output that does not end in a new line is returned as it is. */
  lemma CleanCommandKeepsLastLine(resp: string, cmd: Cmd, err: Option<string>, debug: seq<bool>)
    requires resp == [] || resp[|resp| - 1] != '\n'
    ensures CleanCommand(resp, cmd, err, debug) == resp
  {
  }

  /** Only the new lines at the very end go: a text followed by any number
      of new lines is cleaned back to that text, whatever new lines it holds
      inside. */
  lemma {:induction false} CleanCommandTrailing(body: string, n: nat, cmd: Cmd, err: Option<string>, debug: seq<bool>)
    requires body == [] || body[|body| - 1] != '\n'
    ensures CleanCommand(body + seq(n, _ => '\n'), cmd, err, debug) == body
    decreases n
  {
    var s := body + seq(n, _ => '\n');
    if n == 0 {
      assert s == body;
    } else {
      assert s[..|s| - 1] == body + seq(n - 1, _ => '\n');
      CleanCommandTrailing(body, n - 1, cmd, err, debug);
    }
  }

  /** The command, its error and the debug flags never change the result. */
  lemma CleanCommandIgnoresLogging(resp: string, c1: Cmd, e1: Option<string>, d1: seq<bool>, c2: Cmd, e2: Option<string>, d2: seq<bool>)
    ensures CleanCommand(resp, c1, e1, d1) == CleanCommand(resp, c2, e2, d2)
  {
  }
}
