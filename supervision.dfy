/** What both registry variants (base.go and controller/platform.go) see of the
    operating system, the errors their operations report, and `getPID`, which
    the two files define identically. Every command the registry runs (`fuser`,
    `kill`, `kill -0`, the supervised `./main` binary) is an oracle: the model
    takes its answer as given and says nothing about how it comes about. */
module Supervision {
  import opened GoText

  /** A command run to completion: what it printed on standard output, or the
      error `exec` reported. */
  datatype CmdResult = Output(stdout: string) | CmdFailed(reason: string)

  /** A command run only for its exit status. */
  datatype RunResult = RunOk | RunFailed(reason: string)

  /** Starting `./main -p=<port>` without waiting for it: the child's process
      id, or the error `Start` reported. */
  datatype SpawnResult = Spawned(pid: int) | SpawnError(reason: string)

  /** The answers the operating system gives during one registry operation. */
  datatype Os = Os(
    fuser: int -> CmdResult,     // `fuser -n tcp <port>`
    spawn: int -> SpawnResult,   // `./main -p=<port>`
    kill: int -> RunResult,      // `kill <pid>`
    probe: int -> bool)          // `kill -0 <pid>` exits with status 0

  /** The outcome of reading and decoding a YAML snapshot: the read failed,
      the decoding failed after filling in `partial`, or it succeeded. */
  datatype Snapshot<T> = ReadFailed(reason: string) | DecodeFailed(partial: T, reason: string) | Decoded(value: T)

  /** The errors the registry operations return. */
  datatype Error =
    | NameTaken(name: string)
    | PortTaken(port: int)
    | NameMissing(name: string)
    | NotRunning(name: string)
    | SpawnFailed(reason: string)
    | KillFailed(reason: string)
    | IoFailed(reason: string)

  /** The text `err.Error()` gives for each error. */
  function ErrorText(e: Error): string
  {
    match e
    case NameTaken(name) => "instance with name " + name + " already exists"
    case PortTaken(port) => "instance with port " + Itoa(port) + " already exists"
    case NameMissing(name) => "instance with name " + name + " not found"
    case NotRunning(name) => "instance " + name + " is not running"
    case SpawnFailed(reason) => reason
    case KillFailed(reason) => reason
    case IoFailed(reason) => reason
  }

  /** How a registry operation ended: normally, with an error, or with a Go
      runtime panic (a nil `*Instance` dereferenced because the name was not
      in the map). A panic unwinds through the deferred unlock; whatever the
      operation changed before it stays changed. */
  datatype Outcome = Done | Failed(error: Error) | Crashed

  /** A call that returns a value or panics. */
  datatype Call<T> = Returns(value: T) | Panics

  /** Why `getPID` found no process. */
  datatype PidError = FuserFailed(reason: string) | NotAPid(text: string, error: NumError)

  /** `getPID(port)`: the process id or the error, each with the integer Go
      returns beside it. */
  datatype PidLookup = PidFound(pid: int) | PidMissing(returned: int, error: PidError)

  /** `getPID(port)`: asks `fuser` who holds the TCP port, trims white space
      from its output and reads one decimal integer from what is left. */
  function GetPid(os: Os, port: int): (r: PidLookup)
    ensures os.fuser(port).CmdFailed? ==> r == PidMissing(0, FuserFailed(os.fuser(port).reason))
    ensures r.PidFound? ==> os.fuser(port).Output? && MinInt <= r.pid <= MaxInt
    ensures r.PidFound? ==>
      var t := TrimSpace(os.fuser(port).stdout);
      t != [] && (IsDigit(t[0]) || t[0] == '-' || t[0] == '+') && forall i :: 0 < i < |t| ==> IsDigit(t[i])
    ensures r.PidMissing? && r.error.NotAPid? && r.error.error == InvalidSyntax ==> r.returned == 0
  {
    match os.fuser(port)
    case CmdFailed(reason) => PidMissing(0, FuserFailed(reason))
    case Output(out) =>
      var text := TrimSpace(out);
      match Atoi(text)
      case Parsed(pid) => PidFound(pid)
      case AtoiError(v, e) => PidMissing(v, NotAPid(text, e))
  }

  /** Stopping the process on `port` succeeds: `fuser` names a process and
      `kill` of that process succeeds. */
  predicate StopSucceeds(os: Os, port: int)
  {
    var l := GetPid(os, port);
    l.PidFound? && os.kill(l.pid).RunOk?
  }

  /** The error a stop of instance `name` on `port` reports when it does not
      succeed. */
  function StopError(os: Os, name: string, port: int): Error
  {
    var l := GetPid(os, port);
    if l.PidMissing? then NotRunning(name)
    else if os.kill(l.pid).RunFailed? then KillFailed(os.kill(l.pid).reason)
    else KillFailed("")
  }

  /** The pid a start records: the spawned child's, or 0 when the spawn failed. */
  function SpawnedPid(s: SpawnResult): int
  {
    if s.Spawned? then s.pid else 0
  }

  /** How a start ends, given what the spawn reported. */
  function SpawnOutcome(s: SpawnResult): Outcome
  {
    if s.Spawned? then Done else Failed(SpawnFailed(s.reason))
  }

  /** How a stop of instance `name` on `port` ends. */
  function StopOutcome(os: Os, name: string, port: int): Outcome
  {
    if StopSucceeds(os, port) then Done else Failed(StopError(os, name, port))
  }

  /** White space only. */
  predicate AllSpace(s: string)
  {
    forall i :: 0 <= i < |s| ==> IsSpace(s[i])
  }

  /** `fuser` printing one process id, with any white space around it, is read
      back as exactly that process id. */
  lemma GetPidReadsOnePid(os: Os, port: int, pre: string, pid: int, post: string)
    requires MinInt <= pid <= MaxInt && AllSpace(pre) && AllSpace(post)
    requires os.fuser(port) == Output(pre + Itoa(pid) + post)
    ensures GetPid(os, port) == PidFound(pid)
  {
    TrimAroundItoa(pre, pid, post);
    AtoiItoa(pid);
  }

  /** Trimming white space around a printed integer leaves the integer. */
  lemma TrimAroundItoa(pre: string, n: int, post: string)
    requires AllSpace(pre) && AllSpace(post)
    ensures TrimSpace(pre + Itoa(n) + post) == Itoa(n)
  {
    var d := Itoa(n);
    ItoaEndsInSign(n);
    calc {
      TrimSpace(pre + d + post);
      TrimRightSpace(TrimLeftSpace(pre + d + post));
    == { assert pre + d + post == pre + (d + post); TrimLeftSpaces(pre, d + post); }
      TrimRightSpace(d + post);
    == { TrimRightSpaces(d, post); }
      d;
    }
  }

  /** A printed integer starts with a sign or a digit and ends in a digit, so
      neither end is white space. */
  lemma ItoaEndsInSign(n: int)
    ensures Itoa(n) != [] && !IsSpace(Itoa(n)[0]) && !IsSpace(Itoa(n)[|Itoa(n)| - 1])
  {
    var d := Itoa(n);
    assert d[0] == '-' || IsDigit(d[0]);
    assert IsDigit(d[|d| - 1]);
  }

  /** Leading white space before a non-space character is all dropped. */
  lemma {:induction false} TrimLeftSpaces(pre: string, s: string)
    requires AllSpace(pre) && s != [] && !IsSpace(s[0])
    ensures TrimLeftSpace(pre + s) == s
    decreases |pre|
  {
    var t := pre + s;
    if pre == [] {
      assert t == s;
    } else {
      assert t[0] == pre[0] && IsSpace(t[0]);
      assert t[1..] == pre[1..] + s;
      TrimLeftSpaces(pre[1..], s);
    }
  }

  /** Trailing white space after a non-space character is all dropped. */
  lemma {:induction false} TrimRightSpaces(s: string, post: string)
    requires AllSpace(post) && s != [] && !IsSpace(s[|s| - 1])
    ensures TrimRightSpace(s + post) == s
    decreases |post|
  {
    if post == [] {
      assert s + post == s;
    } else {
      assert (s + post)[..|s + post| - 1] == s + post[..|post| - 1];
      TrimRightSpaces(s, post[..|post| - 1]);
    }
  }

  /** The order a Go `range` over a map visits its keys in: every key once,
      in an order the language leaves unspecified. */
  method RangeOrder<V>(m: map<string, V>) returns (keys: seq<string>)
    ensures |keys| == |m|
    ensures forall i :: 0 <= i < |keys| ==> keys[i] in m
    ensures forall i, j :: 0 <= i < j < |keys| ==> keys[i] != keys[j]
    ensures forall k :: k in m ==> k in keys
  {
    keys := [];
    var rest := m.Keys;
    while rest != {}
      invariant rest <= m.Keys
      invariant |keys| + |rest| == |m|
      invariant forall i :: 0 <= i < |keys| ==> keys[i] in m && keys[i] !in rest
      invariant forall i, j :: 0 <= i < j < |keys| ==> keys[i] != keys[j]
      invariant forall k :: k in m ==> k in rest || k in keys
      decreases rest
    {
      var k :| k in rest;
      keys := keys + [k];
      rest := rest - {k};
    }
  }

  /** A Go `range` over a map of records that rewrites each record in place
      with `f` and lists the rewritten records in visiting order. */
  method RangeUpdate<V>(m: map<string, V>, f: V -> V) returns (after: map<string, V>, r: seq<V>, keys: seq<string>)
    ensures after.Keys == m.Keys
    ensures forall k :: k in after ==> after[k] == f(m[k])
    ensures |r| == |keys| == |m|
    ensures forall i :: 0 <= i < |keys| ==> keys[i] in after && r[i] == after[keys[i]]
    ensures forall i, j :: 0 <= i < j < |keys| ==> keys[i] != keys[j]
    ensures forall k :: k in m ==> k in keys
  {
    keys := RangeOrder(m);
    after, r := m, [];
    for i := 0 to |keys|
      invariant after.Keys == m.Keys
      invariant |r| == i
      invariant forall j :: i <= j < |keys| ==> after[keys[j]] == m[keys[j]]
      invariant forall j :: 0 <= j < i ==> r[j] == after[keys[j]] == f(m[keys[j]])
    {
      var k := keys[i];
      var v := f(after[k]);
      after := after[k := v];
      r := r + [v];
    }
  }
}
