/** The system information service of services/system/system.go: running a
    list of named queries, the host's IPv4 address, the uptime text, and the
    processes using the most memory. The interface address list, the output
    of `uptime -p` and the process table are inputs. */
module SystemInfo {
  import opened GoText
  import opened Results
  import opened NetAddr
  import opened Supervision

  // ---------------------------------------------------------------------
  // Fixed answers
  // ---------------------------------------------------------------------

  /** `GetSubnet()`, `GetNetmask()` and `GetGateway()` are not implemented
      and always answer these texts. */
  const SubnetAnswer := "Subnet not implemented"
  const NetmaskAnswer := "Netmask not implemented"
  const GatewayAnswer := "Gateway not implemented"

  /** What `GetIP()` answers when the interface addresses cannot be listed,
      and when none of them is usable. */
  const ErrorGettingIp := "Error getting IP"
  const NoIpFound := "No IP found"

  // ---------------------------------------------------------------------
  // ExecuteMethods
  // ---------------------------------------------------------------------

  /** The query names `ExecuteMethods` knows. */
  predicate Known(name: string)
  {
    name == "ip" || name == "uptime"
  }

  /** `ExecuteMethods(methods)`, given the answers `GetIP()` and
      `GetUptime()` give: each known name is answered under its own key; the
      first unknown name makes the whole call fail with no partial result. */
  method ExecuteMethods(methods: seq<string>, ip: string, uptime: string) returns (r: Result<map<string, string>, string>)
    ensures r.Err? <==> exists i :: 0 <= i < |methods| && !Known(methods[i])
    ensures r.Err? ==> exists i :: (0 <= i < |methods| && !Known(methods[i])
      && (forall j :: 0 <= j < i ==> Known(methods[j]))
      && r.error == "method " + methods[i] + " not found")
    ensures r.Ok? ==> r.value.Keys == set i | 0 <= i < |methods| :: methods[i]
    ensures r.Ok? && "ip" in r.value ==> r.value["ip"] == ip
    ensures r.Ok? && "uptime" in r.value ==> r.value["uptime"] == uptime
  {
    var results: map<string, string> := map[];
    for k := 0 to |methods|
      invariant forall j :: 0 <= j < k ==> Known(methods[j])
      invariant results.Keys == set j | 0 <= j < k :: methods[j]
      invariant "ip" in results ==> results["ip"] == ip
      invariant "uptime" in results ==> results["uptime"] == uptime
    {
      var name := methods[k];
      if name == "ip" {
        results := results["ip" := ip];
      } else if name == "uptime" {
        results := results["uptime" := uptime];
      } else {
        return Err("method " + name + " not found");
      }
    }
    return Ok(results);
  }

  // ---------------------------------------------------------------------
  // GetIP
  // ---------------------------------------------------------------------

  /** `GetIP()`: the first usable address of the host's interfaces, in list
      order, or one of the two fixed texts. */
  method GetIP(addrs: Result<seq<Addr>, string>) returns (r: string)
    ensures addrs.Err? ==> r == ErrorGettingIp
    ensures addrs.Ok? ==> (r == NoIpFound <==> forall i :: 0 <= i < |addrs.value| ==> !Usable(addrs.value[i]))
    ensures addrs.Ok? && r != NoIpFound ==>
      exists i :: 0 <= i < |addrs.value| && Usable(addrs.value[i]) && r == Text(addrs.value[i])
        && forall j :: 0 <= j < i ==> !Usable(addrs.value[j])
  {
    if addrs.Err? {
      return ErrorGettingIp;
    }
    var list := addrs.value;
    for k := 0 to |list|
      invariant forall j :: 0 <= j < k ==> !Usable(list[j])
    {
      match list[k] {
        case IPNet(ip) =>
          if !IsLoopback(ip) {
            if To4(ip).Some? {
              AddressIsNotAFixedAnswer(list[k]);
              return Text(list[k]);
            }
          }
        case OtherAddr =>
      }
    }
    return NoIpFound;
  }

  /** An address text starts with a digit, so it is never one of the fixed
      answers of `GetIP()`. */
  lemma AddressIsNotAFixedAnswer(a: Addr)
    requires Usable(a)
    ensures Text(a) != NoIpFound && Text(a) != ErrorGettingIp
  {
    var b := To4(a.ip).value;
    var d := Itoa(b[0] as int);
    assert Text(a)[0] == d[0] && IsDigit(d[0]);
  }

  // ---------------------------------------------------------------------
  // Uptime
  // ---------------------------------------------------------------------

  /** `removeNewLines(s)`: every '\n' removed, everything else kept in order. */
  function RemoveNewLines(s: string): (r: string)
    ensures '\n' !in r
    ensures forall x :: x != '\n' ==> multiset(r)[x] == multiset(s)[x]
  {
    RemoveChar(s, '\n')
  }

  /** Removing new lines twice is removing them once. */
  lemma RemoveNewLinesIdempotent(s: string)
    ensures RemoveNewLines(RemoveNewLines(s)) == RemoveNewLines(s)
  {
    RemoveCharAbsent(RemoveNewLines(s), '\n');
  }

  /** The lines around a new line are joined, each keeping its characters
      in order. */
  lemma RemoveNewLinesJoins(a: string, b: string)
    ensures RemoveNewLines(a + "\n" + b) == RemoveNewLines(a) + RemoveNewLines(b)
  {
    assert RemoveChar("\n", '\n') == [] by {
      assert "\n"[1..] == [];
    }
    calc {
      RemoveChar(a + "\n" + b, '\n');
    == { RemoveCharAppend(a + "\n", b, '\n'); }
      RemoveChar(a + "\n", '\n') + RemoveChar(b, '\n');
    == { RemoveCharAppend(a, "\n", '\n'); }
      RemoveChar(a, '\n') + RemoveChar(b, '\n');
    }
  }

  /** A text without new lines is kept as it is. */
  lemma RemoveNewLinesOneLine(s: string)
    requires '\n' !in s
    ensures RemoveNewLines(s) == s
  {
    RemoveCharAbsent(s, '\n');
  }

  /** `GetUptime()`, given what `uptime -p` printed or the error running it
      gave: the printed text without its new lines, or an error text. */
  function GetUptime(output: Result<string, string>): (r: string)
    ensures output.Ok? ==> r == RemoveNewLines(output.value) && '\n' !in r
    ensures output.Ok? ==> forall x :: x != '\n' ==> multiset(r)[x] == multiset(output.value)[x]
    ensures output.Err? ==> HasPrefix(r, "Error getting uptime: ") && r[|"Error getting uptime: "|..] == output.error
  {
    match output
    case Ok(out) => RemoveNewLines(out)
    case Err(e) => "Error getting uptime: " + e
  }

  // ---------------------------------------------------------------------
  // Top processes by memory
  // ---------------------------------------------------------------------

  /** What the process table reports of one process: its id, its name and
      its resident set size in bytes (an unsigned 64-bit count). */
  datatype Proc = Proc(pid: int, name: string, rss: nat)

  /** `topProcess`, without its floating-point CPU figures and its
      human-readable memory text. */
  datatype TopProcess = TopProcess(pid: int, name: string, memoryMB: nat)

  /** The entry built for one process: its resident set size in whole
      mebibytes. */
  function Entry(p: Proc): (t: TopProcess)
    ensures t.pid == p.pid && t.name == p.name
    ensures t.memoryMB * 1048576 <= p.rss < (t.memoryMB + 1) * 1048576
  {
    DivideTwice(p.rss);
    TopProcess(p.pid, p.name, p.rss / 1024 / 1024)
  }

  /** Dividing by 1024 twice rounds down to whole mebibytes. */
  lemma DivideTwice(n: nat)
    ensures n / 1024 / 1024 * 1048576 <= n < (n / 1024 / 1024 + 1) * 1048576
  {
    var k := n / 1024;
    var m := k / 1024;
    assert k * 1024 <= n < k * 1024 + 1024;
    assert m * 1024 <= k < m * 1024 + 1024;
    assert m * 1048576 == m * 1024 * 1024;
  }

  /** Heaviest first: memory never increases along `s`. */
  predicate ByMemory(s: seq<TopProcess>)
  {
    forall p, q :: 0 <= p < q < |s| ==> s[p].memoryMB >= s[q].memoryMB
  }

  /** `GetTopProcessesByMemory(count)`: one entry per process, heaviest
      first (in some order among equals, as `sort.Slice` is not stable),
      cut to the first `count`. A failed process listing is passed on; a
      negative `count` panics at the slice expression. `ranked` is the
      whole sorted list the answer is cut from. */
  method GetTopProcessesByMemory(processes: Result<seq<Proc>, string>, count: int)
    returns (r: Call<Result<seq<TopProcess>, string>>, ghost ranked: seq<TopProcess>)
    ensures processes.Err? ==> r == Returns(Err(processes.error))
    ensures r.Panics? <==> processes.Ok? && count < 0
    ensures processes.Ok? && count >= 0 ==>
      && r.Returns? && r.value.Ok?
      && |ranked| == |processes.value|
      && |r.value.value| == (if count < |processes.value| then count else |processes.value|)
      && r.value.value == ranked[..|r.value.value|]
      && ByMemory(ranked)
      && multiset(ranked) == multiset(seq(|processes.value|, i requires 0 <= i < |processes.value| => Entry(processes.value[i])))
    ensures processes.Ok? && count >= 0 ==>
      forall i, j :: 0 <= i < |r.value.value| <= j < |ranked| ==> r.value.value[i].memoryMB >= ranked[j].memoryMB
  {
    ranked := [];
    if processes.Err? {
      return Returns(Err(processes.error)), ranked;
    }
    var procs := processes.value;
    var top: seq<TopProcess> := [];
    for k := 0 to |procs|
      invariant top == seq(k, i requires 0 <= i < k => Entry(procs[i]))
    {
      top := top + [Entry(procs[k])];
    }
    var a := new TopProcess[|top|](i requires 0 <= i < |top| => top[i]);
    assert a[..] == top;
    SortByMemory(a);
    var sorted := a[..];
    ranked := sorted;
    if |sorted| > count {
      if count < 0 {
        return Panics, ranked;
      }
      return Returns(Ok(sorted[..count])), ranked;
    }
    assert sorted[..|sorted|] == sorted;
    return Returns(Ok(sorted)), ranked;
  }

  /** The `sort.Slice` call: `a` rearranged so that the heaviest comes
      first. */
  method SortByMemory(a: array<TopProcess>)
    modifies a
    ensures ByMemory(a[..])
    ensures multiset(a[..]) == multiset(old(a[..]))
  {
    for i := 0 to a.Length
      invariant forall p, q :: 0 <= p < q < i ==> a[p].memoryMB >= a[q].memoryMB
      invariant multiset(a[..]) == multiset(old(a[..]))
    {
      Insert(a, i);
    }
  }

  /** One insertion step: the entry at `i` moves left past every lighter
      entry of the sorted prefix before it. */
  method Insert(a: array<TopProcess>, i: int)
    requires 0 <= i < a.Length
    requires forall p, q :: 0 <= p < q < i ==> a[p].memoryMB >= a[q].memoryMB
    modifies a
    ensures forall p, q :: 0 <= p < q <= i ==> a[p].memoryMB >= a[q].memoryMB
    ensures multiset(a[..]) == multiset(old(a[..]))
  {
    var j := i;
    while j > 0 && a[j - 1].memoryMB < a[j].memoryMB
      invariant 0 <= j <= i
      invariant forall p, q :: 0 <= p < q <= i && p != j && q != j ==> a[p].memoryMB >= a[q].memoryMB
      invariant forall q :: j < q <= i ==> a[j].memoryMB > a[q].memoryMB
      invariant multiset(a[..]) == multiset(old(a[..]))
    {
      Swap(a, j - 1, j);
      j := j - 1;
    }
  }

  /** Two entries of `a` trade places; nothing else moves. */
  method Swap(a: array<TopProcess>, x: int, y: int)
    requires 0 <= x < a.Length && 0 <= y < a.Length
    modifies a
    ensures a[x] == old(a[y]) && a[y] == old(a[x])
    ensures forall p :: 0 <= p < a.Length && p != x && p != y ==> a[p] == old(a[p])
    ensures multiset(a[..]) == multiset(old(a[..]))
  {
    a[x], a[y] := a[y], a[x];
  }
}
