/** The OpenVPN status report of services/info/openvpn.go: which of six
    known phrases occur in the output of `systemctl status openvpn@client`,
    and the IPv4 address of the tunnel interface `tun0`. The `systemctl`
    output and the interface's address list are inputs. */
module OpenVpn {
  import opened GoText
  import opened Results
  import opened NetAddr

  const Active := "Active: active (running)"
  const Dead := "Active: inactive (dead)"
  const StatusOk := "Status: Initialization Sequence Completed"
  const ProcessRestarting := "received, process restarting"
  const CouldNotDetermineProtocol := "Could not determine IPv4/IPv6 protocol"
  const CannotResolveHostAddress := "Cannot resolve host address"

  /** The six phrases, in the order the report checks them. */
  const Markers := [Active, Dead, StatusOk, ProcessRestarting, CouldNotDetermineProtocol, CannotResolveHostAddress]

  /** What `Ip` says when `tun0` has no usable address. */
  const NoTunnelIp := "ip not found on interface tun0"

  /** `VPNStatus`: one flag per phrase, the phrases found, and the tunnel
      address. */
  datatype VpnStatus = VpnStatus(
    active: bool,
    dead: bool,
    statusOk: bool,
    processRestarting: bool,
    couldNotDetermineProtocol: bool,
    cannotResolveHostAddress: bool,
    messages: seq<string>,
    ip: string)

  /** The six flags, in the order of `Markers`. */
  function Flags(v: VpnStatus): seq<bool>
  {
    [v.active, v.dead, v.statusOk, v.processRestarting, v.couldNotDetermineProtocol, v.cannotResolveHostAddress]
  }

  /** How many of `flags` are set. */
  function CountSet(flags: seq<bool>): nat
  {
    if flags == [] then 0 else CountSet(flags[..|flags| - 1]) + (if flags[|flags| - 1] then 1 else 0)
  }

  /** The phrases of `markers` that occur in `data`, in the order of
      `markers`. */
  function Found(data: string, markers: seq<string>): seq<string>
  {
    if markers == [] then []
    else
      var last := markers[|markers| - 1];
      Found(data, markers[..|markers| - 1]) + (if Contains(data, last) then [last] else [])
  }

  /** `Found` keeps exactly the phrases that occur, and no more of them than
      there are. */
  lemma {:induction false} FoundMembers(data: string, markers: seq<string>)
    ensures |Found(data, markers)| <= |markers|
    ensures forall m :: m in Found(data, markers) <==> m in markers && Contains(data, m)
    decreases |markers|
  {
    if markers != [] {
      var init := markers[..|markers| - 1];
      FoundMembers(data, init);
      assert markers == init + [markers[|markers| - 1]];
    }
  }

  /** One phrase found per flag set: with one flag per phrase, set exactly
      when the phrase occurs, `Found` has as many phrases as flags are set. */
  lemma {:induction false} FoundCount(data: string, markers: seq<string>, flags: seq<bool>)
    requires |flags| == |markers|
    requires forall k :: 0 <= k < |markers| ==> (flags[k] <==> Contains(data, markers[k]))
    ensures |Found(data, markers)| == CountSet(flags)
    decreases |markers|
  {
    if markers != [] {
      var n := |markers| - 1;
      FoundCount(data, markers[..n], flags[..n]);
    }
  }

  /** `Found` over a prefix grows by the next phrase exactly when it occurs. */
  lemma FoundStep(data: string, markers: seq<string>, k: int)
    requires 0 <= k < |markers|
    ensures Found(data, markers[..k + 1]) == Found(data, markers[..k]) + (if Contains(data, markers[k]) then [markers[k]] else [])
  {
    assert markers[..k + 1][..k] == markers[..k];
  }

  /** `OpenVPNStatus()`: a failed `systemctl` call is passed on; otherwise
      each flag is set exactly when its phrase occurs, `messages` lists the
      phrases found in the fixed order (one per set flag), and `ip` is the
      tunnel's last usable address or the placeholder. */
  method OpenVpnStatus(status: Result<string, string>, tun0: seq<Addr>) returns (r: Result<VpnStatus, string>)
    ensures status.Err? ==> r == Err(status.error)
    ensures status.Ok? ==> r.Ok?
    ensures r.Ok? ==> forall k :: 0 <= k < 6 ==> (Flags(r.value)[k] <==> Contains(status.value, Markers[k]))
    ensures r.Ok? ==> r.value.messages == Found(status.value, Markers)
    ensures r.Ok? ==> |r.value.messages| == CountSet(Flags(r.value))
    ensures r.Ok? ==> (r.value.ip == NoTunnelIp <==> forall i :: 0 <= i < |tun0| ==> !Usable(tun0[i]))
    ensures r.Ok? && r.value.ip != NoTunnelIp ==>
      exists i :: 0 <= i < |tun0| && Usable(tun0[i]) && r.value.ip == Text(tun0[i]) &&
        forall j :: i < j < |tun0| ==> !Usable(tun0[j])
  {
    if status.Err? {
      return Err(status.error);
    }
    var flags, message := Classify(status.value, Markers);
    var ip := TunnelAddress(tun0);
    var out := VpnStatus(flags[0], flags[1], flags[2], flags[3], flags[4], flags[5], message, ip);
    SixFlags(flags);
    return Ok(out);
  }

  /** The `ip` of the report: the tunnel's last usable address, or the
      placeholder when `getInternalIP()` answers "". */
  method TunnelAddress(tun0: seq<Addr>) returns (ip: string)
    ensures ip == NoTunnelIp <==> forall i :: 0 <= i < |tun0| ==> !Usable(tun0[i])
    ensures ip != NoTunnelIp ==>
      exists i :: 0 <= i < |tun0| && Usable(tun0[i]) && ip == Text(tun0[i]) &&
        forall j :: i < j < |tun0| ==> !Usable(tun0[j])
  {
    ip := NoTunnelIp;
    var tunnelIp := GetInternalIp(tun0);
    if tunnelIp != "" {
      ip := tunnelIp;
      PlaceholderIsNoAddress(tun0, tunnelIp);
    }
  }

  /** The six checks of `OpenVPNStatus`, in the order of `markers`: one flag
      per phrase, and the phrases found. */
  method Classify(data: string, markers: seq<string>) returns (flags: seq<bool>, message: seq<string>)
    requires |markers| == 6
    ensures |flags| == 6
    ensures forall k :: 0 <= k < 6 ==> (flags[k] <==> Contains(data, markers[k]))
    ensures message == Found(data, markers)
    ensures |message| == CountSet(flags)
  {
    message, flags := [], [];
    var found;
    assert markers[..0] == [];
    found, flags, message := Check(data, markers, flags, message);
    found, flags, message := Check(data, markers, flags, message);
    found, flags, message := Check(data, markers, flags, message);
    found, flags, message := Check(data, markers, flags, message);
    found, flags, message := Check(data, markers, flags, message);
    found, flags, message := Check(data, markers, flags, message);
    assert markers[..6] == markers;
    FoundCount(data, markers, flags);
  }

  /** After the check of the phrase at `|flags|`, the flags still say
      exactly which phrases occur and `message` is `Found` of the phrases
      checked so far. */
  lemma FlagStep(data: string, markers: seq<string>, flags: seq<bool>, found: bool, message: seq<string>)
    requires |flags| < |markers|
    requires forall k :: 0 <= k < |flags| ==> (flags[k] <==> Contains(data, markers[k]))
    requires found == Contains(data, markers[|flags|])
    requires message == Found(data, markers[..|flags|]) + (if found then [markers[|flags|]] else [])
    ensures forall k :: 0 <= k < |flags| + 1 ==> ((flags + [found])[k] <==> Contains(data, markers[k]))
    ensures message == Found(data, markers[..|flags| + 1])
  {
    FoundStep(data, markers, |flags|);
  }

  /** A six-flag sequence is the display of its six elements. */
  lemma SixFlags(flags: seq<bool>)
    requires |flags| == 6
    ensures [flags[0], flags[1], flags[2], flags[3], flags[4], flags[5]] == flags
  {
  }

  /** One of the six checks, the one of the phrase at `|flags|`: whether it
      occurs in `data`, the flags with that answer added, and the phrase
      list with the phrase appended when it occurs. */
  method Check(data: string, markers: seq<string>, flags: seq<bool>, message: seq<string>)
    returns (found: bool, flagsAfter: seq<bool>, extended: seq<string>)
    requires |flags| < |markers|
    requires forall k :: 0 <= k < |flags| ==> (flags[k] <==> Contains(data, markers[k]))
    requires message == Found(data, markers[..|flags|])
    ensures found == Contains(data, markers[|flags|])
    ensures flagsAfter == flags + [found]
    ensures forall k :: 0 <= k < |flagsAfter| ==> (flagsAfter[k] <==> Contains(data, markers[k]))
    ensures extended == Found(data, markers[..|flagsAfter|])
  {
    var marker := markers[|flags|];
    found, extended := false, message;
    if Contains(data, marker) {
      found := true;
      extended := message + [marker];
    }
    FlagStep(data, markers, flags, found, extended);
    flagsAfter := flags + [found];
  }

  /** No address a service reports is the placeholder text. */
  lemma PlaceholderIsNoAddress(tun0: seq<Addr>, ip: string)
    requires exists i :: 0 <= i < |tun0| && Usable(tun0[i]) && ip == Text(tun0[i])
    ensures ip != NoTunnelIp
  {
    var i :| 0 <= i < |tun0| && Usable(tun0[i]) && ip == Text(tun0[i]);
    var b := To4(tun0[i].ip).value;
    var d := Itoa(b[0] as int);
    assert ip[0] == d[0] && IsDigit(d[0]);
  }

  /** The status text of a service that is both reported running and
      reported dead sets both flags: the flags are independent. */
  lemma ActiveAndDeadTogether()
    ensures Contains(Active + "\n" + Dead, Active) && Contains(Active + "\n" + Dead, Dead)
  {
    var data := Active + "\n" + Dead;
    assert OccursAt(data, Active, 0) by {
      assert data[..|Active|] == Active;
    }
    assert OccursAt(data, Dead, |Active| + 1) by {
      assert data[|Active| + 1..] == Dead;
    }
  }

  /** `getInternalIP()`: the last usable address of `tun0` in list order, or
      "" when there is none. A missing interface is an empty list. */
  method GetInternalIp(addrs: seq<Addr>) returns (r: string)
    ensures r == "" <==> forall i :: 0 <= i < |addrs| ==> !Usable(addrs[i])
    ensures r != "" ==>
      exists i :: 0 <= i < |addrs| && Usable(addrs[i]) && r == Text(addrs[i]) &&
        forall j :: i < j < |addrs| ==> !Usable(addrs[j])
  {
    var ip: Option<Addr> := None;
    ghost var at := -1;
    var k := 0;
    while k < |addrs|
      invariant 0 <= k <= |addrs|
      invariant ip.None? <==> forall i :: 0 <= i < k ==> !Usable(addrs[i])
      invariant ip.Some? ==> 0 <= at < k && addrs[at] == ip.value && Usable(ip.value)
      invariant ip.Some? ==> forall j :: at < j < k ==> !Usable(addrs[j])
    {
      var addr := addrs[k];
      match addr {
        case IPNet(v) =>
          if !IsLoopback(v) {
            if To4(v).Some? {
              ip, at := Some(addr), k;
            }
          }
        case OtherAddr =>
      }
      k := k + 1;
    }
    if ip.Some? {
      return Text(ip.value);
    }
    return "";
  }
}
