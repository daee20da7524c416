/** The instance registry of controller/platform.go, the variant the HTTP
    server uses: the same operations as base.go on records that also carry an
    address and an error note, a status query and a listing that refresh
    what they report, and the gin handlers that turn each outcome into a
    reply. A handler whose operation panics answers 500 with no body (gin's
    recovery middleware). */
module Platform {
  import opened GoText
  import opened Results
  import opened Supervision
  import opened ControllerBase

  /** One supervised service: name, address, TCP port, last recorded process
      id (0 when none) and the last error note. */
  datatype Instance = Instance(name: string, ip: string, port: int, pid: int, error: string)

  /** The note `GetAllInstances` leaves on a record whose port has no process. */
  const NotRunningNote := "instance isn't running"

  /** What `GetInstanceStatus` puts in front of the process id (sic). */
  const StatusPrefix := "ruuning with PID: "

  const CreatedMessage := "Instance created successfully"
  const StartedMessage := "Instance started successfully"
  const StoppedMessage := "Instance stopped successfully"
  const RestartedMessage := "Instance restarted successfully"
  const DeletedMessage := "Instance deleted successfully"
  const NotFoundMessage := "Instance not found"
  const BadPortMessage := "unable get port"

  /** Some record in `m` uses `port`. */
  predicate PortInUse(m: map<string, Instance>, port: int)
  {
    exists k :: k in m && m[k].port == port
  }

  /** No two records share a port. */
  predicate PortsDistinct(m: map<string, Instance>)
  {
    forall a, b :: a in m && b in m && a != b ==> m[a].port != m[b].port
  }

  /** Every record is filed under its own name. */
  predicate NamesMatchKeys(m: map<string, Instance>)
  {
    forall k :: k in m ==> m[k].name == k
  }

  /** Nothing is left running on `port` once a stop has been tried: no process
      holds it, or the `kill` of the one that does succeeds. */
  predicate StoppedOrIdle(os: Os, port: int)
  {
    GetPid(os, port).PidMissing? || StopSucceeds(os, port)
  }

  /** The record `AddInstance` inserts before starting it: no address, no
      process, no error note. */
  function Fresh(name: string, port: int): Instance
  {
    Instance(name, "", port, 0, "")
  }

  /** One record as `GetAllInstances` rewrites it: the pid becomes whatever
      `getPID` returned for its port (0 when `fuser` failed), and a failed
      lookup sets the note, which a later success never clears. */
  function Refreshed(i: Instance, os: Os): (r: Instance)
    ensures r.name == i.name && r.ip == i.ip && r.port == i.port
    ensures GetPid(os, i.port).PidFound? ==> r.pid == GetPid(os, i.port).pid && r.error == i.error
    ensures GetPid(os, i.port).PidMissing? ==> r.error == NotRunningNote && r.pid == GetPid(os, i.port).returned
    ensures os.fuser(i.port).CmdFailed? ==> r.pid == 0
    ensures i.error == NotRunningNote ==> r.error == NotRunningNote
  {
    match GetPid(os, i.port)
    case PidFound(pid) => i.(pid := pid)
    case PidMissing(returned, _) => i.(pid := returned, error := NotRunningNote)
  }

  /** Refreshing against the same answers twice changes nothing more. */
  lemma RefreshedIdempotent(i: Instance, os: Os)
    ensures Refreshed(Refreshed(i, os), os) == Refreshed(i, os)
  {
  }

  /** The JSON gin writes for a record: the struct has only YAML tags, so the
      members carry the Go field names. */
  function InstanceJson(i: Instance): (r: Json)
    ensures r.JObj? && r.fields.Keys == {"Name", "IP", "Port", "PID", "Error"}
    ensures r.fields["Name"] == JStr(i.name) && r.fields["IP"] == JStr(i.ip) && r.fields["Port"] == JInt(i.port)
    ensures r.fields["PID"] == JInt(i.pid) && r.fields["Error"] == JStr(i.error)
  {
    JObj(map["Name" := JStr(i.name), "IP" := JStr(i.ip), "Port" := JInt(i.port), "PID" := JInt(i.pid), "Error" := JStr(i.error)])
  }

  /** The JSON list of records, in the order given. */
  function InstancesJson(s: seq<Instance>): (r: seq<Json>)
    ensures |r| == |s| && forall i :: 0 <= i < |s| ==> r[i] == InstanceJson(s[i])
  {
    if s == [] then [] else [InstanceJson(s[0])] + InstancesJson(s[1..])
  }

  /** The text of the error `getPID` returns: `exec`'s own message, or the
      `strconv.Atoi` error, which quotes the trimmed output with
      `strconv.Quote`. */
  function PidErrorText(e: PidError): string
  {
    match e
    case FuserFailed(reason) => reason
    case NotAPid(text, InvalidSyntax) => "strconv.Atoi: parsing " + Quote(text) + ": invalid syntax"
    case NotAPid(text, OutOfRange) => "strconv.Atoi: parsing " + Quote(text) + ": value out of range"
  }

  /** The reply of the start, stop and restart handlers: 200 with the success
      message, 400 with the error text, or 500 with no body when the
      operation panicked. */
  function OutcomeReply(st: Outcome, success: string): (r: Response)
    ensures r.code == StatusOK <==> st.Done?
    ensures r.code == StatusBadRequest <==> st.Failed?
    ensures r.code == StatusInternalServerError <==> st.Crashed?
    ensures r.body == NoBody <==> st.Crashed?
    ensures st.Done? ==> r.body == JsonBody(Single("message", success))
    ensures st.Failed? ==> r.body == JsonBody(Single("error", ErrorText(st.error)))
  {
    match st
    case Done => Response(StatusOK, JsonBody(Single("message", success)))
    case Failed(e) => Response(StatusBadRequest, JsonBody(Single("error", ErrorText(e))))
    case Crashed => Response(StatusInternalServerError, NoBody)
  }

  /** What `ProxyHandler` does: answer by itself, or forward the request to
      `http://<host>`. */
  datatype ProxyReply = Answered(resp: Response) | Forwarded(host: string)

  class Controller {
    var Instances: map<string, Instance>

    /** The registry the router creates: an empty map. */
    constructor Empty()
      ensures Instances == map[]
    {
      Instances := map[];
    }

    /** `LoadFromFile`: a failed read leaves the registry alone; otherwise the
        whole map is replaced by what the decoder produced, even when it then
        reports an error. */
    method LoadFromFile(file: Snapshot<map<string, Instance>>) returns (st: Outcome)
      modifies this
      ensures file.ReadFailed? ==> st == Failed(IoFailed(file.reason)) && Instances == old(Instances)
      ensures file.DecodeFailed? ==> st == Failed(IoFailed(file.reason)) && Instances == file.partial
      ensures file.Decoded? ==> st == Done && Instances == file.value
    {
      match file
      case ReadFailed(reason) =>
        return Failed(IoFailed(reason));
      case DecodeFailed(partial, reason) =>
        Instances := partial;
        return Failed(IoFailed(reason));
      case Decoded(value) =>
        Instances := value;
        return Done;
    }

    /** `SaveToFile`: the whole map is what gets written; `write` is how the
        file write ended. The registry itself is not changed. */
    method SaveToFile(write: RunResult) returns (st: Outcome, snapshot: map<string, Instance>)
      ensures snapshot == Instances
      ensures st == Done <==> write.RunOk?
      ensures write.RunFailed? ==> st == Failed(IoFailed(write.reason))
    {
      snapshot := Instances;
      if write.RunFailed? {
        return Failed(IoFailed(write.reason)), snapshot;
      }
      return Done, snapshot;
    }

    /** `AddInstance` as written: refuses a name already present, then a port
        already used, and otherwise inserts a fresh record (with no address)
        and starts its process. A failed spawn is reported but its record
        stays, with pid 0. */
    method AddInstance(name: string, port: int, os: Os) returns (st: Outcome)
      modifies this
      ensures name in old(Instances) ==> st == Failed(NameTaken(name)) && Instances == old(Instances)
      ensures name !in old(Instances) && PortInUse(old(Instances), port) ==>
        st == Failed(PortTaken(port)) && Instances == old(Instances)
      ensures name !in old(Instances) && !PortInUse(old(Instances), port) ==>
        && Instances == old(Instances)[name := Fresh(name, port).(pid := SpawnedPid(os.spawn(port)))]
        && st == SpawnOutcome(os.spawn(port))
      ensures PortsDistinct(old(Instances)) ==> PortsDistinct(Instances)
      ensures NamesMatchKeys(old(Instances)) ==> NamesMatchKeys(Instances)
    {
      if name in Instances {
        return Failed(NameTaken(name));
      }
      var rest := Instances.Keys;
      while rest != {}
        invariant rest <= Instances.Keys
        invariant forall k :: k in Instances && k !in rest ==> Instances[k].port != port
        decreases rest
      {
        var k :| k in rest;
        if Instances[k].port == port {
          return Failed(PortTaken(port));
        }
        rest := rest - {k};
      }
      Instances := Instances[name := Fresh(name, port)];
      st := StartInstance(name, os);
    }

    /** `AddInstance` corrected: a failed spawn also takes the new record out
        again, so every failure leaves the registry as it was and the same
        name can be added once more. */
    method AddRollingBack(name: string, port: int, os: Os) returns (st: Outcome)
      modifies this
      ensures st != Crashed
      ensures st != Done ==> Instances == old(Instances)
      ensures st == Done <==> name !in old(Instances) && !PortInUse(old(Instances), port) && os.spawn(port).Spawned?
      ensures st == Done ==> Instances == old(Instances)[name := Fresh(name, port).(pid := os.spawn(port).pid)]
      ensures name in old(Instances) ==> st == Failed(NameTaken(name))
      ensures name !in old(Instances) && PortInUse(old(Instances), port) ==> st == Failed(PortTaken(port))
      ensures name !in old(Instances) && !PortInUse(old(Instances), port) && os.spawn(port).SpawnError? ==>
        st == Failed(SpawnFailed(os.spawn(port).reason))
      ensures PortsDistinct(old(Instances)) ==> PortsDistinct(Instances)
      ensures NamesMatchKeys(old(Instances)) ==> NamesMatchKeys(Instances)
    {
      ghost var before := Instances;
      st := AddInstance(name, port, os);
      if st.Failed? && st.error.SpawnFailed? {
        Instances := Instances - {name};
        assert Instances == before;
      }
    }

    /** `DeleteInstance` as written: it removes the record and only then calls
        `StopInstance`, which looks the name up again, finds nothing and
        dereferences nil. Deleting a present name therefore always panics,
        with the record gone and its process never signalled. */
    method DeleteInstance(name: string, os: Os) returns (st: Outcome)
      modifies this
      ensures name !in old(Instances) ==> st == Failed(NameMissing(name)) && Instances == old(Instances)
      ensures name in old(Instances) ==> st == Crashed && Instances == old(Instances) - {name}
    {
      if name !in Instances {
        return Failed(NameMissing(name));
      }
      Instances := Instances - {name};
      st := StopInstance(name, os);
    }

    /** `DeleteInstance` corrected: the process is stopped while its record is
        still there, and an instance with no process on its port counts as
        stopped. The record is then removed. Only a failed `kill` is
        reported, and it keeps the record, whose process still runs. It
        never panics. */
    method DeleteStoppingFirst(name: string, os: Os) returns (st: Outcome)
      modifies this
      ensures name !in old(Instances) ==> st == Failed(NameMissing(name)) && Instances == old(Instances)
      ensures st == Done <==> name in old(Instances) && StoppedOrIdle(os, old(Instances)[name].port)
      ensures st == Done ==> Instances == old(Instances) - {name}
      ensures name in old(Instances) && !StoppedOrIdle(os, old(Instances)[name].port) ==>
        st == Failed(StopError(os, name, old(Instances)[name].port)) && st.error.KillFailed? && Instances == old(Instances)
      ensures st != Crashed
      ensures PortsDistinct(old(Instances)) ==> PortsDistinct(Instances)
      ensures NamesMatchKeys(old(Instances)) ==> NamesMatchKeys(Instances)
    {
      if name !in Instances {
        return Failed(NameMissing(name));
      }
      st := StopInstance(name, os);
      if st.Failed? && st.error.NotRunning? {
        st := Done;
      }
      if st == Done {
        Instances := Instances - {name};
      }
    }

    /** `StartInstance`: spawns `./main -p=<port>` for a present record and
        stores the child's pid; an absent name panics before any spawn. */
    method StartInstance(name: string, os: Os) returns (st: Outcome)
      modifies this
      ensures name !in old(Instances) ==> st == Crashed && Instances == old(Instances)
      ensures name in old(Instances) ==>
        var spawn := os.spawn(old(Instances)[name].port);
        && st == SpawnOutcome(spawn)
        && Instances == (if spawn.Spawned? then old(Instances)[name := old(Instances)[name].(pid := spawn.pid)] else old(Instances))
    {
      if name !in Instances {
        return Crashed;
      }
      var spawn := os.spawn(Instances[name].port);
      match spawn
      case SpawnError(reason) =>
        return Failed(SpawnFailed(reason));
      case Spawned(pid) =>
        Instances := Instances[name := Instances[name].(pid := pid)];
        return Done;
    }

    /** `StopInstance`: kills whatever process `fuser` reports on the
        record's port (never the stored pid) and, only when that kill
        succeeds, records pid 0. */
    method StopInstance(name: string, os: Os) returns (st: Outcome)
      modifies this
      ensures name !in old(Instances) ==> st == Crashed && Instances == old(Instances)
      ensures name in old(Instances) ==>
        && st == StopOutcome(os, name, old(Instances)[name].port)
        && Instances == (if st == Done then old(Instances)[name := old(Instances)[name].(pid := 0)] else old(Instances))
    {
      if name !in Instances {
        return Crashed;
      }
      var lookup := GetPid(os, Instances[name].port);
      if lookup.PidMissing? {
        return Failed(NotRunning(name));
      }
      var killed := os.kill(lookup.pid);
      if killed.RunFailed? {
        return Failed(KillFailed(killed.reason));
      }
      Instances := Instances[name := Instances[name].(pid := 0)];
      return Done;
    }

    /** `RestartInstance`: a stop and then a start; when the stop fails the
        error is returned and nothing is spawned. */
    method RestartInstance(name: string, os: Os) returns (st: Outcome)
      modifies this
      ensures name !in old(Instances) ==> st == Crashed && Instances == old(Instances)
      ensures name in old(Instances) && !StopSucceeds(os, old(Instances)[name].port) ==>
        st == Failed(StopError(os, name, old(Instances)[name].port)) && Instances == old(Instances)
      ensures name in old(Instances) && StopSucceeds(os, old(Instances)[name].port) ==>
        var spawn := os.spawn(old(Instances)[name].port);
        && Instances == old(Instances)[name := old(Instances)[name].(pid := SpawnedPid(spawn))]
        && st == SpawnOutcome(spawn)
    {
      ghost var before := Instances;
      st := StopInstance(name, os);
      if st != Done {
        return;
      }
      ghost var mid := Instances;
      st := StartInstance(name, os);
      RestartEffect(before, mid, Instances, name, os.spawn(before[name].port));
    }

    /** The record a restart leaves: the stop's pid 0, overwritten by the
        spawned pid when the spawn succeeds. */
    static lemma RestartEffect(before: map<string, Instance>, mid: map<string, Instance>, after: map<string, Instance>, name: string, spawn: SpawnResult)
      requires name in before && mid == before[name := before[name].(pid := 0)]
      requires after == (if spawn.Spawned? then mid[name := mid[name].(pid := spawn.pid)] else mid)
      ensures after == before[name := before[name].(pid := SpawnedPid(spawn))]
    {
    }

    /** `GetInstanceStatus`: "PID not found" when no process holds the
        record's port, otherwise the misspelt "ruuning with PID: " followed
        by that process id, which reads back as the same number; an absent
        name panics. Nothing is changed. */
    method GetInstanceStatus(name: string, os: Os) returns (r: Call<string>)
      ensures r == Panics <==> name !in Instances
      ensures r == Returns("PID not found") <==> name in Instances && GetPid(os, Instances[name].port).PidMissing?
      ensures name in Instances && GetPid(os, Instances[name].port).PidFound? ==>
        && r.Returns? && HasPrefix(r.value, StatusPrefix)
        && Atoi(r.value[|StatusPrefix|..]) == Parsed(GetPid(os, Instances[name].port).pid)
    {
      if name !in Instances {
        return Panics;
      }
      var lookup := GetPid(os, Instances[name].port);
      if lookup.PidMissing? {
        return Returns("PID not found");
      }
      AtoiItoa(lookup.pid);
      var text := StatusPrefix + Itoa(lookup.pid);
      assert text[|StatusPrefix|..] == Itoa(lookup.pid);
      assert text[0] != "PID not found"[0];
      return Returns(text);
    }

    /** `GetAllInstances`: refreshes every record in place (see `Refreshed`)
        and lists each one once, in the map's unspecified iteration order,
        which `order` names. */
    method GetAllInstances(os: Os) returns (r: seq<Instance>, ghost order: seq<string>)
      modifies this
      ensures Instances.Keys == old(Instances).Keys
      ensures forall k :: k in Instances ==> Instances[k] == Refreshed(old(Instances)[k], os)
      ensures |r| == |order| == |Instances|
      ensures forall i :: 0 <= i < |order| ==> order[i] in Instances && r[i] == Instances[order[i]]
      ensures forall i, j :: 0 <= i < j < |order| ==> order[i] != order[j]
      ensures forall k :: k in Instances ==> k in order
    {
      var before := Instances;
      var records, keys;
      records, r, keys := RangeUpdate(before, i => Refreshed(i, os));
      forall k | k in records
        ensures records[k] == Refreshed(before[k], os)
      {
      }
      order := keys;
      Instances := records;
    }

    /** `CreateInstance`: a body that does not decode is refused with 400;
        then the record is added with `AddInstance` as written and the
        registry saved. A refused add answers 400 with nothing changed. A
        failed spawn answers 400 as well, but the new record stays in memory
        with pid 0 and is not saved. A failed save answers 500 with the added
        record kept in memory, and otherwise the reply is 200. Only the name
        and the port of the body are used. `written` is the snapshot handed
        to the file write, when one is made. */
    method CreateInstance(body: Result<Instance, string>, os: Os, write: RunResult)
      returns (resp: Response, written: Option<map<string, Instance>>)
      modifies this
      ensures body.Err? ==>
        resp == Response(StatusBadRequest, JsonBody(Single("error", body.error))) && Instances == old(Instances) && written == None
      ensures body.Ok? && body.value.name in old(Instances) ==>
        resp == Response(StatusBadRequest, JsonBody(Single("error", ErrorText(NameTaken(body.value.name)))))
      ensures body.Ok? && body.value.name !in old(Instances) && PortInUse(old(Instances), body.value.port) ==>
        resp == Response(StatusBadRequest, JsonBody(Single("error", ErrorText(PortTaken(body.value.port)))))
      ensures body.Ok? ==>
        var name, port := body.value.name, body.value.port;
        var free := name !in old(Instances) && !PortInUse(old(Instances), port);
        var spawn := os.spawn(port);
        && (!free ==> Instances == old(Instances) && written == None)
        && (free ==> Instances == old(Instances)[name := Fresh(name, port).(pid := SpawnedPid(spawn))])
        && (free && spawn.SpawnError? ==> resp == Response(StatusBadRequest, JsonBody(Single("error", spawn.reason))) && written == None)
        && (free && spawn.Spawned? ==> written == Some(Instances))
        && (free && spawn.Spawned? && write.RunFailed? ==> resp == Response(StatusInternalServerError, JsonBody(Single("error", write.reason))))
        && (free && spawn.Spawned? && write.RunOk? ==> resp == Response(StatusOK, JsonBody(Single("message", CreatedMessage))))
    {
      if body.Err? {
        return Response(StatusBadRequest, JsonBody(Single("error", body.error))), None;
      }
      var st := AddInstance(body.value.name, body.value.port, os);
      resp, written := AddedReply(st, write);
    }

    /** `CreateInstance` on the corrected add: every refused add, a failed
        spawn included, answers 400 with the registry as it was, so the same
        body can be sent again. */
    method CreateInstanceCorrected(body: Result<Instance, string>, os: Os, write: RunResult)
      returns (resp: Response, written: Option<map<string, Instance>>)
      modifies this
      ensures body.Err? ==>
        resp == Response(StatusBadRequest, JsonBody(Single("error", body.error))) && Instances == old(Instances) && written == None
      ensures body.Ok? ==>
        var name, port := body.value.name, body.value.port;
        var added := name !in old(Instances) && !PortInUse(old(Instances), port) && os.spawn(port).Spawned?;
        && (added ==> Instances == old(Instances)[name := Fresh(name, port).(pid := os.spawn(port).pid)] && written == Some(Instances))
        && (!added ==> Instances == old(Instances) && resp.code == StatusBadRequest && written == None)
        && (added && write.RunFailed? ==> resp == Response(StatusInternalServerError, JsonBody(Single("error", write.reason))))
        && (added && write.RunOk? ==> resp == Response(StatusOK, JsonBody(Single("message", CreatedMessage))))
      ensures body.Ok? && body.value.name in old(Instances) ==>
        resp == Response(StatusBadRequest, JsonBody(Single("error", ErrorText(NameTaken(body.value.name)))))
    {
      if body.Err? {
        return Response(StatusBadRequest, JsonBody(Single("error", body.error))), None;
      }
      var st := AddRollingBack(body.value.name, body.value.port, os);
      resp, written := AddedReply(st, write);
    }

    /** The rest of `CreateInstance` once the add has run: a failed add
        answers 400, and otherwise the registry is saved, answering 500 when
        the write fails and 200 when it succeeds. */
    method AddedReply(st: Outcome, write: RunResult) returns (resp: Response, written: Option<map<string, Instance>>)
      requires st != Crashed
      ensures st.Failed? ==> resp == Response(StatusBadRequest, JsonBody(Single("error", ErrorText(st.error)))) && written == None
      ensures st.Done? ==> written == Some(Instances)
      ensures st.Done? && write.RunFailed? ==> resp == Response(StatusInternalServerError, JsonBody(Single("error", write.reason)))
      ensures st.Done? && write.RunOk? ==> resp == Response(StatusOK, JsonBody(Single("message", CreatedMessage)))
    {
      if st.Failed? {
        return Response(StatusBadRequest, JsonBody(Single("error", ErrorText(st.error)))), None;
      }
      var saved, snapshot := SaveToFile(write);
      written := Some(snapshot);
      if saved.Failed? {
        return Response(StatusInternalServerError, JsonBody(Single("error", ErrorText(saved.error)))), written;
      }
      resp := Response(StatusOK, JsonBody(Single("message", CreatedMessage)));
    }

    /** `StartInstanceHandler`: the name from the query goes to
        `StartInstance` unchecked, so an unknown name answers 500. */
    method StartInstanceHandler(name: string, os: Os) returns (resp: Response)
      modifies this
      ensures name !in old(Instances) ==> resp == Response(StatusInternalServerError, NoBody) && Instances == old(Instances)
      ensures name in old(Instances) ==>
        var spawn := os.spawn(old(Instances)[name].port);
        && resp == OutcomeReply(SpawnOutcome(spawn), StartedMessage)
        && Instances == old(Instances)[name := old(Instances)[name].(pid := if spawn.Spawned? then spawn.pid else old(Instances)[name].pid)]
    {
      var st := StartInstance(name, os);
      resp := OutcomeReply(st, StartedMessage);
    }

    /** `StopInstanceHandler`: the name goes to `StopInstance` unchecked, so
        an unknown name answers 500. */
    method StopInstanceHandler(name: string, os: Os) returns (resp: Response)
      modifies this
      ensures name !in old(Instances) ==> resp == Response(StatusInternalServerError, NoBody) && Instances == old(Instances)
      ensures name in old(Instances) ==>
        var stopped := StopSucceeds(os, old(Instances)[name].port);
        && resp == OutcomeReply(StopOutcome(os, name, old(Instances)[name].port), StoppedMessage)
        && Instances == old(Instances)[name := old(Instances)[name].(pid := if stopped then 0 else old(Instances)[name].pid)]
    {
      var st := StopInstance(name, os);
      resp := OutcomeReply(st, StoppedMessage);
    }

    /** `RestartInstanceHandler`: the name goes to `RestartInstance`
        unchecked, so an unknown name answers 500; a failed stop answers 400
        with nothing spawned. */
    method RestartInstanceHandler(name: string, os: Os) returns (resp: Response)
      modifies this
      ensures name !in old(Instances) ==> resp == Response(StatusInternalServerError, NoBody) && Instances == old(Instances)
      ensures name in old(Instances) && !StopSucceeds(os, old(Instances)[name].port) ==>
        resp == OutcomeReply(Failed(StopError(os, name, old(Instances)[name].port)), RestartedMessage) && Instances == old(Instances)
      ensures name in old(Instances) && StopSucceeds(os, old(Instances)[name].port) ==>
        var spawn := os.spawn(old(Instances)[name].port);
        && resp == OutcomeReply(SpawnOutcome(spawn), RestartedMessage)
        && Instances == old(Instances)[name := old(Instances)[name].(pid := SpawnedPid(spawn))]
    {
      var st := RestartInstance(name, os);
      resp := OutcomeReply(st, RestartedMessage);
    }

    /** `DeleteInstanceHandler` as written: an unknown name answers 400 with
        nothing changed. For a present name `DeleteInstance` removes the
        record and then panics, so the reply is 500 with no body, the process
        is never signalled and the registry is never saved: the next load
        brings the record back. */
    method DeleteInstanceHandler(name: string, os: Os, write: RunResult)
      returns (resp: Response, written: Option<map<string, Instance>>)
      modifies this
      ensures name !in old(Instances) ==>
        resp == Response(StatusBadRequest, JsonBody(Single("error", ErrorText(NameMissing(name))))) && Instances == old(Instances)
      ensures name in old(Instances) ==>
        resp == Response(StatusInternalServerError, NoBody) && Instances == old(Instances) - {name}
      ensures written == None
    {
      var st := DeleteInstance(name, os);
      resp, written := DeletedReply(st, write);
    }

    /** `DeleteInstanceHandler` on the corrected delete: an unknown name
        answers 400 with nothing changed. When nothing is left running on the
        port the record is removed and the registry saved, answering 200, or
        500 when the write fails. A failed `kill` answers 400 and keeps the
        record. */
    method DeleteInstanceHandlerCorrected(name: string, os: Os, write: RunResult)
      returns (resp: Response, written: Option<map<string, Instance>>)
      modifies this
      ensures name !in old(Instances) ==>
        && resp == Response(StatusBadRequest, JsonBody(Single("error", ErrorText(NameMissing(name)))))
        && Instances == old(Instances) && written == None
      ensures name in old(Instances) && StoppedOrIdle(os, old(Instances)[name].port) ==>
        && Instances == old(Instances) - {name} && written == Some(Instances)
        && resp == (if write.RunOk? then Response(StatusOK, JsonBody(Single("message", DeletedMessage)))
                    else Response(StatusInternalServerError, JsonBody(Single("error", write.reason))))
      ensures name in old(Instances) && !StoppedOrIdle(os, old(Instances)[name].port) ==>
        && resp == Response(StatusBadRequest, JsonBody(Single("error", ErrorText(StopError(os, name, old(Instances)[name].port)))))
        && Instances == old(Instances) && written == None
    {
      var st := DeleteStoppingFirst(name, os);
      resp, written := DeletedReply(st, write);
    }

    /** The rest of `DeleteInstanceHandler` once the delete has run: a panic
        answers 500 with no body, a failed delete 400, and otherwise the
        registry is saved, answering 500 when the write fails and 200 when it
        succeeds. */
    method DeletedReply(st: Outcome, write: RunResult) returns (resp: Response, written: Option<map<string, Instance>>)
      ensures st.Crashed? ==> resp == Response(StatusInternalServerError, NoBody) && written == None
      ensures st.Failed? ==> resp == Response(StatusBadRequest, JsonBody(Single("error", ErrorText(st.error)))) && written == None
      ensures st.Done? ==> written == Some(Instances)
      ensures st.Done? && write.RunFailed? ==> resp == Response(StatusInternalServerError, JsonBody(Single("error", write.reason)))
      ensures st.Done? && write.RunOk? ==> resp == Response(StatusOK, JsonBody(Single("message", DeletedMessage)))
    {
      match st
      case Crashed =>
        return Response(StatusInternalServerError, NoBody), None;
      case Failed(e) =>
        return Response(StatusBadRequest, JsonBody(Single("error", ErrorText(e)))), None;
      case Done =>
        var saved, snapshot := SaveToFile(write);
        written := Some(snapshot);
        if saved.Failed? {
          return Response(StatusInternalServerError, JsonBody(Single("error", ErrorText(saved.error)))), written;
        }
        resp := Response(StatusOK, JsonBody(Single("message", DeletedMessage)));
    }

    /** `GetInstanceStatusHandler`: 200 with the status text, or 500 with no
        body when the unchecked name is unknown. */
    method GetInstanceStatusHandler(name: string, os: Os) returns (resp: Response)
      ensures resp.code == StatusOK <==> name in Instances
      ensures name !in Instances ==> resp == Response(StatusInternalServerError, NoBody)
      ensures name in Instances && GetPid(os, Instances[name].port).PidMissing? ==>
        resp.body == JsonBody(Single("status", "PID not found"))
      ensures name in Instances && GetPid(os, Instances[name].port).PidFound? ==>
        && resp.body.JsonBody? && resp.body.json.JObj? && resp.body.json.fields.Keys == {"status"}
        && resp.body.json.fields["status"].JStr? && HasPrefix(resp.body.json.fields["status"].s, StatusPrefix)
        && Atoi(resp.body.json.fields["status"].s[|StatusPrefix|..]) == Parsed(GetPid(os, Instances[name].port).pid)
    {
      var status := GetInstanceStatus(name, os);
      match status
      case Panics =>
        return Response(StatusInternalServerError, NoBody);
      case Returns(text) =>
        return Response(StatusOK, JsonBody(Single("status", text)));
    }

    /** `GetAllInstancesHandler`: 200 with every refreshed record, listed in
        the order `order` names. */
    method GetAllInstancesHandler(os: Os) returns (resp: Response, ghost order: seq<string>)
      modifies this
      ensures Instances.Keys == old(Instances).Keys
      ensures forall k :: k in Instances ==> Instances[k] == Refreshed(old(Instances)[k], os)
      ensures |order| == |Instances| && forall k :: k in Instances ==> k in order
      ensures forall i :: 0 <= i < |order| ==> order[i] in Instances
      ensures resp.code == StatusOK && resp.body.JsonBody? && resp.body.json.JObj?
      ensures resp.body.json.fields.Keys == {"instances"} && resp.body.json.fields["instances"].JList?
      ensures var items := resp.body.json.fields["instances"].items;
        |items| == |order| && forall i :: 0 <= i < |order| ==> items[i] == InstanceJson(Instances[order[i]])
    {
      var all;
      all, order := GetAllInstances(os);
      resp := Response(StatusOK, JsonBody(JObj(map["instances" := JList(InstancesJson(all))])));
    }

    /** `GetPIDByPortHandler`: a port that does not parse answers 500 "unable
        get port"; a port without a process answers 500 with the `getPID`
        error; otherwise 200 with the process id. The registry is not read. */
    method GetPIDByPortHandler(portText: string, os: Os) returns (resp: Response)
      ensures Atoi(portText).AtoiError? ==> resp == Response(StatusInternalServerError, JsonBody(Single("error", BadPortMessage)))
      ensures Atoi(portText).Parsed? && GetPid(os, Atoi(portText).value).PidMissing? ==>
        resp == Response(StatusInternalServerError, JsonBody(Single("error", PidErrorText(GetPid(os, Atoi(portText).value).error))))
      ensures resp.code == StatusOK <==> Atoi(portText).Parsed? && GetPid(os, Atoi(portText).value).PidFound?
      ensures resp.code == StatusOK ==>
        resp.body == JsonBody(JObj(map["pid" := JInt(GetPid(os, Atoi(portText).value).pid)]))
    {
      var port := Atoi(portText);
      if port.AtoiError? {
        return Response(StatusInternalServerError, JsonBody(Single("error", BadPortMessage)));
      }
      var lookup := GetPid(os, port.value);
      match lookup
      case PidMissing(_, e) =>
        return Response(StatusInternalServerError, JsonBody(Single("error", PidErrorText(e))));
      case PidFound(pid) =>
        return Response(StatusOK, JsonBody(JObj(map["pid" := JInt(pid)])));
    }

    /** `ProxyHandler`'s choice: a name (from the "Instance-Name" header) that
        is not registered is answered 404 "Instance not found"; a registered
        one is forwarded to "<ip>:<port>", whose port part reads back as the
        record's port. */
    method ProxyHandler(header: string) returns (r: ProxyReply)
      ensures header !in Instances ==> r == Answered(Response(StatusNotFound, JsonBody(Single("error", NotFoundMessage))))
      ensures header in Instances ==> r.Forwarded?
      ensures r.Forwarded? ==>
        var i := Instances[header];
        && HasPrefix(r.host, i.ip + ":")
        && (MinInt <= i.port <= MaxInt ==> Atoi(r.host[|i.ip| + 1..]) == Parsed(i.port))
    {
      if header !in Instances {
        return Answered(Response(StatusNotFound, JsonBody(Single("error", NotFoundMessage))));
      }
      var i := Instances[header];
      var host := i.ip + ":" + Itoa(i.port);
      assert host[..|i.ip| + 1] == i.ip + ":";
      assert host[|i.ip| + 1..] == Itoa(i.port);
      if MinInt <= i.port <= MaxInt {
        AtoiItoa(i.port);
      }
      return Forwarded(host);
    }
  }
  /** Adding "svcA" on port 9001 to an empty registry and then deleting it:
      the delete as written panics even though the process could be stopped,
      while the corrected delete succeeds. */
  method DeleteAfterAdd(os: Os) returns (asWritten: Outcome, corrected: Outcome)
    requires os.spawn(9001).Spawned? && StopSucceeds(os, 9001)
    ensures asWritten == Crashed
    ensures corrected == Done
  {
    var c := new Controller.Empty();
    var added := c.AddInstance("svcA", 9001, os);
    asWritten := c.DeleteInstance("svcA", os);
    var d := new Controller.Empty();
    added := d.AddInstance("svcA", 9001, os);
    corrected := d.DeleteStoppingFirst("svcA", os);
  }

  /** Adding "svcA" on port 9001 and deleting it through the handler once no
      process holds the port (`fuser` fails): as written the reply is 500
      and nothing is saved; with the corrected delete the record goes, the
      empty registry is saved and the reply is 200. */
  method DeleteIdleInstance(os: Os, write: RunResult)
    returns (asWritten: Response, writtenAsWritten: Option<map<string, Instance>>, corrected: Response, writtenCorrected: Option<map<string, Instance>>)
    requires os.spawn(9001).Spawned? && os.fuser(9001).CmdFailed? && write.RunOk?
    ensures asWritten == Response(StatusInternalServerError, NoBody) && writtenAsWritten == None
    ensures corrected == Response(StatusOK, JsonBody(Single("message", DeletedMessage))) && writtenCorrected == Some(map[])
  {
    var c := new Controller.Empty();
    var added := c.AddInstance("svcA", 9001, os);
    asWritten, writtenAsWritten := c.DeleteInstanceHandler("svcA", os, write);
    var d := new Controller.Empty();
    added := d.AddInstance("svcA", 9001, os);
    corrected, writtenCorrected := d.DeleteInstanceHandlerCorrected("svcA", os, write);
  }

  /** Adding "svcA" on port 9001 while `./main` cannot be spawned, then
      adding it again once it can: as written the retry is refused because
      the failed record stayed; with the roll-back the retry succeeds. */
  method RetryAfterFailedSpawn(broken: Os, working: Os) returns (asWritten: Outcome, corrected: Outcome)
    requires broken.spawn(9001).SpawnError? && working.spawn(9001).Spawned?
    ensures asWritten == Failed(NameTaken("svcA"))
    ensures corrected == Done
  {
    var c := new Controller.Empty();
    var first := c.AddInstance("svcA", 9001, broken);
    asWritten := c.AddInstance("svcA", 9001, working);
    var d := new Controller.Empty();
    first := d.AddRollingBack("svcA", 9001, broken);
    corrected := d.AddRollingBack("svcA", 9001, working);
  }

  /** A proxied request naming an instance that was never added is answered
      404, while the added one is forwarded to its port. */
  method ProxyAfterAdd(os: Os) returns (unknown: ProxyReply, known: ProxyReply)
    requires os.spawn(9001).Spawned?
    ensures unknown == Answered(Response(StatusNotFound, JsonBody(Single("error", NotFoundMessage))))
    ensures known.Forwarded? && HasPrefix(known.host, ":") && Atoi(known.host[1..]) == Parsed(9001)
  {
    var c := new Controller.Empty();
    var added := c.AddInstance("svcA", 9001, os);
    unknown := c.ProxyHandler("svcB");
    known := c.ProxyHandler("svcA");
  }
}
