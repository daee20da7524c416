/** The instance registry of base.go: `InstanceManager` keeps a map from
    instance name to record and supervises one `./main -p=<port>` process per
    record. Operations run one at a time (the mutex only serialises them). */
module Manager {
  import opened GoText
  import opened Supervision

  /** One supervised service: its name, its TCP port, and the process id last
      recorded for it (0 when none is recorded). */
  datatype Instance = Instance(name: string, port: int, pid: int)

  /** Some record in `m` uses `port`. */
  predicate PortInUse(m: map<string, Instance>, port: int)
  {
    exists k :: k in m && m[k].port == port
  }

  /** No two records share a port. */
  predicate PortsDistinct(m: map<string, Instance>)
  {
    forall a, b :: a in m && b in m && a != b ==> m[a].port != m[b].port
  }

  /** Every record is filed under its own name. */
  predicate NamesMatchKeys(m: map<string, Instance>)
  {
    forall k :: k in m ==> m[k].name == k
  }

  class InstanceManager {
    var Instances: map<string, Instance>

    /** `LoadFromFile`: a failed read leaves the registry alone; otherwise the
        whole map is replaced by what the decoder produced, even when it then
        reports an error. */
    method LoadFromFile(file: Snapshot<map<string, Instance>>) returns (st: Outcome)
      modifies this
      ensures file.ReadFailed? ==> st == Failed(IoFailed(file.reason)) && Instances == old(Instances)
      ensures file.DecodeFailed? ==> st == Failed(IoFailed(file.reason)) && Instances == file.partial
      ensures file.Decoded? ==> st == Done && Instances == file.value
    {
      match file
      case ReadFailed(reason) =>
        return Failed(IoFailed(reason));
      case DecodeFailed(partial, reason) =>
        Instances := partial;
        return Failed(IoFailed(reason));
      case Decoded(value) =>
        Instances := value;
        return Done;
    }

    /** `AddInstance`: refuses a name already present, then a port already
        used, and otherwise inserts a fresh record and starts its process. A
        failed spawn is reported but its record stays, with pid 0. */
    method AddInstance(name: string, port: int, os: Os) returns (st: Outcome)
      modifies this
      ensures name in old(Instances) ==> st == Failed(NameTaken(name)) && Instances == old(Instances)
      ensures name !in old(Instances) && PortInUse(old(Instances), port) ==>
        st == Failed(PortTaken(port)) && Instances == old(Instances)
      ensures name !in old(Instances) && !PortInUse(old(Instances), port) ==>
        && Instances == old(Instances)[name := Instance(name, port, SpawnedPid(os.spawn(port)))]
        && st == (if os.spawn(port).Spawned? then Done else Failed(SpawnFailed(os.spawn(port).reason)))
      ensures PortsDistinct(old(Instances)) ==> PortsDistinct(Instances)
      ensures NamesMatchKeys(old(Instances)) ==> NamesMatchKeys(Instances)
    {
      if name in Instances {
        return Failed(NameTaken(name));
      }
      var rest := Instances.Keys;
      while rest != {}
        invariant rest <= Instances.Keys
        invariant forall k :: k in Instances && k !in rest ==> Instances[k].port != port
        decreases rest
      {
        var k :| k in rest;
        if Instances[k].port == port {
          return Failed(PortTaken(port));
        }
        rest := rest - {k};
      }
      Instances := Instances[name := Instance(name, port, 0)];
      st := StartInstance(name, os);
    }

    /** `DeleteInstance` as written: it removes the record and only then calls
        `StopInstance`, which looks the name up again, finds nothing and
        dereferences nil. Deleting a present name therefore always panics,
        with the record gone and its process never signalled. */
    method DeleteInstance(name: string, os: Os) returns (st: Outcome)
      modifies this
      ensures name !in old(Instances) ==> st == Failed(NameMissing(name)) && Instances == old(Instances)
      ensures name in old(Instances) ==> st == Crashed && Instances == old(Instances) - {name}
    {
      if name !in Instances {
        return Failed(NameMissing(name));
      }
      Instances := Instances - {name};
      st := StopInstance(name, os);
    }

    /** `StartInstance`: spawns `./main -p=<port>` for a present record and
        stores the child's pid; an absent name panics before any spawn. */
    method StartInstance(name: string, os: Os) returns (st: Outcome)
      modifies this
      ensures name !in old(Instances) ==> st == Crashed && Instances == old(Instances)
      ensures name in old(Instances) && os.spawn(old(Instances)[name].port).SpawnError? ==>
        st == Failed(SpawnFailed(os.spawn(old(Instances)[name].port).reason)) && Instances == old(Instances)
      ensures name in old(Instances) && os.spawn(old(Instances)[name].port).Spawned? ==>
        st == Done && Instances == old(Instances)[name := old(Instances)[name].(pid := os.spawn(old(Instances)[name].port).pid)]
    {
      if name !in Instances {
        return Crashed;
      }
      var spawn := os.spawn(Instances[name].port);
      match spawn
      case SpawnError(reason) =>
        return Failed(SpawnFailed(reason));
      case Spawned(pid) =>
        Instances := Instances[name := Instances[name].(pid := pid)];
        return Done;
    }

    /** `StopInstance`: kills whatever process `fuser` reports on the
        record's port (never the stored pid) and, only when that kill
        succeeds, records pid 0. */
    method StopInstance(name: string, os: Os) returns (st: Outcome)
      modifies this
      ensures name !in old(Instances) ==> st == Crashed && Instances == old(Instances)
      ensures name in old(Instances) && !StopSucceeds(os, old(Instances)[name].port) ==>
        st == Failed(StopError(os, name, old(Instances)[name].port)) && Instances == old(Instances)
      ensures name in old(Instances) && StopSucceeds(os, old(Instances)[name].port) ==>
        st == Done && Instances == old(Instances)[name := old(Instances)[name].(pid := 0)]
    {
      if name !in Instances {
        return Crashed;
      }
      var lookup := GetPid(os, Instances[name].port);
      if lookup.PidMissing? {
        return Failed(NotRunning(name));
      }
      var killed := os.kill(lookup.pid);
      if killed.RunFailed? {
        return Failed(KillFailed(killed.reason));
      }
      Instances := Instances[name := Instances[name].(pid := 0)];
      return Done;
    }

    /** `RestartInstance`: a stop and then a start; when the stop fails the
        error is returned and nothing is spawned. */
    method RestartInstance(name: string, os: Os) returns (st: Outcome)
      modifies this
      ensures name !in old(Instances) ==> st == Crashed && Instances == old(Instances)
      ensures name in old(Instances) && !StopSucceeds(os, old(Instances)[name].port) ==>
        st == Failed(StopError(os, name, old(Instances)[name].port)) && Instances == old(Instances)
      ensures name in old(Instances) && StopSucceeds(os, old(Instances)[name].port) ==>
        var spawn := os.spawn(old(Instances)[name].port);
        && Instances == old(Instances)[name := old(Instances)[name].(pid := SpawnedPid(spawn))]
        && st == (if spawn.Spawned? then Done else Failed(SpawnFailed(spawn.reason)))
    {
      ghost var before := Instances;
      st := StopInstance(name, os);
      if st != Done {
        return;
      }
      ghost var mid := Instances;
      st := StartInstance(name, os);
      RestartEffect(before, mid, Instances, name, os.spawn(before[name].port));
    }

    /** The record a restart leaves: the stop's pid 0, overwritten by the
        spawned pid when the spawn succeeds. */
    static lemma RestartEffect(before: map<string, Instance>, mid: map<string, Instance>, after: map<string, Instance>, name: string, spawn: SpawnResult)
      requires name in before && mid == before[name := before[name].(pid := 0)]
      requires after == (if spawn.Spawned? then mid[name := mid[name].(pid := spawn.pid)] else mid)
      ensures after == before[name := before[name].(pid := SpawnedPid(spawn))]
    {
    }

    /** `GetInstanceStatus`: "PID not found" when no process holds the port,
        "stopped" when `kill -0` on it fails, "running" otherwise; an absent
        name panics. Nothing is changed. */
    method GetInstanceStatus(name: string, os: Os) returns (r: Call<string>)
      ensures name !in Instances ==> r == Panics
      ensures name in Instances ==> r.Returns?
      ensures r == Returns("PID not found") <==> name in Instances && GetPid(os, Instances[name].port).PidMissing?
      ensures r == Returns("running") <==>
        name in Instances && GetPid(os, Instances[name].port).PidFound? && os.probe(GetPid(os, Instances[name].port).pid)
      ensures r == Returns("stopped") <==>
        name in Instances && GetPid(os, Instances[name].port).PidFound? && !os.probe(GetPid(os, Instances[name].port).pid)
    {
      if name !in Instances {
        return Panics;
      }
      var lookup := GetPid(os, Instances[name].port);
      if lookup.PidMissing? {
        return Returns("PID not found");
      }
      if !os.probe(lookup.pid) {
        return Returns("stopped");
      }
      return Returns("running");
    }

    /** `GetAllInstances`: every record once, in the map's (unspecified)
        iteration order, which `order` names. */
    method GetAllInstances() returns (r: seq<Instance>, ghost order: seq<string>)
      ensures |r| == |order| == |Instances|
      ensures forall i :: 0 <= i < |order| ==> order[i] in Instances && r[i] == Instances[order[i]]
      ensures forall i, j :: 0 <= i < j < |order| ==> order[i] != order[j]
      ensures forall k :: k in Instances ==> k in order
    {
      r, order := [], [];
      var rest := Instances.Keys;
      while rest != {}
        invariant rest <= Instances.Keys
        invariant |r| == |order| && |order| + |rest| == |Instances|
        invariant forall i :: 0 <= i < |order| ==> order[i] in Instances && order[i] !in rest && r[i] == Instances[order[i]]
        invariant forall i, j :: 0 <= i < j < |order| ==> order[i] != order[j]
        invariant forall k :: k in Instances ==> k in rest || k in order
        decreases rest
      {
        var k :| k in rest;
        r, order := r + [Instances[k]], order + [k];
        rest := rest - {k};
      }
    }
  }
}
