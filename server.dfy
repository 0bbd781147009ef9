/**
  The server itself: one object holding the `vps` table and the engine's
  containers, with one method per route. Each method takes its steps in
  the order the route handler takes them and returns at the first step
  that throws; each is proved to leave the state and reply that the
  matching function of `Routes` describes.
 */
module Server {
  import opened Schema
  import opened Access
  import opened Shell
  import opened Routes

  class Panel {
    /** The `vps` table, by row id. */
    var vps: map<int, Vps>
    /** The id AUTOINCREMENT gives the next inserted row. */
    var nextId: int
    /** The containers the engine holds, by identifier. */
    var containers: map<ContainerId, Container>
    /** The identifier the engine gives the next container it creates. */
    var nextContainer: ContainerId

    function Snapshot(): State
      reads this
    {
      State(vps, nextId, containers, nextContainer)
    }

    ghost predicate Valid()
      reads this
    {
      Schema.Valid(Snapshot())
    }

    /** A server started on an empty database with no containers. */
    constructor ()
      ensures Valid() && Snapshot() == Initial
    {
      vps, nextId := map[], 1;
      containers, nextContainer := map[], 0;
    }

    // ---- the container engine ----

    /** `docker.createContainer(spec)`. */
    method CreateContainer(spec: ContainerSpec, o: Outcome) returns (r: Result<ContainerId>)
      modifies this
      ensures o.Done? ==> r == Ok(old(nextContainer)) && Snapshot() == WithNewContainer(old(Snapshot()), spec)
      ensures o.Failed? ==> r == Err(o.message) && Snapshot() == old(Snapshot())
    {
      if o.Failed? {
        return Err(o.message);
      }
      r := Ok(nextContainer);
      containers := containers[nextContainer := Container(spec, false)];
      nextContainer := nextContainer + 1;
    }

    /** `container.start()`, and with `running` false `container.stop()`. */
    method SetContainerRunning(cid: ContainerId, running: bool, o: Outcome) returns (r: Outcome)
      modifies this
      ensures r == Engine(old(Snapshot()), cid, o)
      ensures r.Done? ==> cid in old(containers) && Snapshot() == WithRunning(old(Snapshot()), cid, running)
      ensures r.Failed? ==> Snapshot() == old(Snapshot())
    {
      if cid !in containers {
        return Failed(NoSuchContainer);
      }
      if o.Failed? {
        return o;
      }
      containers := containers[cid := containers[cid].(running := running)];
      r := Done;
    }

    /** `container.remove({ force: true })`: removes the container whether
        it runs or not. */
    method RemoveContainer(cid: ContainerId, o: Outcome) returns (r: Outcome)
      modifies this
      ensures r == Engine(old(Snapshot()), cid, o)
      ensures r.Done? ==> cid in old(containers) && Snapshot() == WithoutContainer(old(Snapshot()), cid)
      ensures r.Failed? ==> Snapshot() == old(Snapshot())
    {
      if cid !in containers {
        return Failed(NoSuchContainer);
      }
      if o.Failed? {
        return o;
      }
      containers := containers - {cid};
      r := Done;
    }

    /** `container.exec(...)` and `exec.start(...)`: they change nothing the
        model keeps. */
    method Exec(cid: ContainerId, o: Outcome) returns (r: Outcome)
      ensures r == Engine(Snapshot(), cid, o)
    {
      if cid !in containers {
        return Failed(NoSuchContainer);
      }
      r := o;
    }

    // ---- the database ----

    /** `INSERT INTO vps ...`: fails with the database's error, or on a
        repeated name because of the UNIQUE column; otherwise the row gets
        the next AUTOINCREMENT id. */
    method Insert(row: Vps, o: Outcome) returns (r: Outcome)
      modifies this
      ensures r == if o.Failed? then o
                   else if NameTaken(old(vps), row.name) then Failed(UniqueNameViolation)
                   else Done
      ensures r.Done? ==> Snapshot() == old(Snapshot()).(vps := old(vps)[old(nextId) := row], nextId := old(nextId) + 1)
      ensures r.Failed? ==> Snapshot() == old(Snapshot())
    {
      if o.Failed? {
        return o;
      }
      if exists id :: id in vps && vps[id].name == row.name {
        return Failed(UniqueNameViolation);
      }
      vps := vps[nextId := row];
      nextId := nextId + 1;
      r := Done;
    }

    /** `UPDATE vps SET status = ? WHERE id = ?`, issued without a callback:
        if it fails, nothing changes and nobody is told. */
    method SetStatus(id: int, status: Status, o: Outcome)
      modifies this
      ensures vps == if o.Done? && id in old(vps) then old(vps)[id := old(vps)[id].(status := status)] else old(vps)
      ensures nextId == old(nextId) && containers == old(containers) && nextContainer == old(nextContainer)
    {
      if o.Done? && id in vps {
        vps := vps[id := vps[id].(status := status)];
      }
    }

    /** `UPDATE vps SET container_id = ?, status = ? WHERE id = ?`, issued
        without a callback like `SetStatus`. */
    method SetContainer(id: int, cid: ContainerId, status: Status, o: Outcome)
      modifies this
      ensures vps == if o.Done? && id in old(vps) then old(vps)[id := old(vps)[id].(containerId := cid, status := status)] else old(vps)
      ensures nextId == old(nextId) && containers == old(containers) && nextContainer == old(nextContainer)
    {
      if o.Done? && id in vps {
        vps := vps[id := vps[id].(containerId := cid, status := status)];
      }
    }

    /** `DELETE FROM vps WHERE id = ?`. */
    method DeleteRow(id: int, o: Outcome) returns (r: Outcome)
      modifies this
      ensures r == o
      ensures vps == if o.Done? then old(vps) - {id} else old(vps)
      ensures nextId == old(nextId) && containers == old(containers) && nextContainer == old(nextContainer)
    {
      if o.Done? {
        vps := vps - {id};
      }
      r := o;
    }

    // ---- the four actions of POST /api/v1/vps/:id/:action ----

    method StartVps(id: int, call: Outcome, update: Outcome) returns (outcome: Outcome)
      requires Valid() && id in vps
      modifies this
      ensures var e := StartAction(old(Snapshot()), id, call, update);
        Snapshot() == e.state && outcome == e.outcome
    {
      outcome := SetContainerRunning(vps[id].containerId, true, call);
      if outcome.Done? {
        SetStatus(id, Running, update);
      }
    }

    method StopVps(id: int, call: Outcome, update: Outcome) returns (outcome: Outcome)
      requires Valid() && id in vps
      modifies this
      ensures var e := StopAction(old(Snapshot()), id, call, update);
        Snapshot() == e.state && outcome == e.outcome
    {
      outcome := SetContainerRunning(vps[id].containerId, false, call);
      if outcome.Done? {
        SetStatus(id, Stopped, update);
      }
    }

    method RestartVps(id: int, call: Outcome) returns (outcome: Outcome)
      requires Valid() && id in vps
      modifies this
      ensures var e := RestartAction(old(Snapshot()), id, call);
        Snapshot() == e.state && outcome == e.outcome
    {
      outcome := SetContainerRunning(vps[id].containerId, true, call);
    }

    method ReinstallVps(id: int, remove: Outcome, create: Outcome, start: Outcome, update: Outcome)
      returns (outcome: Outcome)
      requires Valid() && id in vps
      modifies this
      ensures var e := ReinstallAction(old(Snapshot()), id, remove, create, start, update);
        Snapshot() == e.state && outcome == e.outcome
    {
      var row := vps[id];
      outcome := RemoveContainer(row.containerId, remove);
      if outcome.Failed? {
        return;
      }
      var made := CreateContainer(VpsContainer(row.name, row.support), create);
      if made.Err? {
        return Failed(made.message);
      }
      outcome := SetContainerRunning(made.value, true, start);
      if outcome.Done? {
        SetContainer(id, made.value, Running, update);
      }
    }

    /** The `if`/`else if` chain of the action route: the matching action,
        or nothing at all for a name it does not know. */
    method RunVpsCommand(id: int, c: Command, call: Outcome, create: Outcome, start: Outcome,
                         update: Outcome) returns (outcome: Outcome)
      requires Valid() && id in vps
      modifies this
      ensures var e := RunCommand(old(Snapshot()), id, c, call, create, start, update);
        Snapshot() == e.state && outcome == e.outcome
    {
      match c
      case Start => outcome := StartVps(id, call, update);
      case Stop => outcome := StopVps(id, call, update);
      case Restart => outcome := RestartVps(id, call);
      case Reinstall => outcome := ReinstallVps(id, call, create, start, update);
      case Unknown => outcome := Done;
    }

    // ---- the routes ----

    /** GET /api/v1/vps: the caller's view of the table, or the database's
        error. */
    method List(p: Principal, query: Outcome) returns (reply: Reply)
      ensures query.Failed? ==> reply == Error(500, query.message)
      ensures query.Done? ==> reply == Rows(ListFor(p, vps))
    {
      if query.Failed? {
        return Error(500, query.message);
      }
      reply := Rows(ListFor(p, vps));
    }

    /** POST /api/v1/vps. */
    method Create(p: Principal, name: string, owner: string, support: string, now: string,
                  create: Outcome, start: Outcome, insert: Outcome) returns (reply: Reply)
      requires Valid()
      modifies this
      ensures Valid()
      ensures var r := CreateRoute(old(Snapshot()), p, name, owner, support, now, create, start, insert);
        Snapshot() == r.state && reply == r.reply
    {
      if !IsAdmin(p) {
        return AdminOnly;
      }
      var made := CreateContainer(VpsContainer(name, support), create);
      if made.Err? {
        return Error(500, made.message);
      }
      var cid := made.value;
      var started := SetContainerRunning(cid, true, start);
      if started.Failed? {
        return Error(500, started.message);
      }
      var inserted := Insert(Vps(name, owner, support, cid, now, Running), insert);
      if inserted.Failed? {
        return Error(500, inserted.message);
      }
      reply := Created(cid);
    }

    /** POST /api/v1/vps/:id/:action. `call` is the outcome of the first
        engine call the action makes (start, stop, restart, or the removal
        that begins a reinstall); `create` and `start` are those of the
        reinstall's later steps; `update` is that of the status update. */
    method Action(p: Principal, id: int, action: string, query: Outcome, call: Outcome,
                  create: Outcome, start: Outcome, update: Outcome) returns (reply: Reply)
      requires Valid()
      modifies this
      ensures Valid()
      ensures var r := ActionRoute(old(Snapshot()), p, id, action, query, call, create, start, update);
        Snapshot() == r.state && reply == r.reply
    {
      if query.Failed? {
        return NotFound;
      }
      var found := Lookup(p, vps, id);
      if found.None? {
        return NotFound;
      }
      var outcome := RunVpsCommand(id, ParseAction(action), call, create, start, update);
      reply := if outcome.Done? then Message(action + " successful") else Error(500, outcome.message);
    }

    /** GET /api/v1/vps/:id/ssh: run tmate in the row's container and reply
        with what it printed, trimmed, or with the retry hint. `output` is
        everything the exec stream delivered before it ended. */
    method Ssh(p: Principal, id: int, query: Outcome, exec: Outcome, output: string) returns (reply: Reply)
      ensures query.Failed? || Lookup(p, vps, id).None? ==> reply == NotFound
      ensures query.Done? && Lookup(p, vps, id).Some? ==>
        var o := Engine(Snapshot(), vps[id].containerId, exec);
        reply == if o.Done? then SshLink(ShellLink(output)) else Error(500, o.message)
      ensures reply.SshLink? ==> reply.ssh != []
    {
      if query.Failed? {
        return NotFound;
      }
      var found := Lookup(p, vps, id);
      if found.None? {
        return NotFound;
      }
      var o := Exec(found.value.containerId, exec);
      if o.Failed? {
        return Error(500, o.message);
      }
      reply := SshLink(ShellLink(output));
    }

    /** DELETE /api/v1/vps/:id. */
    method Delete(p: Principal, id: int, query: Outcome, remove: Outcome, delete: Outcome) returns (reply: Reply)
      requires Valid()
      modifies this
      ensures Valid()
      ensures var r := DeleteRoute(old(Snapshot()), p, id, query, remove, delete);
        Snapshot() == r.state && reply == r.reply
    {
      if !IsAdmin(p) {
        return AdminOnly;
      }
      if query.Failed? || id !in vps {
        return NotFound;
      }
      var removed := RemoveContainer(vps[id].containerId, remove);
      if removed.Failed? {
        return Error(500, removed.message);
      }
      var deleted := DeleteRow(id, delete);
      if deleted.Failed? {
        return Error(500, deleted.message);
      }
      reply := VpsDeleted;
    }
  }
}
