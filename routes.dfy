/**
  What each state-changing route of the server does, as functions from the
  state before the request to the state after it and the reply. Every call
  into the container engine or the database that can throw is an `Outcome`
  argument; a call on a container the engine does not hold fails whatever
  that argument says. The `Server` module's methods carry out these same
  steps one at a time and are proved equal to these functions.
 */
module Routes {
  import opened Schema
  import opened Access

  datatype Step = Step(state: State, reply: Reply)

  /** The state after one runtime action, and whether the action threw. */
  datatype Effect = Effect(state: State, outcome: Outcome)

  // ---- the container engine ----

  /** What a call on container `cid` comes to: the engine refuses an
      identifier it does not hold; otherwise the call goes as `o` says. */
  function Engine(s: State, cid: ContainerId, o: Outcome): Outcome
  {
    if cid in s.containers then o else Failed(NoSuchContainer)
  }

  function WithRunning(s: State, cid: ContainerId, running: bool): State
    requires cid in s.containers
  {
    s.(containers := s.containers[cid := s.containers[cid].(running := running)])
  }

  /** `createContainer`: a new, not yet started container under the next
      identifier. */
  function WithNewContainer(s: State, spec: ContainerSpec): State
  {
    s.(containers := s.containers[s.nextContainer := Container(spec, false)],
       nextContainer := s.nextContainer + 1)
  }

  function WithoutContainer(s: State, cid: ContainerId): State
  {
    s.(containers := s.containers - {cid})
  }

  // ---- POST /api/v1/vps ----

  /** Create a VPS: admin only; create the container, start it, then insert
      the row. The row is inserted only when all three succeed and the name
      is free; a container that was made is never cleaned up. */
  function CreateRoute(s: State, p: Principal, name: string, owner: string, support: string,
                       now: string, create: Outcome, start: Outcome, insert: Outcome): (r: Step)
    requires Valid(s)
    ensures Valid(r.state)
    ensures !IsAdmin(p) ==> r == Step(s, AdminOnly)
    ensures r.reply.Created? <==>
      IsAdmin(p) && create.Done? && start.Done? && insert.Done? && !NameTaken(s.vps, name)
    ensures r.reply.Created? ==>
      && r.reply.id == s.nextContainer
      && s.nextId !in s.vps
      && r.state.vps == s.vps[s.nextId := Vps(name, owner, support, s.nextContainer, now, Running)]
      && r.state.nextId == s.nextId + 1
    ensures !r.reply.Created? ==> r.state.vps == s.vps && r.state.nextId == s.nextId
    ensures !r.reply.Created? ==> r.reply.Error?
    ensures IsAdmin(p) && create.Failed? ==> r.reply == Error(500, create.message)
    ensures IsAdmin(p) && create.Done? && start.Failed? ==> r.reply == Error(500, start.message)
    ensures IsAdmin(p) && create.Done? && start.Done? && insert.Failed? ==> r.reply == Error(500, insert.message)
    ensures IsAdmin(p) && NameTaken(s.vps, name) && create.Done? && start.Done? && insert.Done? ==>
      r.reply == Error(500, UniqueNameViolation)
    ensures forall c :: c in s.containers ==> c in r.state.containers && r.state.containers[c] == s.containers[c]
    ensures IsAdmin(p) && create.Done? ==>
      && s.nextContainer !in s.containers
      && r.state.containers == s.containers[s.nextContainer := Container(VpsContainer(name, support), start.Done?)]
    ensures !(IsAdmin(p) && create.Done?) ==> r.state.containers == s.containers
  {
    if !IsAdmin(p) then Step(s, AdminOnly)
    else if create.Failed? then Step(s, Error(500, create.message))
    else
      var cid := s.nextContainer;
      var s1 := WithNewContainer(s, VpsContainer(name, support));
      if start.Failed? then Step(s1, Error(500, start.message))
      else
        var s2 := WithRunning(s1, cid, true);
        if insert.Failed? then Step(s2, Error(500, insert.message))
        else if NameTaken(s2.vps, name) then Step(s2, Error(500, UniqueNameViolation))
        else
          var row := Vps(name, owner, support, cid, now, Running);
          Step(s2.(vps := s2.vps[s.nextId := row], nextId := s.nextId + 1), Created(cid))
  }

  // ---- POST /api/v1/vps/:id/:action ----

  /** What an action did to the table: only row `id` may differ, and no
      row is added or removed. */
  ghost predicate OnlyRowChanged(s: State, t: State, id: int)
  {
    && t.vps.Keys == s.vps.Keys
    && t.nextId == s.nextId
    && forall k :: k in s.vps && k != id ==> t.vps[k] == s.vps[k]
  }

  /** `start`: start the container; once started, set the row's status to
      `running` (an update whose failure nobody hears of). */
  function StartAction(s: State, id: int, call: Outcome, update: Outcome): (r: Effect)
    requires Valid(s) && id in s.vps
    ensures Valid(r.state) && OnlyRowChanged(s, r.state, id)
    ensures r.outcome == Engine(s, s.vps[id].containerId, call)
    ensures r.outcome.Failed? ==> r.state == s
    ensures r.outcome.Done? ==>
      && s.vps[id].containerId in s.containers
      && r.state.containers == s.containers[s.vps[id].containerId := s.containers[s.vps[id].containerId].(running := true)]
      && r.state.vps == if update.Done? then s.vps[id := s.vps[id].(status := Running)] else s.vps
  {
    var cid := s.vps[id].containerId;
    var o := Engine(s, cid, call);
    if o.Failed? then Effect(s, o)
    else
      var s1 := WithRunning(s, cid, true);
      if update.Done? then Effect(s1.(vps := s1.vps[id := s1.vps[id].(status := Running)]), o)
      else Effect(s1, o)
  }

  /** `stop`: stop the container; once stopped, set the row's status to
      `stopped` (an update whose failure nobody hears of). */
  function StopAction(s: State, id: int, call: Outcome, update: Outcome): (r: Effect)
    requires Valid(s) && id in s.vps
    ensures Valid(r.state) && OnlyRowChanged(s, r.state, id)
    ensures r.outcome == Engine(s, s.vps[id].containerId, call)
    ensures r.outcome.Failed? ==> r.state == s
    ensures r.outcome.Done? ==>
      && s.vps[id].containerId in s.containers
      && r.state.containers == s.containers[s.vps[id].containerId := s.containers[s.vps[id].containerId].(running := false)]
      && r.state.vps == if update.Done? then s.vps[id := s.vps[id].(status := Stopped)] else s.vps
  {
    var cid := s.vps[id].containerId;
    var o := Engine(s, cid, call);
    if o.Failed? then Effect(s, o)
    else
      var s1 := WithRunning(s, cid, false);
      if update.Done? then Effect(s1.(vps := s1.vps[id := s1.vps[id].(status := Stopped)]), o)
      else Effect(s1, o)
  }

  /** `restart`: restart the container and write nothing to the table, so
      a row marked `stopped` stays marked `stopped` with its container
      running. */
  function RestartAction(s: State, id: int, call: Outcome): (r: Effect)
    requires Valid(s) && id in s.vps
    ensures Valid(r.state) && r.state.vps == s.vps && r.state.nextId == s.nextId
    ensures r.outcome == Engine(s, s.vps[id].containerId, call)
    ensures r.outcome.Failed? ==> r.state == s
    ensures r.outcome.Done? ==>
      && s.vps[id].containerId in s.containers
      && r.state.containers == s.containers[s.vps[id].containerId := s.containers[s.vps[id].containerId].(running := true)]
  {
    var cid := s.vps[id].containerId;
    var o := Engine(s, cid, call);
    if o.Failed? then Effect(s, o) else Effect(WithRunning(s, cid, true), o)
  }

  /** `reinstall`: force-remove the old container, create a fresh one from
      the row's name and support number, start it, then point the row at it
      with status `running`. Once the old container is gone nothing puts it
      back: if a later step throws, the row still names the removed one. */
  function ReinstallAction(s: State, id: int, remove: Outcome, create: Outcome, start: Outcome,
                           update: Outcome): (r: Effect)
    requires Valid(s) && id in s.vps
    ensures Valid(r.state) && OnlyRowChanged(s, r.state, id)
    ensures var oldCid := s.vps[id].containerId;
      Engine(s, oldCid, remove).Failed? ==> r == Effect(s, Engine(s, oldCid, remove))
    ensures var oldCid := s.vps[id].containerId;
      Engine(s, oldCid, remove).Done? ==> oldCid in s.containers && oldCid !in r.state.containers
    ensures r.outcome.Done? <==>
      Engine(s, s.vps[id].containerId, remove).Done? && create.Done? && start.Done?
    ensures var oldCid := s.vps[id].containerId;
      Engine(s, oldCid, remove).Done? && create.Failed? ==>
        r.outcome == create && r.state.containers == s.containers - {oldCid}
    ensures var oldCid := s.vps[id].containerId;
      Engine(s, oldCid, remove).Done? && create.Done? && start.Failed? ==>
        && r.outcome == start
        && r.state.containers
           == (s.containers - {oldCid})[s.nextContainer := Container(VpsContainer(s.vps[id].name, s.vps[id].support), false)]
    ensures r.outcome.Failed? ==> r.state.vps == s.vps
    ensures r.outcome.Done? ==>
      var newCid := s.nextContainer;
      && newCid != s.vps[id].containerId
      && newCid !in s.containers
      && r.state.containers
         == (s.containers - {s.vps[id].containerId})[newCid := Container(VpsContainer(s.vps[id].name, s.vps[id].support), true)]
      && r.state.vps == if update.Done? then s.vps[id := s.vps[id].(containerId := newCid, status := Running)] else s.vps
  {
    var row := s.vps[id];
    var o := Engine(s, row.containerId, remove);
    if o.Failed? then Effect(s, o)
    else
      var s1 := WithoutContainer(s, row.containerId);
      if create.Failed? then Effect(s1, create)
      else
        var cid := s1.nextContainer;
        var s2 := WithNewContainer(s1, VpsContainer(row.name, row.support));
        if start.Failed? then Effect(s2, start)
        else Effect(Reinstalled(s, id, update), start)
  }

  /** The state after a reinstall whose removal, creation and start all
      went through: the old container gone, a running new one under the
      next identifier, and the row pointing at it when the update does. */
  function Reinstalled(s: State, id: int, update: Outcome): (t: State)
    requires Valid(s) && id in s.vps
    ensures Valid(t) && OnlyRowChanged(s, t, id)
    ensures t.containers
      == (s.containers - {s.vps[id].containerId})[s.nextContainer := Container(VpsContainer(s.vps[id].name, s.vps[id].support), true)]
    ensures t.vps == if update.Done? then s.vps[id := s.vps[id].(containerId := s.nextContainer, status := Running)] else s.vps
  {
    var row := s.vps[id];
    var s2 := WithNewContainer(WithoutContainer(s, row.containerId), VpsContainer(row.name, row.support));
    var s3 := WithRunning(s2, s.nextContainer, true);
    if update.Done? then s3.(vps := s3.vps[id := row.(containerId := s.nextContainer, status := Running)])
    else s3
  }

  /** The `:action` segment, compared against the four names the route
      knows. */
  datatype Command = Start | Stop | Restart | Reinstall | Unknown

  function ParseAction(action: string): (c: Command)
    ensures c == Unknown <==> action !in {"start", "stop", "restart", "reinstall"}
    ensures c == Start <==> action == "start"
    ensures c == Stop <==> action == "stop"
    ensures c == Restart <==> action == "restart"
    ensures c == Reinstall <==> action == "reinstall"
  {
    if action == "start" then Start
    else if action == "stop" then Stop
    else if action == "restart" then Restart
    else if action == "reinstall" then Reinstall
    else Unknown
  }

  /** Run one command on the row `id`; an unknown one does nothing and
      succeeds. */
  function RunCommand(s: State, id: int, c: Command, call: Outcome, create: Outcome, start: Outcome,
                      update: Outcome): (e: Effect)
    requires Valid(s) && id in s.vps
    ensures Valid(e.state) && OnlyRowChanged(s, e.state, id)
    ensures e.outcome.Failed? ==> e.state.vps == s.vps
    ensures c == Unknown ==> e == Effect(s, Done)
    ensures c == Start ==> e == StartAction(s, id, call, update)
    ensures c == Stop ==> e == StopAction(s, id, call, update)
    ensures c == Restart ==> e == RestartAction(s, id, call)
    ensures c == Reinstall ==> e == ReinstallAction(s, id, call, create, start, update)
  {
    match c
    case Start => StartAction(s, id, call, update)
    case Stop => StopAction(s, id, call, update)
    case Restart => RestartAction(s, id, call)
    case Reinstall => ReinstallAction(s, id, call, create, start, update)
    case Unknown => Effect(s, Done)
  }

  /** The whole action route: look the row up as the caller may see it,
      run the named action, and reply `<action> successful` unless the
      action threw. An action with any other name does nothing and still
      succeeds. The table only ever changes in row `id`. */
  function ActionRoute(s: State, p: Principal, id: int, action: string, query: Outcome,
                       call: Outcome, create: Outcome, start: Outcome, update: Outcome): (r: Step)
    requires Valid(s)
    ensures Valid(r.state) && OnlyRowChanged(s, r.state, id)
    ensures query.Failed? || Lookup(p, s.vps, id).None? ==> r == Step(s, NotFound)
    ensures r.reply.Error? ==> r.state.vps == s.vps
    ensures r.reply.Message? ==> r.reply == Message(action + " successful")
    ensures r.reply == NotFound || r.reply.Message? || (r.reply.Error? && r.reply.code == 500)
    ensures action !in {"start", "stop", "restart", "reinstall"} ==>
      r.state == s && (query.Done? && Lookup(p, s.vps, id).Some? ==> r.reply == Message(action + " successful"))
  {
    if query.Failed? || Lookup(p, s.vps, id).None? then Step(s, NotFound)
    else
      var e := RunCommand(s, id, ParseAction(action), call, create, start, update);
      Step(e.state, if e.outcome.Done? then Message(action + " successful") else Error(500, e.outcome.message))
  }

  // ---- DELETE /api/v1/vps/:id ----

  /** Delete a VPS: admin only; force-remove its container, then delete the
      row. The row goes only after its container has gone; if the removal
      throws, nothing changes; if the row's deletion throws, the row stays
      and names a container that no longer exists. */
  function DeleteRoute(s: State, p: Principal, id: int, query: Outcome, remove: Outcome,
                       delete: Outcome): (r: Step)
    requires Valid(s)
    ensures Valid(r.state)
    ensures !IsAdmin(p) ==> r == Step(s, AdminOnly)
    ensures IsAdmin(p) && (query.Failed? || id !in s.vps) ==> r == Step(s, NotFound)
    ensures r.reply == VpsDeleted <==>
      IsAdmin(p) && query.Done? && id in s.vps && s.vps[id].containerId in s.containers
      && remove.Done? && delete.Done?
    ensures r.reply == VpsDeleted ==>
      && r.state.vps == s.vps - {id}
      && r.state.containers == s.containers - {s.vps[id].containerId}
    ensures r.reply != VpsDeleted ==> r.state.vps == s.vps && r.reply.Error?
    ensures r.state.nextId == s.nextId && r.state.nextContainer == s.nextContainer
    ensures r.state.containers == s.containers
      || (id in s.vps && r.state.containers == s.containers - {s.vps[id].containerId})
    ensures id in s.vps && id !in r.state.vps ==> s.vps[id].containerId !in r.state.containers
    ensures IsAdmin(p) && query.Done? && id in s.vps && Engine(s, s.vps[id].containerId, remove).Failed? ==>
      r == Step(s, Error(500, Engine(s, s.vps[id].containerId, remove).message))
    ensures IsAdmin(p) && query.Done? && id in s.vps && Engine(s, s.vps[id].containerId, remove).Done?
            && delete.Failed? ==>
      && r.state.vps == s.vps
      && r.state.containers == s.containers - {s.vps[id].containerId}
      && r.reply == Error(500, delete.message)
  {
    if !IsAdmin(p) then Step(s, AdminOnly)
    else if query.Failed? || id !in s.vps then Step(s, NotFound)
    else
      var cid := s.vps[id].containerId;
      var o := Engine(s, cid, remove);
      if o.Failed? then Step(s, Error(500, o.message))
      else
        var s1 := WithoutContainer(s, cid);
        if delete.Failed? then Step(s1, Error(500, delete.message))
        else Step(s1.(vps := s1.vps - {id}), VpsDeleted)
  }
}
