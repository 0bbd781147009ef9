/**
  Properties that span more than one route or one request: hidden rows,
  what a half-finished reinstall or create leaves behind, the stale status
  after a restart, and one VPS's whole life.
 */
module Properties {
  import opened Schema
  import opened Access
  import opened Routes

  /** A state without row `id`, as if it had never been inserted. */
  function WithoutRow(s: State, id: int): (t: State)
    requires Valid(s)
    ensures Valid(t) && id !in t.vps
  {
    s.(vps := s.vps - {id})
  }

  /** The action route on a row the caller can see runs the command its
      `:action` segment names. */
  lemma RouteRunsCommand(s: State, p: Principal, id: int, action: string, c: Command, call: Outcome,
                         create: Outcome, start: Outcome, update: Outcome)
    requires Valid(s) && Lookup(p, s.vps, id).Some? && ParseAction(action) == c
    ensures var e := RunCommand(s, id, c, call, create, start, update);
      ActionRoute(s, p, id, action, Done, call, create, start, update)
      == Step(e.state, if e.outcome.Done? then Message(action + " successful") else Error(500, e.outcome.message))
  {
  }

  /** A non-admin acting on a row they do not own gets the same 404 as for
      an id that does not exist, and nothing changes. */
  lemma HiddenRowActionIsNotFound(s: State, p: Principal, id: int, action: string, query: Outcome,
                                  call: Outcome, create: Outcome, start: Outcome, update: Outcome)
    requires Valid(s) && !IsAdmin(p)
    requires id in s.vps && s.vps[id].owner != p.username
    ensures ActionRoute(s, p, id, action, query, call, create, start, update) == Step(s, NotFound)
    ensures ActionRoute(WithoutRow(s, id), p, id, action, query, call, create, start, update).reply == NotFound
  {
    HiddenRowLooksMissing(p, s.vps, id);
  }

  /** Create and delete by anyone but an admin are refused before any
      container or row is touched. */
  lemma OnlyAdminCreatesOrDeletes(s: State, p: Principal, name: string, owner: string, support: string,
                                  now: string, create: Outcome, start: Outcome, insert: Outcome,
                                  id: int, query: Outcome, remove: Outcome, delete: Outcome)
    requires Valid(s) && p.role != "admin"
    ensures CreateRoute(s, p, name, owner, support, now, create, start, insert) == Step(s, AdminOnly)
    ensures DeleteRoute(s, p, id, query, remove, delete) == Step(s, AdminOnly)
  {
  }

  /** A create that gets as far as making the container but fails later
      (start, insert, or a name already taken) leaves that container behind
      with no row pointing at it. */
  lemma FailedCreateLeaksContainer(s: State, p: Principal, name: string, owner: string, support: string,
                                   now: string, start: Outcome, insert: Outcome)
    requires Valid(s) && IsAdmin(p)
    requires start.Failed? || insert.Failed? || NameTaken(s.vps, name)
    ensures var r := CreateRoute(s, p, name, owner, support, now, Done, start, insert);
      && r.reply.Error?
      && s.nextContainer in r.state.containers
      && r.state.containers[s.nextContainer].spec == VpsContainer(name, support)
      && forall id :: id in r.state.vps ==> r.state.vps[id].containerId != s.nextContainer
  {
  }

  /** A created VPS is the only row with its name, and its row names a
      running container built for it. */
  lemma CreatedVpsIsRunning(s: State, p: Principal, name: string, owner: string, support: string, now: string)
    requires Valid(s) && IsAdmin(p) && !NameTaken(s.vps, name)
    ensures var r := CreateRoute(s, p, name, owner, support, now, Done, Done, Done);
      && r.reply == Created(s.nextContainer)
      && s.nextId in r.state.vps
      && r.state.vps[s.nextId].status == Running
      && r.state.vps[s.nextId].containerId in r.state.containers
      && r.state.containers[r.state.vps[s.nextId].containerId] == Container(VpsContainer(name, support), true)
      && forall id :: id in r.state.vps && r.state.vps[id].name == name ==> id == s.nextId
  {
  }

  /** Once a row's container is gone (a reinstall that failed after the
      removal, or a delete whose row deletion failed), every action on the
      row fails with a 500 and changes nothing, and the row can no longer
      be deleted. */
  lemma RowWithoutContainerIsStuck(s: State, admin: Principal, id: int, action: string, call: Outcome,
                                   create: Outcome, start: Outcome, update: Outcome,
                                   remove: Outcome, delete: Outcome)
    requires Valid(s) && IsAdmin(admin)
    requires id in s.vps && s.vps[id].containerId !in s.containers
    requires action in {"start", "stop", "restart", "reinstall"}
    ensures ActionRoute(s, admin, id, action, Done, call, create, start, update)
            == Step(s, Error(500, NoSuchContainer))
    ensures DeleteRoute(s, admin, id, Done, remove, delete) == Step(s, Error(500, NoSuchContainer))
  {
  }

  /** A reinstall whose container creation or start fails after the old
      container was removed leaves the row naming the removed container, so
      the row is stuck as `RowWithoutContainerIsStuck` describes. When it is
      the start that fails, the new container stays behind, stopped, with no
      row pointing at it, as after a failed create. */
  lemma FailedReinstallStrandsRow(s: State, id: int, create: Outcome, start: Outcome, update: Outcome)
    requires Valid(s) && id in s.vps && s.vps[id].containerId in s.containers
    requires create.Failed? || start.Failed?
    ensures var e := ReinstallAction(s, id, Done, create, start, update);
      && e.outcome.Failed?
      && e.state.vps == s.vps
      && s.vps[id].containerId !in e.state.containers
      && (create.Done? ==>
            && s.nextContainer in e.state.containers
            && e.state.containers[s.nextContainer] == Container(VpsContainer(s.vps[id].name, s.vps[id].support), false)
            && forall k :: k in e.state.vps ==> e.state.vps[k].containerId != s.nextContainer)
  {
  }

  /** A reinstall by an admin in which every call succeeds keeps the row's
      id, name, owner, support and creation time, marks it running, and
      gives it a new container built exactly as create builds one for the
      same name and support; the old container is gone. */
  lemma ReinstallKeepsIdentity(t: State, p: Principal, id: int, action: string)
    requires Valid(t) && IsAdmin(p) && id in t.vps && t.vps[id].containerId in t.containers
    requires ParseAction(action) == Reinstall
    ensures var re := ActionRoute(t, p, id, action, Done, Done, Done, Done, Done);
      var was, now := t.vps[id], re.state.vps[id];
      && re.reply == Message(action + " successful")
      && id in re.state.vps
      && now == was.(containerId := t.nextContainer, status := Running)
      && now.containerId != was.containerId
      && was.containerId !in re.state.containers
      && re.state.containers[now.containerId] == Container(VpsContainer(was.name, was.support), true)
  {
    RouteRunsCommand(t, p, id, action, Reinstall, Done, Done, Done, Done);
  }

  /** Restart writes nothing to the table: a row marked `stopped` keeps
      that mark while its container runs again. */
  lemma RestartLeavesStatusStale(s: State, p: Principal, id: int)
    requires Valid(s) && IsAdmin(p) && id in s.vps
    requires s.vps[id].status == Stopped && s.vps[id].containerId in s.containers
    ensures var r := ActionRoute(s, p, id, "restart", Done, Done, Done, Done, Done);
      && r.reply == Message("restart successful")
      && r.state.vps[id].status == Stopped
      && r.state.containers[s.vps[id].containerId].running
  {
    assert "restart" + " successful" == "restart successful";
    assert ParseAction("restart") == Restart;
    RouteRunsCommand(s, p, id, "restart", Restart, Done, Done, Done, Done);
  }

  /** An action none of whose four names matches is a successful no-op on
      any row the caller can see, whatever the calls would have done. */
  lemma UnknownActionIsNoOp(s: State, p: Principal, id: int, action: string, call: Outcome,
                            create: Outcome, start: Outcome, update: Outcome)
    requires Valid(s) && id in s.vps && CanSee(p, s.vps[id]) && ParseAction(action) == Unknown
    ensures ActionRoute(s, p, id, action, Done, call, create, start, update)
            == Step(s, Message(action + " successful"))
  {
    RouteRunsCommand(s, p, id, action, Unknown, call, create, start, update);
  }

  /** `start` on a row the caller can see, whatever its calls do: when the
      engine starts the container, the reply is `start successful`, the
      container runs, and the row is marked running if the update goes
      through; when it throws, the reply is a 500 with its message and
      nothing changes. */
  lemma StartOnVisibleRow(s: State, p: Principal, id: int, action: string, call: Outcome,
                          create: Outcome, start: Outcome, update: Outcome)
    requires Valid(s) && Lookup(p, s.vps, id).Some? && ParseAction(action) == Start
    ensures var r := ActionRoute(s, p, id, action, Done, call, create, start, update);
      var cid, o := s.vps[id].containerId, Engine(s, s.vps[id].containerId, call);
      && (o.Failed? ==> r == Step(s, Error(500, o.message)))
      && (o.Done? ==>
            && r.reply == Message(action + " successful")
            && cid in r.state.containers && r.state.containers[cid].running
            && r.state.vps == if update.Done? then s.vps[id := s.vps[id].(status := Running)] else s.vps)
  {
    RouteRunsCommand(s, p, id, action, Start, call, create, start, update);
  }

  /** An owner who is not an admin can stop their own VPS: the container
      stops and the row, and only it, is marked `stopped`. */
  lemma OwnerStopsOwnVps(t: State, p: Principal, id: int)
    requires Valid(t) && id in t.vps && t.vps[id].owner == p.username
    requires t.vps[id].containerId in t.containers
    ensures var st := ActionRoute(t, p, id, "stop", Done, Done, Done, Done, Done);
      && st.reply == Message("stop successful")
      && st.state.vps == t.vps[id := t.vps[id].(status := Stopped)]
      && !st.state.containers[t.vps[id].containerId].running
  {
    assert "stop" + " successful" == "stop successful";
    assert ParseAction("stop") == Stop;
    RouteRunsCommand(t, p, id, "stop", Stop, Done, Done, Done, Done);
  }

  /** The first half of one VPS's life: an admin creates `alpha` for
      `bob`, running; `bob` stops it. Every call succeeds. */
  lemma AlphaCreatedThenStopped(s: State, now: string, c: Step, st: Step)
    requires Valid(s) && !NameTaken(s.vps, "alpha")
    requires c == CreateRoute(s, Principal("root", "admin"), "alpha", "bob", "555", now, Done, Done, Done)
    requires st == ActionRoute(c.state, Principal("bob", "user"), s.nextId, "stop", Done, Done, Done, Done, Done)
    ensures c.reply == Created(s.nextContainer)
    ensures s.nextId in c.state.vps && c.state.vps[s.nextId].status == Running
    ensures st.reply == Message("stop successful")
    ensures s.nextId in st.state.vps
    ensures st.state.vps[s.nextId] == Vps("alpha", "bob", "555", s.nextContainer, now, Stopped)
    ensures s.nextContainer in st.state.containers && !st.state.containers[s.nextContainer].running
  {
    CreatedVpsIsRunning(s, Principal("root", "admin"), "alpha", "bob", "555", now);
    assert c.state.vps[s.nextId] == Vps("alpha", "bob", "555", s.nextContainer, now, Running);
    OwnerStopsOwnVps(c.state, Principal("bob", "user"), s.nextId);
  }

  /** The second half: the admin reinstalls `bob`'s VPS, which comes back
      running on a new container; `carol` cannot reach it; the admin
      deletes it, and both the row and its container are gone. Every call
      succeeds. */
  lemma BobsVpsReinstalledThenDeleted(t: State, id: int, re: Step, peek: Step, del: Step)
    requires Valid(t) && id in t.vps && t.vps[id].owner == "bob" && t.vps[id].containerId in t.containers
    requires re == ActionRoute(t, Principal("root", "admin"), id, "reinstall", Done, Done, Done, Done, Done)
    requires peek == ActionRoute(re.state, Principal("carol", "user"), id, "start", Done, Done, Done, Done, Done)
    requires del == DeleteRoute(re.state, Principal("root", "admin"), id, Done, Done, Done)
    ensures re.reply.Message?
    ensures id in re.state.vps && re.state.vps[id].status == Running
    ensures re.state.vps[id].containerId != t.vps[id].containerId
    ensures re.state.vps[id].containerId in re.state.containers
    ensures peek == Step(re.state, NotFound)
    ensures del.reply == VpsDeleted && id !in del.state.vps
    ensures re.state.vps[id].containerId !in del.state.containers
  {
    assert ParseAction("reinstall") == Reinstall;
    ReinstallKeepsIdentity(t, Principal("root", "admin"), id, "reinstall");
    assert "carol" != "bob" && "user" != "admin";
    HiddenRowActionIsNotFound(re.state, Principal("carol", "user"), id, "start", Done, Done, Done, Done, Done);
  }
}
