# VPS panel lifecycle model

A Dafny model of the VPS lifecycle in `backend/server.js`: the routes that
list, create, act on (start, stop, restart, reinstall), open a shell on and
delete a VPS. Each VPS is a row of the `vps` SQLite table backed by one
Docker container.

The model keeps two pieces of state: the `vps` table, with its
AUTOINCREMENT counter, and the container engine's containers, each with the
options it was created with and whether it runs. Every call into the engine
or the database that can throw is an explicit `Outcome` input (`Done` or
`Failed(message)`). A call on a container identifier the engine does not
hold always fails, as Docker answers 404 for it.

Modules:

- `Schema`: rows, container options, the state, the replies, and `Valid`.
  `Valid` is the invariant every route keeps:
  - row ids come from the counter;
  - names are unique;
  - container identifiers are never reused;
  - no two rows share a container.
- `Access`: the role gate and the role-dependent queries. An admin sees
  every row. Anyone else sees only the rows they own, and a row they do not
  own looks exactly like a missing one.
- `Shell`: the shell-link reply `ssh.trim() || 'Starting tmate... try again
  in 10s'`. JavaScript's `trim` is modelled with the ECMAScript white-space
  and line-terminator code points.
- `Routes`: each state-changing route as a function from the state and the
  outcomes of its calls to the new state and the reply, with its contract.
- `Server`: `class Panel` holds the table and the containers as fields.
  - It has one method per route, which takes the handler's steps in the
    handler's order and returns at the first step that throws.
  - It has one method per engine or database call.
  - Each state-changing route method (create, action, delete) is proved to
    leave exactly the state and reply that its `Routes` function gives.
- `Properties`: lemmas that span routes, for example:
  - hidden rows;
  - the container a failed create leaks;
  - a row stranded by a failed reinstall;
  - the stale status after a restart;
  - one VPS's life from creation to deletion.

The model follows the code as written, including these behaviours:

- A create that throws after `createContainer` does not remove the
  container it made. The container stays, with no row pointing at it
  (`Properties.FailedCreateLeaksContainer`).
- A reinstall whose creation or start throws after the removal leaves the
  row naming the removed container (`Properties.FailedReinstallStrandsRow`).
  When the start throws, the new, stopped container also stays, with no
  row pointing at it.
- Delete removes the container before the row. When the container no
  longer exists, the removal throws, so that row can neither be acted on
  nor deleted (`Properties.RowWithoutContainerIsStuck`).
- Restart writes nothing to the table, so a row marked `stopped` stays
  `stopped` while its container runs (`Properties.RestartLeavesStatusStale`).
- Only `running` and `stopped` are ever written to `status`.
- The status UPDATEs of the action route are issued without a callback, and
  the route's reply does not depend on them.
- An unrecognised `:action` changes nothing and replies
  `<action> successful` (`Properties.UnknownActionIsNoOp`).
- A failed database read answers 404 on the per-VPS routes and 500 on the
  list route.

## Model

| member | source | states |
|---|---|---|
| Access.ListFor | backend/server.js:72-78 | an admin gets every row; anyone else gets exactly the rows whose owner is their username, each as stored |
| Access.Lookup | backend/server.js:124-126 | the lookup finds the row exactly when it exists and the caller is an admin or its owner, and then it is the stored row |
| Access.HiddenRowLooksMissing | backend/server.js:124-126 | for a non-admin, a row owned by someone else gives the same lookup answer (none) and the same list as if the row were deleted |
| Access.ListAgreesWithLookup | backend/server.js:73-74 | the list route and the per-VPS lookup agree on which rows a caller can see, and on their contents |
| Shell.LeadingWhiteSpace | backend/server.js:180 | the count is the length of the longest white-space prefix |
| Shell.TrailingWhiteSpace | backend/server.js:180 | the count is the length of the longest white-space suffix |
| Shell.Trim | backend/server.js:180 | the result is the infix of the input from the first to the last non-white-space character; it is empty exactly when the input is all white space |
| Shell.TrimIdempotent | backend/server.js:180 | trimming a trimmed string changes nothing |
| Shell.ShellLink | backend/server.js:180 | the reply is never empty; it is the trimmed output, or exactly the retry hint when the output is all white space |
| Routes.CreateRoute | backend/server.js:80-120 | non-admin gets 403 with nothing touched; `Created` exactly when the three calls succeed and the name is free; then one new row under a fresh id, with the new container's id and status running; otherwise no row and a 500 carrying the failing call's message, or the UNIQUE-violation message for an existing name; a made container stays, running only if started; `Valid` is kept |
| Routes.StartAction | backend/server.js:130-132 | the container is started; if the update goes through the row is marked running; a throwing call changes nothing; only this row may change |
| Routes.StopAction | backend/server.js:133-135 | the container is stopped; if the update goes through the row is marked stopped; a throwing call changes nothing; only this row may change |
| Routes.RestartAction | backend/server.js:136-137 | the container runs afterwards and the table is unchanged |
| Routes.ReinstallAction | backend/server.js:138-154 | a failed removal changes nothing; after a removal the old container is gone for good; a throwing creation leaves just that removal, a throwing start leaves the new container stopped, each with its own error; success exactly when removal, creation and start succeed; then the row names a new, running container built like create's, distinct from the old one; on failure the table is unchanged |
| Routes.Reinstalled | backend/server.js:139-154 | the state after a full reinstall: old container gone, new running container under the next identifier, row repointed when the update goes through; `Valid` kept |
| Routes.ParseAction | backend/server.js:130-138 | each of `start`, `stop`, `restart`, `reinstall` selects its own command and only that name does; the action is unknown exactly when it is none of the four |
| Routes.RunCommand | backend/server.js:129-155 | each command has exactly the effect of its action (`StartAction`, `StopAction`, `RestartAction`, `ReinstallAction`); only row `id` can change; a failed command leaves the table unchanged; an unknown command changes nothing and succeeds |
| Routes.ActionRoute | backend/server.js:122-161 | a failed read or an invisible row gives 404 with nothing changed; otherwise the reply is `<action> successful` or a 500; an error leaves the table unchanged; only row `id` can change; an unknown action changes nothing |
| Routes.DeleteRoute | backend/server.js:189-204 | non-admin gets 403; a failed read or missing id gives 404; a throwing removal gives a 500 with its message and changes nothing; a failed row deletion after the removal gives a 500 with its message and leaves the row naming the removed container; `VPS deleted` exactly when the container exists and both succeed; then the row and its container are gone and nothing else changes; the row never goes while its container remains |
| Properties.RouteRunsCommand | backend/server.js:128-158 | on a row the caller can see, the action route runs the command its action names and replies from that command's outcome |
| Properties.HiddenRowActionIsNotFound | backend/server.js:124-126 | a non-admin acting on another's row gets 404 with nothing changed, the same reply as for a missing row |
| Properties.OnlyAdminCreatesOrDeletes | backend/server.js:55-58 | create and delete by a non-admin reply 403 and change nothing |
| Properties.FailedCreateLeaksContainer | backend/server.js:95-119 | a create that fails after making the container leaves it in the engine with no row pointing at it |
| Properties.CreatedVpsIsRunning | backend/server.js:95-116 | a created VPS is the only row with its name and names a running container built for it |
| Properties.RowWithoutContainerIsStuck | backend/server.js:129-159 | when a row's container is gone, every action and the delete reply the engine's 500 and change nothing |
| Properties.FailedReinstallStrandsRow | backend/server.js:138-154 | a reinstall failing after the removal leaves the table unchanged, with the row naming the removed container; when the start fails, the new stopped container stays with no row pointing at it |
| Properties.ReinstallKeepsIdentity | backend/server.js:138-156 | a successful reinstall keeps the row's name, owner, support and creation time, marks it running and repoints it to a new running container built like create's; the old container is gone |
| Properties.RestartLeavesStatusStale | backend/server.js:136-137 | after a restart a row marked stopped stays stopped while its container runs |
| Properties.UnknownActionIsNoOp | backend/server.js:129-156 | any action other than the four names, on a visible row, changes nothing and replies `<action> successful`, whatever the calls would do |
| Properties.StartOnVisibleRow | backend/server.js:130-132 | `start` on a visible row, for any outcomes: a throw gives a 500 with its message and changes nothing; otherwise `start successful`, the container runs, and the row is marked running if the update goes through |
| Properties.OwnerStopsOwnVps | backend/server.js:124-135 | an owner can stop their own VPS: the container stops and only that row is marked stopped |
| Properties.AlphaCreatedThenStopped | backend/server.js:80-135 | an admin creates a VPS for a user, running; the user stops it: the row is as created but stopped, and the container is stopped |
| Properties.BobsVpsReinstalledThenDeleted | backend/server.js:122-204 | an admin reinstalls a user's VPS onto a new running container; another user gets 404 for it; the admin deletes it and both the row and the container are gone |
| Server.Panel.constructor | backend/server.js:26-34 | a fresh server has an empty table, no containers and a valid state |
| Server.Panel.CreateContainer | backend/server.js:95-106 | a new stopped container under the next identifier, or the engine's error with nothing changed |
| Server.Panel.SetContainerRunning | backend/server.js:108 | start or stop a held container; an unknown identifier or a throwing call changes nothing |
| Server.Panel.RemoveContainer | backend/server.js:139 | force removal of a held container; an unknown identifier or a throwing call changes nothing |
| Server.Panel.Exec | backend/server.js:169-176 | exec fails on an unknown container, otherwise goes as the engine says |
| Server.Panel.Insert | backend/server.js:109-116 | the INSERT fails with the database's error or on a repeated name; otherwise the row gets the next id |
| Server.Panel.SetStatus | backend/server.js:132 | the status UPDATE changes only that row's status, and nothing when it fails |
| Server.Panel.SetContainer | backend/server.js:154 | the reinstall UPDATE changes only that row's container id and status, and nothing when it fails |
| Server.Panel.DeleteRow | backend/server.js:196-199 | the DELETE removes exactly that row, or nothing when it fails |
| Server.Panel.StartVps | backend/server.js:130-132 | the state and outcome are those of `Routes.StartAction` |
| Server.Panel.StopVps | backend/server.js:133-135 | the state and outcome are those of `Routes.StopAction` |
| Server.Panel.RestartVps | backend/server.js:136-137 | the state and outcome are those of `Routes.RestartAction` |
| Server.Panel.ReinstallVps | backend/server.js:138-154 | the state and outcome are those of `Routes.ReinstallAction` |
| Server.Panel.RunVpsCommand | backend/server.js:129-155 | the state and outcome are those of `Routes.RunCommand` |
| Server.Panel.List | backend/server.js:72-78 | the caller's view of the table, or a 500 with the database's error |
| Server.Panel.Create | backend/server.js:80-120 | keeps `Valid` and leaves the state and reply of `Routes.CreateRoute` |
| Server.Panel.Action | backend/server.js:122-161 | keeps `Valid` and leaves the state and reply of `Routes.ActionRoute` |
| Server.Panel.Ssh | backend/server.js:163-187 | 404 for a failed read or an invisible row; otherwise the `SshLink` reply, never empty, or a 500 when the exec fails |
| Server.Panel.Delete | backend/server.js:189-204 | keeps `Valid` and leaves the state and reply of `Routes.DeleteRoute` |

## Left out

- Express routing, CORS and JSON parsing. Replies are values, with HTTP
  codes only for the 403, 404 and 500 outcomes.
- JWT verification, token signing, bcrypt login and password hashing. The
  routes take an already-authenticated principal (username and role).
- The `docker.buildImage` call with its progress stream. It is
  fire-and-forget and nothing waits on its result.
- The tmate pipeline run by `exec` and the stream events that collect its
  output. `Server.Panel.Ssh` takes the collected output as a string and an
  `Outcome` for the exec and its start.
- The user routes, `backend/scripts/createUser.js` and the frontend. They
  are not part of this model.
- Concurrency. Each handler is one atomic step, so requests on the event
  loop do not interleave.
- Engine refusals other than a missing container are left to the `Outcome`
  inputs. These are the 304 for starting a running container and the 409
  for a name clash.
- Error texts are approximated by constants:
  - `UniqueNameViolation` for SQLite's UNIQUE error;
  - `NoSuchContainer` for Docker's 404.
- The `created_at` default `CURRENT_TIMESTAMP` is a parameter.
- Body fields are taken as strings. The model has no `undefined` and no SQL
  `NULL`.
- The `:id` path segment is an integer.
- The order of the rows that the list returns is abstracted: the rows are a
  map.
- Server.Panel.SetStatus and Server.Panel.SetContainer: a callback-less
  UPDATE that fails is modelled as changing nothing. In the sqlite3 library
  such an error is emitted as an `'error'` event, and with no listener that
  ends the Node process after the reply has gone out. The model does not
  capture the process ending.
