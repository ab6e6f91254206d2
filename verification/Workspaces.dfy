/**
 internal/backend/backend.go: workspaces, their path index and their teardown, under
 every interleaving of creates, attaches, detaches, releases, grace timers and teardowns.
 A step is one section under Backend.mu, Workspace.clientsMu or both; what a goroutine
 has still to do between its sections is an `Op`.
 */
module Workspaces {
  import opened Options
  import opened Claims

  /** A workspace object, registered or not.  `shutdowns` counts calls of its hook. */
  datatype Ws = Ws(path: string, clients: Clients, shutdowns: nat)

  /**
   - Building: CreateWorkspace between its two sections
   - Timer: a grace timer that was started; it may fire any time, even after a Stop that
     came too late
   - Stream: an attached SSE stream; it owes one DetachClient
   - Detaching, Releasing: past the lookup, not yet in the section
   - TearingDown: about to call teardown
   - ShuttingDown: about to call the shutdown hook */
  datatype Op =
    | Building(path: string, client: string)
    | Timer(ws: nat, client: string, cell: nat)
    | Stream(ws: nat, client: string)
    | Detaching(ws: nat, client: string)
    | Releasing(ws: nat, client: string)
    | TearingDown(ws: nat)
    | ShuttingDown(ws: nat)

  /** `all` has every workspace object built so far, under its ID. */
  datatype Sys = Sys(
    all: map<nat, Ws>,
    workspaces: set<nat>,
    pathIndex: map<string, nat>,
    nextID: nat,
    nextCell: nat,
    ops: multiset<Op>)

  datatype Step =
    | Create(path: string, client: string)
    | FinishCreate(path: string, client: string)
    | FailCreate(path: string, client: string)
    | AttachClient(ws: nat, client: string)
    | DetachClient(ws: nat, client: string)
    | DetachStream(ws: nat, client: string)
    | DeleteWorkspace(ws: nat, client: string)
    | ReleaseHold(ws: nat, client: string)
    | ExpireHold(ws: nat, client: string, cell: nat)
    | StopTimer(ws: nat, client: string, cell: nat)
    | Teardown(ws: nat)
    | InvokeShutdown(ws: nat)

  function Init(): Sys {
    Sys(map[], {}, map[], 0, 0, multiset{})
  }

  function ClientsOf(s: Sys, id: nat): Clients {
    if id in s.all then s.all[id].clients else map[]
  }

  predicate Enabled(s: Sys, step: Step) {
    match step
    case Create(_, _) => true
    case FinishCreate(path, client) => Building(path, client) in s.ops
    case FailCreate(path, client) => Building(path, client) in s.ops
    case AttachClient(_, _) => true
    case DetachClient(ws, client) => Stream(ws, client) in s.ops
    case DetachStream(ws, client) => Detaching(ws, client) in s.ops
    case DeleteWorkspace(_, _) => true
    case ReleaseHold(ws, client) => Releasing(ws, client) in s.ops
    case ExpireHold(ws, client, cell) => Timer(ws, client, cell) in s.ops
    case StopTimer(ws, client, cell) =>
      Timer(ws, client, cell) in s.ops && !Expires(ClientsOf(s, ws), client, cell)
    case Teardown(ws) => TearingDown(ws) in s.ops
    case InvokeShutdown(ws) => ShuttingDown(ws) in s.ops
  }

  function SetClients(s: Sys, id: nat, cs: Clients): Sys {
    if id in s.all then s.(all := s.all[id := s.all[id].(clients := cs)]) else s
  }

  /** registerClient on a registered workspace; a fresh claim starts its timer. */
  function DoRegister(s: Sys, id: nat, client: string): Sys {
    if client in ClientsOf(s, id) then s
    else
      SetClients(s, id, Register(ClientsOf(s, id), client, s.nextCell))
      .(nextCell := s.nextCell + 1, ops := s.ops + multiset{Timer(id, client, s.nextCell)})
  }

  /** The index names a workspace that is registered. */
  predicate Found(s: Sys, path: string) {
    path in s.pathIndex && s.pathIndex[path] in s.workspaces
  }

  /** First section of CreateWorkspace. */
  function DoCreate(s: Sys, path: string, client: string): Sys {
    if Found(s, path) then DoRegister(s, s.pathIndex[path], client)
    else s.(pathIndex := s.pathIndex - {path}, ops := s.ops + multiset{Building(path, client)})
  }

  /** Second section: the workspace built in between has a new ID. */
  function DoFinishCreate(s: Sys, path: string, client: string): Sys {
    var id := s.nextID;
    var s1 := s.(all := s.all[id := Ws(path, map[], 0)], nextID := id + 1,
                 ops := s.ops - multiset{Building(path, client)});
    if Found(s, path) then
      var s2 := DoRegister(s1, s.pathIndex[path], client);
      s2.(ops := s2.ops + multiset{ShuttingDown(id)})
    else
      DoRegister(s1.(workspaces := s.workspaces + {id}, pathIndex := s.pathIndex[path := id]), id, client)
  }

  function DoAttachClient(s: Sys, id: nat, client: string): Sys {
    if id !in s.workspaces then s
    else
      SetClients(s, id, Attach(ClientsOf(s, id), client, s.nextCell))
      .(nextCell := s.nextCell + 1, ops := s.ops + multiset{Stream(id, client)})
  }

  /** The lookups of DetachClient and DeleteWorkspace hold no lock of the workspace. */
  function DoDetachClient(s: Sys, id: nat, client: string): Sys {
    s.(ops := s.ops - multiset{Stream(id, client)} +
         (if id in s.workspaces then multiset{Detaching(id, client)} else multiset{}))
  }

  function DoDeleteWorkspace(s: Sys, id: nat, client: string): Sys {
    if id in s.workspaces then s.(ops := s.ops + multiset{Releasing(id, client)}) else s
  }

  /** A section that takes claims away; who empties the workspace goes on to teardown. */
  function DoTake(s: Sys, id: nat, cs: Clients, done: Op): Sys {
    SetClients(s, id, cs)
    .(ops := s.ops - multiset{done} +
        (if Emptied(ClientsOf(s, id), cs) then multiset{TearingDown(id)} else multiset{}))
  }

  function DoTeardown(s: Sys, id: nat): Sys {
    var s1 := s.(ops := s.ops - multiset{TearingDown(id)});
    if ClientsOf(s, id) != map[] then s1
    else
      var index :=
        if id in s.all && s.all[id].path in s.pathIndex && s.pathIndex[s.all[id].path] == id
        then s.pathIndex - {s.all[id].path} else s.pathIndex;
      s1.(pathIndex := index, workspaces := s.workspaces - {id}, ops := s1.ops + multiset{ShuttingDown(id)})
  }

  function DoInvokeShutdown(s: Sys, id: nat): Sys {
    var s1 := s.(ops := s.ops - multiset{ShuttingDown(id)});
    if id in s.all then s1.(all := s.all[id := s.all[id].(shutdowns := s.all[id].shutdowns + 1)]) else s1
  }

  function Do(s: Sys, step: Step): Sys
    requires Enabled(s, step)
  {
    match step
    case Create(path, client) => DoCreate(s, path, client)
    case FinishCreate(path, client) => DoFinishCreate(s, path, client)
    case FailCreate(path, client) => s.(ops := s.ops - multiset{Building(path, client)})
    case AttachClient(ws, client) => DoAttachClient(s, ws, client)
    case DetachClient(ws, client) => DoDetachClient(s, ws, client)
    case DetachStream(ws, client) => DoTake(s, ws, Detach(ClientsOf(s, ws), client), Detaching(ws, client))
    case DeleteWorkspace(ws, client) => DoDeleteWorkspace(s, ws, client)
    case ReleaseHold(ws, client) => DoTake(s, ws, Release(ClientsOf(s, ws), client), Releasing(ws, client))
    case ExpireHold(ws, client, cell) => DoTake(s, ws, Expire(ClientsOf(s, ws), client, cell), Timer(ws, client, cell))
    case StopTimer(ws, client, cell) => s.(ops := s.ops - multiset{Timer(ws, client, cell)})
    case Teardown(ws) => DoTeardown(s, ws)
    case InvokeShutdown(ws) => DoInvokeShutdown(s, ws)
  }

  function Next(s: Sys, step: Step): Sys {
    if Enabled(s, step) then Do(s, step) else s
  }

  predicate Run(states: seq<Sys>, steps: seq<Step>) {
    && |states| == |steps| + 1
    && states[0] == Init()
    && forall n :: 0 <= n < |steps| ==> Follows(states, steps, n)
  }

  predicate Follows(states: seq<Sys>, steps: seq<Step>, n: nat)
    requires |states| == |steps| + 1 && n < |steps|
  {
    states[n + 1] == Next(states[n], steps[n])
  }

  // --------------------------------------------------------------------- invariants

  function Streams(cs: Clients, client: string): nat {
    if client in cs then cs[client].streams else 0
  }

  /** What holds of one workspace, given the rest of the state around it. */
  ghost predicate WsOk(s: Sys, id: nat) {
    var cs := ClientsOf(s, id);
    && Shape(cs)
    && (forall c :: c in cs ==> cs[c].cell < s.nextCell)
    && (forall c :: c in cs && cs[c].hold ==> Timer(id, c, cs[c].cell) in s.ops)
    && (forall c :: Streams(cs, c) == s.ops[Stream(id, c)] + s.ops[Detaching(id, c)])
    && (cs != map[] ==> id in s.workspaces)
    && (id in s.workspaces && cs == map[] ==> TearingDown(id) in s.ops)
    && (id in s.workspaces ==> id in s.all && s.all[id].shutdowns == 0 && ShuttingDown(id) !in s.ops)
    && (id in s.all ==> id < s.nextID)
    && (ShuttingDown(id) in s.ops || TearingDown(id) in s.ops ==> id in s.all)
  }

  ghost predicate IndexOk(s: Sys) {
    && (forall p :: p in s.pathIndex ==>
          s.pathIndex[p] in s.workspaces && s.pathIndex[p] in s.all && s.all[s.pathIndex[p]].path == p)
    && (forall id :: id in s.workspaces && id in s.all ==>
          s.all[id].path in s.pathIndex && s.pathIndex[s.all[id].path] == id)
  }

  ghost predicate Inv(s: Sys) {
    && (forall id: nat :: WsOk(s, id))
    && IndexOk(s)
    && (forall ws: nat, c, cell: nat :: Timer(ws, c, cell) in s.ops ==> cell < s.nextCell)
  }
}
