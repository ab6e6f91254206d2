/**
 internal/backend/backend.go: the Backend's registry, updated in place under Backend.mu.
 Every method here is one section under that lock.
 */
module Backends {
  import opened Claims

  class Backend {
    var workspaces: map<nat, Workspace>
    var pathIndex: map<string, nat>
    /** The next clientState to be allocated; see Claims.Claim. */
    var nextCell: nat

    /** Workspaces are registered under their own IDs, so no two entries share an object. */
    predicate Valid()
      reads this
    {
      forall id :: id in workspaces ==> workspaces[id].id == id
    }

    /** Index and registry name the same workspaces. */
    ghost predicate Bijective()
      reads this
    {
      && (forall p :: p in pathIndex ==> pathIndex[p] in workspaces && workspaces[pathIndex[p]].resolvedPath == p)
      && (forall id :: id in workspaces ==>
            workspaces[id].resolvedPath in pathIndex && pathIndex[workspaces[id].resolvedPath] == id)
    }

    constructor ()
      ensures workspaces == map[] && pathIndex == map[] && Valid() && Bijective()
    {
      workspaces, pathIndex, nextCell := map[], map[], 0;
    }

    /** The claims of every registered workspace but `id` are as they were. */
    twostate predicate OthersKept(id: nat)
      reads this, workspaces.Values
    {
      forall j :: j in old(workspaces) && j in workspaces && j != id && workspaces[j] == old(workspaces[j]) ==>
        workspaces[j].clients == old(workspaces[j].clients)
    }

    method Register(ws: Workspace, client: string)
      modifies this`nextCell, ws`clients
      ensures ws.clients == Claims.Register(old(ws.clients), client, old(nextCell))
      ensures nextCell == old(nextCell) + 1
    {
      ws.RegisterClient(client, nextCell);
      nextCell := nextCell + 1;
    }

    /** The first section of CreateWorkspace: claim the workspace at the path, if there is
        one, and forget an index entry that leads nowhere. */
    method CreateLookup(path: string, client: string) returns (ws: Workspace?)
      requires Valid()
      modifies this`pathIndex, this`nextCell, workspaces.Values`clients
      ensures Valid() && workspaces == old(workspaces)
      ensures path in old(pathIndex) && old(pathIndex)[path] in workspaces ==>
                && ws == workspaces[old(pathIndex)[path]] && pathIndex == old(pathIndex)
                && ws.clients == Claims.Register(old(workspaces[pathIndex[path]].clients), client, old(nextCell))
                && OthersKept(ws.id)
      ensures !(path in old(pathIndex) && old(pathIndex)[path] in workspaces) ==>
                ws == null && pathIndex == old(pathIndex) - {path}
                && forall j :: j in workspaces ==> workspaces[j].clients == old(workspaces[j].clients)
      ensures old(Bijective()) ==> Bijective() && (ws == null <==> path !in pathIndex)
    {
      if path in pathIndex {
        var existingID := pathIndex[path];
        if existingID in workspaces {
          ws := workspaces[existingID];
          Register(ws, client);
          return;
        }
        pathIndex := pathIndex - {path};
      }
      ws := null;
      assert pathIndex == old(pathIndex) - {path};
    }

    /** The second section: the workspace `built` in between is registered with its claim,
        unless another caller won the path meanwhile. */
    method CreateFinish(built: Workspace, client: string) returns (ws: Workspace)
      requires Valid() && built.id !in workspaces && built.clients == map[]
      modifies this, workspaces.Values`clients, built`clients
      ensures Valid()
      ensures built.resolvedPath in old(pathIndex) && old(pathIndex)[built.resolvedPath] in old(workspaces) ==>
                && ws == old(workspaces)[old(pathIndex)[built.resolvedPath]]
                && workspaces == old(workspaces) && pathIndex == old(pathIndex)
                && ws.clients
                   == old(Claims.Register(workspaces[pathIndex[built.resolvedPath]].clients, client, nextCell))
                && OthersKept(ws.id)
      ensures !(built.resolvedPath in old(pathIndex) && old(pathIndex)[built.resolvedPath] in old(workspaces)) ==>
                && ws == built
                && workspaces == old(workspaces)[built.id := built]
                && pathIndex == old(pathIndex)[built.resolvedPath := built.id]
                && ws.clients == map[client := Claim(0, true, old(nextCell))]
      ensures old(Bijective()) ==> Bijective()
    {
      var path := built.resolvedPath;
      if path in pathIndex && pathIndex[path] in workspaces {
        ws := workspaces[pathIndex[path]];
        Register(ws, client);
        return;
      }
      workspaces := workspaces[built.id := built];
      pathIndex := pathIndex[path := built.id];
      ws := built;
      Register(ws, client);
    }

    method AttachClient(id: nat, client: string) returns (ok: bool)
      requires Valid()
      modifies this`nextCell, workspaces.Values`clients
      ensures ok <==> id in workspaces
      ensures ok ==> workspaces[id].clients == Attach(old(workspaces[id].clients), client, old(nextCell))
      ensures ok ==> OthersKept(id)
      ensures !ok ==> forall j :: j in workspaces ==> workspaces[j].clients == old(workspaces[j].clients)
    {
      if id !in workspaces {
        return false;
      }
      workspaces[id].AttachStream(client, nextCell);
      nextCell := nextCell + 1;
      return true;
    }

    /** The section of teardown: abort if the workspace has been claimed again, else take it
        out of the index and the registry.  `remaining` workspaces are left. */
    method Teardown(ws: Workspace) returns (removed: bool, remaining: nat)
      requires Valid()
      requires ws.id in workspaces ==> workspaces[ws.id] == ws
      modifies this`workspaces, this`pathIndex
      ensures Valid() && (removed <==> ws.clients == map[])
      ensures workspaces == if removed then old(workspaces) - {ws.id} else old(workspaces)
      ensures old(Bijective()) && (removed ==> ws.id in old(workspaces)) ==>
                pathIndex == if removed then old(pathIndex) - {ws.resolvedPath} else old(pathIndex)
      ensures old(Bijective()) ==> Bijective()
      ensures removed ==> remaining == |workspaces|
    {
      if |ws.clients| > 0 {
        return false, 0;
      }
      if ws.resolvedPath in pathIndex && pathIndex[ws.resolvedPath] == ws.id {
        pathIndex := pathIndex - {ws.resolvedPath};
      }
      workspaces := workspaces - {ws.id};
      return true, |workspaces|;
    }
  }
}
