/**
 internal/backend/backend.go: the claims clients hold on one workspace, and each section
 under clientsMu as a function on them.
 */
module Claims {
  /** A clientState.  `hold` says its holdTimer is set; `cell` tells one clientState from
      another, as its address does. */
  datatype Claim = Claim(streams: nat, hold: bool, cell: nat)

  type Clients = map<string, Claim>

  /** registerClient: a fresh hold unless the client has a claim already. */
  function Register(cs: Clients, client: string, cell: nat): Clients {
    if client in cs then cs else cs[client := Claim(0, true, cell)]
  }

  /** AttachClient converts the hold into a stream, or adds a stream. */
  function Attach(cs: Clients, client: string, cell: nat): Clients {
    if client in cs then cs[client := Claim(cs[client].streams + 1, false, cs[client].cell)]
    else cs[client := Claim(1, false, cell)]
  }

  /** The grace timer started for `cell` fires. */
  predicate Expires(cs: Clients, client: string, cell: nat) {
    client in cs && cs[client].cell == cell && cs[client].hold && cs[client].streams == 0
  }

  function Expire(cs: Clients, client: string, cell: nat): Clients {
    if Expires(cs, client, cell) then cs - {client} else cs
  }

  /** releaseHoldLocked: the hold goes, streams stay. */
  function Release(cs: Clients, client: string): Clients {
    if client !in cs then cs
    else if cs[client].streams == 0 then cs - {client}
    else cs[client := cs[client].(hold := false)]
  }

  /** detachStream. */
  function Detach(cs: Clients, client: string): Clients {
    if client !in cs then cs
    else
      var n := if cs[client].streams > 0 then cs[client].streams - 1 else 0;
      if n == 0 && !cs[client].hold then cs - {client} else cs[client := cs[client].(streams := n)]
  }

  /** Every claim is a pending hold or some streams, and never both. */
  predicate Shape(cs: Clients) {
    forall c :: c in cs ==> (cs[c].hold <==> cs[c].streams == 0)
  }

  /** The section took the last claim away, so its caller goes on to teardown. */
  predicate Emptied(before: Clients, after: Clients) {
    before != map[] && after == map[]
  }

  /** No section breaks the shape of the claims, matched or not. */
  lemma ShapeKept(cs: Clients, client: string, cell: nat)
    requires Shape(cs)
    ensures Shape(Register(cs, client, cell)) && Shape(Attach(cs, client, cell))
    ensures Shape(Expire(cs, client, cell)) && Shape(Release(cs, client)) && Shape(Detach(cs, client))
  {
  }

  class Workspace {
    const id: nat
    const resolvedPath: string
    var clients: Clients
    var closing: bool
    var runWG: nat
    var shutdowns: nat

    constructor (id: nat, resolvedPath: string)
      ensures this.id == id && this.resolvedPath == resolvedPath
      ensures clients == map[] && !closing && runWG == 0 && shutdowns == 0
    {
      this.id, this.resolvedPath := id, resolvedPath;
      clients, closing, runWG, shutdowns := map[], false, 0, 0;
    }

    method RegisterClient(client: string, cell: nat)
      modifies this`clients
      ensures clients == Register(old(clients), client, cell)
    {
      if client in clients {
        return;
      }
      clients := clients[client := Claim(0, true, cell)];
    }

    method AttachStream(client: string, cell: nat)
      modifies this`clients
      ensures clients == Attach(old(clients), client, cell)
    {
      if client !in clients {
        clients := clients[client := Claim(1, false, cell)];
        return;
      }
      var cs := clients[client];
      if cs.hold {
        cs := cs.(hold := false);
      }
      cs := cs.(streams := cs.streams + 1);
      clients := clients[client := cs];
    }

    method ExpireHold(client: string, cell: nat) returns (teardown: bool)
      modifies this`clients
      ensures clients == Expire(old(clients), client, cell)
      ensures teardown <==> Emptied(old(clients), clients)
    {
      if client !in clients {
        return false;
      }
      var cs := clients[client];
      if cs.cell != cell || !cs.hold || cs.streams > 0 {
        return false;
      }
      clients := clients - {client};
      teardown := |clients| == 0;
    }

    method ReleaseHold(client: string) returns (teardown: bool)
      modifies this`clients
      ensures clients == Release(old(clients), client)
      ensures teardown <==> Emptied(old(clients), clients)
    {
      if client !in clients {
        return false;
      }
      var cs := clients[client];
      if cs.hold {
        cs := cs.(hold := false);
        clients := clients[client := cs];
      }
      teardown := false;
      if cs.streams == 0 {
        clients := clients - {client};
        assert clients == old(clients) - {client};
        teardown := |clients| == 0;
      }
    }

    method DetachStream(client: string) returns (teardown: bool)
      modifies this`clients
      ensures clients == Detach(old(clients), client)
      ensures teardown <==> Emptied(old(clients), clients)
    {
      if client !in clients {
        return false;
      }
      var cs := clients[client];
      if cs.streams > 0 {
        cs := cs.(streams := cs.streams - 1);
        clients := clients[client := cs];
      }
      teardown := false;
      if cs.streams == 0 && !cs.hold {
        clients := clients - {client};
        assert clients == old(clients) - {client};
        teardown := |clients| == 0;
      }
    }

    /** The gate in SendMessage: a ticket, or ErrWorkspaceClosing. */
    method TakeTicket() returns (ok: bool)
      modifies this`runWG
      ensures ok == !closing && runWG == old(runWG) + (if ok then 1 else 0)
    {
      if closing {
        return false;
      }
      runWG := runWG + 1;
      ok := true;
    }
  }
}
