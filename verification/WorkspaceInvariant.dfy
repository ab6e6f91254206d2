/**
 What every reachable state of the workspace registry satisfies.
 */
module WorkspaceInvariant {
  import opened Options
  import opened Claims
  import opened Workspaces

  // --------------------------------------------------------------- frame of one step

  function Subject(op: Op): Option<nat> {
    match op
    case Building(_, _) => None
    case Timer(ws, _, _) => Some(ws)
    case Stream(ws, _) => Some(ws)
    case Detaching(ws, _) => Some(ws)
    case Releasing(ws, _) => Some(ws)
    case TearingDown(ws) => Some(ws)
    case ShuttingDown(ws) => Some(ws)
  }

  /** Workspace y, its registration and the pending work on it stay as they are. */
  ghost predicate Same(s: Sys, s': Sys, y: nat) {
    && (y in s.all <==> y in s'.all) && (y in s.all ==> s'.all[y] == s.all[y])
    && (y in s.workspaces <==> y in s'.workspaces)
    && (forall op :: Subject(op) == Some(y) ==> s'.ops[op] == s.ops[op])
  }

  lemma OthersOk(s: Sys, s': Sys, id: nat)
    requires Inv(s) && s'.nextID >= s.nextID && s'.nextCell >= s.nextCell
    requires forall y: nat :: y != id ==> Same(s, s', y)
    requires WsOk(s', id)
    ensures forall y: nat :: WsOk(s', y)
  {
    forall y: nat
      ensures WsOk(s', y)
    {
      if y != id {
        assert WsOk(s, y) && Same(s, s', y);
        assert forall c :: Subject(Stream(y, c)) == Some(y) && Subject(Detaching(y, c)) == Some(y);
        assert Subject(TearingDown(y)) == Some(y) && Subject(ShuttingDown(y)) == Some(y);
        assert forall c, cell :: Subject(Timer(y, c, cell)) == Some(y);
      }
    }
  }

  // -------------------------------------------------------------------- the steps

  lemma RegisterOk(s: Sys, id: nat, client: string)
    requires Inv(s) && id in s.workspaces
    ensures Inv(DoRegister(s, id, client))
  {
    var s' := DoRegister(s, id, client);
    assert WsOk(s, id);
    if client !in ClientsOf(s, id) {
      ShapeKept(ClientsOf(s, id), client, s.nextCell);
      OthersOk(s, s', id);
    }
  }

  lemma AttachOk(s: Sys, id: nat, client: string)
    requires Inv(s) && id in s.workspaces
    ensures Inv(DoAttachClient(s, id, client))
  {
    var s' := DoAttachClient(s, id, client);
    assert WsOk(s, id);
    ShapeKept(ClientsOf(s, id), client, s.nextCell);
    OthersOk(s, s', id);
  }

  lemma DetachClientOk(s: Sys, id: nat, client: string)
    requires Inv(s) && Stream(id, client) in s.ops
    ensures id in s.workspaces && Inv(DoDetachClient(s, id, client))
  {
    var s' := DoDetachClient(s, id, client);
    assert WsOk(s, id);
    assert Streams(ClientsOf(s, id), client) > 0;
    OthersOk(s, s', id);
  }

  /** Claims taken away: some go, the rest keep their clientState, and `done` accounts for
      the stream that ends. */
  predicate Takes(s: Sys, id: nat, cs: Clients, done: Op) {
    && done in s.ops && Subject(done) == Some(id) && (done.Timer? || done.Detaching? || done.Releasing?)
    && Shape(cs)
    && (forall c :: c in cs ==> c in ClientsOf(s, id) && cs[c].cell == ClientsOf(s, id)[c].cell)
    && (forall c :: c in cs && cs[c].hold ==>
          ClientsOf(s, id)[c].hold && (Timer(id, c, cs[c].cell) != done || s.ops[done] > 1))
  }

  lemma TakeWsOk(s: Sys, id: nat, cs: Clients, done: Op)
    requires WsOk(s, id) && id in s.all && Takes(s, id, cs, done)
    requires forall c :: Streams(cs, c) + Bit(done == Detaching(id, c)) == Streams(ClientsOf(s, id), c)
    ensures WsOk(DoTake(s, id, cs, done), id)
  {
    var s' := DoTake(s, id, cs, done);
    assert ClientsOf(s', id) == cs;
    forall c
      ensures Streams(cs, c) == s'.ops[Stream(id, c)] + s'.ops[Detaching(id, c)]
    {
      assert Streams(ClientsOf(s, id), c) == s.ops[Stream(id, c)] + s.ops[Detaching(id, c)];
    }
    forall c | c in cs && cs[c].hold
      ensures Timer(id, c, cs[c].cell) in s'.ops
    {
      assert Timer(id, c, ClientsOf(s, id)[c].cell) in s.ops;
    }
  }

  lemma TakeOk(s: Sys, id: nat, cs: Clients, done: Op)
    requires Inv(s) && id in s.all && Takes(s, id, cs, done)
    requires forall c :: Streams(cs, c) + Bit(done == Detaching(id, c)) == Streams(ClientsOf(s, id), c)
    ensures Inv(DoTake(s, id, cs, done))
  {
    assert WsOk(s, id);
    TakeWsOk(s, id, cs, done);
    hide WsOk, Shape, Emptied;
    TakeRest(s, id, cs, done);
  }

  lemma TakeOthers(s: Sys, id: nat, cs: Clients, done: Op)
    requires id in s.all && Subject(done) == Some(id)
    ensures forall y: nat :: y != id ==> Same(s, DoTake(s, id, cs, done), y)
  {
    hide Emptied;
  }

  lemma TakeRest(s: Sys, id: nat, cs: Clients, done: Op)
    requires Inv(s) && id in s.all && Subject(done) == Some(id) && WsOk(DoTake(s, id, cs, done), id)
    ensures Inv(DoTake(s, id, cs, done))
  {
    hide WsOk, Shape, Emptied, Subject;
    var s' := DoTake(s, id, cs, done);
    assert IndexOk(s');
    TakeOthers(s, id, cs, done);
    OthersOk(s, s', id);
  }

  function Bit(b: bool): nat {
    if b then 1 else 0
  }

  lemma DetachStreamOk(s: Sys, id: nat, client: string)
    requires Inv(s) && Detaching(id, client) in s.ops
    ensures Inv(DoTake(s, id, Detach(ClientsOf(s, id), client), Detaching(id, client)))
  {
    var cs := ClientsOf(s, id);
    assert WsOk(s, id);
    assert Streams(cs, client) > 0;
    ShapeKept(cs, client, 0);
    TakeOk(s, id, Detach(cs, client), Detaching(id, client));
  }

  /** Work on a workspace without claims changes nothing but the list of work. */
  lemma NothingToTake(s: Sys, id: nat, done: Op)
    requires Inv(s) && done in s.ops && ClientsOf(s, id) == map[]
    requires done.Timer? || done.Releasing?
    requires Subject(done) == Some(id)
    ensures Inv(DoTake(s, id, map[], done))
  {
    assert WsOk(s, id);
    NothingWsOk(s, id, done);
    hide WsOk;
    if id in s.all {
      TakeRest(s, id, map[], done);
    } else {
      var s' := DoTake(s, id, map[], done);
      OthersOk(s, s', id);
    }
  }

  lemma NothingWsOk(s: Sys, id: nat, done: Op)
    requires WsOk(s, id) && done in s.ops && ClientsOf(s, id) == map[] && (done.Timer? || done.Releasing?)
    ensures WsOk(DoTake(s, id, map[], done), id)
  {
  }

  lemma ReleaseOk(s: Sys, id: nat, client: string)
    requires Inv(s) && Releasing(id, client) in s.ops
    ensures Inv(DoTake(s, id, Release(ClientsOf(s, id), client), Releasing(id, client)))
  {
    var cs := ClientsOf(s, id);
    assert WsOk(s, id);
    if cs == map[] {
      NothingToTake(s, id, Releasing(id, client));
    } else {
      ShapeKept(cs, client, 0);
      TakeOk(s, id, Release(cs, client), Releasing(id, client));
    }
  }

  lemma ExpireOk(s: Sys, id: nat, client: string, cell: nat)
    requires Inv(s) && Timer(id, client, cell) in s.ops
    ensures Inv(DoTake(s, id, Expire(ClientsOf(s, id), client, cell), Timer(id, client, cell)))
  {
    var cs := ClientsOf(s, id);
    assert WsOk(s, id);
    if cs == map[] {
      NothingToTake(s, id, Timer(id, client, cell));
    } else {
      ShapeKept(cs, client, cell);
      TakeOk(s, id, Expire(cs, client, cell), Timer(id, client, cell));
    }
  }

  lemma StopTimerOk(s: Sys, id: nat, client: string, cell: nat)
    requires Inv(s) && Timer(id, client, cell) in s.ops && !Expires(ClientsOf(s, id), client, cell)
    ensures Inv(s.(ops := s.ops - multiset{Timer(id, client, cell)}))
  {
    assert WsOk(s, id);
    OthersOk(s, s.(ops := s.ops - multiset{Timer(id, client, cell)}), id);
  }

  lemma TeardownOk(s: Sys, id: nat)
    requires Inv(s) && TearingDown(id) in s.ops
    ensures Inv(DoTeardown(s, id))
  {
    assert WsOk(s, id);
    var s' := DoTeardown(s, id);
    OthersOk(s, s', id);
  }

  lemma InvokeShutdownOk(s: Sys, id: nat)
    requires Inv(s) && ShuttingDown(id) in s.ops
    ensures Inv(DoInvokeShutdown(s, id))
  {
    assert WsOk(s, id);
    var s' := DoInvokeShutdown(s, id);
    OthersOk(s, s', id);
  }

  lemma CreateOk(s: Sys, path: string, client: string)
    requires Inv(s)
    ensures Inv(DoCreate(s, path, client))
  {
    if Found(s, path) {
      RegisterOk(s, s.pathIndex[path], client);
    } else {
      var s' := DoCreate(s, path, client);
      assert path !in s.pathIndex;
      assert WsOk(s, 0);
      OthersOk(s, s', 0);
    }
  }

  /** The state with the workspace a CreateWorkspace has built, not yet registered. */
  function Built(s: Sys, path: string, client: string): Sys {
    s.(all := s.all[s.nextID := Ws(path, map[], 0)], nextID := s.nextID + 1,
       ops := s.ops - multiset{Building(path, client)})
  }

  lemma BuiltOk(s: Sys, path: string, client: string)
    requires Inv(s)
    ensures Inv(Built(s, path, client))
    ensures s.nextID !in s.workspaces
    ensures forall op :: Subject(op) == Some(s.nextID) ==> op.Timer? || op.Releasing? || op !in s.ops
  {
    var id, s' := s.nextID, Built(s, path, client);
    assert WsOk(s, id);
    forall op | Subject(op) == Some(id) && !op.Timer? && !op.Releasing?
      ensures op !in s.ops
    {
      match op
      case Stream(_, c) => assert Streams(ClientsOf(s, id), c) == 0;
      case Detaching(_, c) => assert Streams(ClientsOf(s, id), c) == 0;
      case TearingDown(_) =>
      case ShuttingDown(_) =>
    }
    OthersOk(s, s', id);
  }

  lemma WinInv(s1: Sys, id: nat, client: string)
    requires Inv(s1) && id in s1.all && id !in s1.workspaces && s1.all[id] == Ws(s1.all[id].path, map[], 0)
    requires s1.all[id].path !in s1.pathIndex
    requires ShuttingDown(id) !in s1.ops
    ensures var s2 := s1.(workspaces := s1.workspaces + {id}, pathIndex := s1.pathIndex[s1.all[id].path := id]);
            Inv(DoRegister(s2, id, client))
  {
    assert WsOk(s1, id);
    var s2 := s1.(workspaces := s1.workspaces + {id}, pathIndex := s1.pathIndex[s1.all[id].path := id]);
    var s' := DoRegister(s2, id, client);
    assert WsOk(s', id);
    OthersOk(s1, s', id);
  }

  lemma LoseInv(s2: Sys, id: nat)
    requires Inv(s2) && id in s2.all && id !in s2.workspaces
    ensures Inv(s2.(ops := s2.ops + multiset{ShuttingDown(id)}))
  {
    assert WsOk(s2, id);
    OthersOk(s2, s2.(ops := s2.ops + multiset{ShuttingDown(id)}), id);
  }

  lemma FinishCreateOk(s: Sys, path: string, client: string)
    requires Inv(s) && Building(path, client) in s.ops
    ensures Inv(DoFinishCreate(s, path, client))
  {
    var id, s1 := s.nextID, Built(s, path, client);
    BuiltOk(s, path, client);
    if Found(s, path) {
      RegisterOk(s1, s.pathIndex[path], client);
      LoseInv(DoRegister(s1, s.pathIndex[path], client), id);
    } else {
      assert Subject(ShuttingDown(id)) == Some(id);
      WinInv(s1, id, client);
    }
  }

  lemma QuietOk(s: Sys, s': Sys, id: nat)
    requires Inv(s) && s' == s.(ops := s'.ops)
    requires forall op: Op :: !op.Building? && !op.Releasing? ==> s'.ops[op] == s.ops[op]
    ensures Inv(s')
  {
    forall y: nat
      ensures WsOk(s', y)
    {
      assert WsOk(s, y);
    }
  }

  lemma StepInv(s: Sys, step: Step)
    requires Inv(s)
    ensures Inv(Next(s, step))
  {
    if Enabled(s, step) {
      match step
      case Create(path, client) => CreateOk(s, path, client);
      case FinishCreate(path, client) => FinishCreateOk(s, path, client);
      case FailCreate(path, client) => QuietOk(s, s.(ops := s.ops - multiset{Building(path, client)}), 0);
      case AttachClient(ws, client) => if ws in s.workspaces { AttachOk(s, ws, client); }
      case DetachClient(ws, client) => DetachClientOk(s, ws, client);
      case DetachStream(ws, client) => DetachStreamOk(s, ws, client);
      case DeleteWorkspace(ws, client) => QuietOk(s, DoDeleteWorkspace(s, ws, client), ws);
      case ReleaseHold(ws, client) => ReleaseOk(s, ws, client);
      case ExpireHold(ws, client, cell) => ExpireOk(s, ws, client, cell);
      case StopTimer(ws, client, cell) => StopTimerOk(s, ws, client, cell);
      case Teardown(ws) => TeardownOk(s, ws);
      case InvokeShutdown(ws) => InvokeShutdownOk(s, ws);
    }
  }

  lemma {:induction false} RunInv(states: seq<Sys>, steps: seq<Step>, n: nat)
    requires Run(states, steps) && n < |states|
    ensures Inv(states[n])
  {
    hide Next, Inv;
    if n == 0 {
      InitInv();
    } else {
      RunInv(states, steps, n - 1);
      assert Follows(states, steps, n - 1);
      StepInv(states[n - 1], steps[n - 1]);
    }
  }

  lemma InitInv()
    ensures Inv(Init())
  {
    forall id: nat
      ensures WsOk(Init(), id)
    {
      assert ClientsOf(Init(), id) == map[];
    }
    hide WsOk;
    assert IndexOk(Init());
  }
}
