/**
 What becomes of a workspace: whoever leaves the registry is shut down, and each request has the
 effect on the claims that its caller asked for.
 */
module WorkspaceEffects {
  import opened Options
  import opened Claims
  import opened Workspaces
  import opened WorkspaceInvariant

  // ------------------------------------------------------------------------- shutdown

  /** A workspace that was built and is not registered is being shut down, or has been. */
  predicate Closed(s: Sys, id: nat) {
    id in s.all && id !in s.workspaces ==> ShuttingDown(id) in s.ops || s.all[id].shutdowns > 0
  }

  /** Nothing that concerns the shutdown of the workspace is touched. */
  lemma SameClosed(s: Sys, s': Sys, id: nat)
    requires Closed(s, id) && (id in s'.all ==> id in s.all && s'.all[id].shutdowns == s.all[id].shutdowns)
    requires id in s.workspaces ==> id in s'.workspaces
    requires s'.ops[ShuttingDown(id)] >= s.ops[ShuttingDown(id)]
    ensures Closed(s', id)
  {
  }

  lemma RegisterSame(s: Sys, ws: nat, client: string, id: nat)
    ensures var s' := DoRegister(s, ws, client);
            && s'.workspaces == s.workspaces && s'.ops[ShuttingDown(id)] == s.ops[ShuttingDown(id)]
            && (id in s'.all <==> id in s.all) && (id in s.all ==> s'.all[id].shutdowns == s.all[id].shutdowns)
  {
  }

  lemma FinishCreateClosed(s: Sys, path: string, client: string, id: nat)
    requires Inv(s) && Closed(s, id) && Building(path, client) in s.ops
    ensures Closed(DoFinishCreate(s, path, client), id)
  {
    var s1 := Built(s, path, client);
    if Found(s, path) {
      RegisterSame(s1, s.pathIndex[path], client, id);
    } else {
      var s2 := s1.(workspaces := s.workspaces + {s.nextID}, pathIndex := s.pathIndex[path := s.nextID]);
      RegisterSame(s2, s.nextID, client, id);
    }
    hide DoRegister, Inv;
  }

  lemma TakeClosed(s: Sys, ws: nat, cs: Clients, done: Op, id: nat)
    requires Closed(s, id) && !done.ShuttingDown?
    ensures Closed(DoTake(s, ws, cs, done), id)
  {
    hide Emptied;
    SameClosed(s, DoTake(s, ws, cs, done), id);
  }

  lemma TeardownClosed(s: Sys, ws: nat, id: nat)
    requires Inv(s) && Closed(s, id)
    ensures Closed(DoTeardown(s, ws), id) && Closed(DoInvokeShutdown(s, ws), id)
  {
    assert WsOk(s, id);
  }

  lemma OtherClosed(s: Sys, step: Step, id: nat)
    requires Closed(s, id) && Enabled(s, step)
    requires step.Create? || step.FailCreate? || step.AttachClient? || step.DetachClient? || step.DeleteWorkspace?
             || step.StopTimer?
    ensures Closed(Do(s, step), id)
  {
    if step.Create? && Found(s, step.path) { RegisterSame(s, s.pathIndex[step.path], step.client, id); }
    hide Register, Attach, Closed, DoRegister;
    SameClosed(s, Do(s, step), id);
  }

  lemma StepClosed(s: Sys, step: Step, id: nat)
    requires Inv(s) && Closed(s, id)
    ensures Closed(Next(s, step), id)
  {
    hide Inv, Closed, DoFinishCreate, DoTeardown, DoInvokeShutdown, DoTake, DoCreate, DoAttachClient, DoDetachClient;
    if Enabled(s, step) {
      match step
      case FinishCreate(path, client) => FinishCreateClosed(s, path, client, id);
      case DetachStream(ws, c) => TakeClosed(s, ws, Detach(ClientsOf(s, ws), c), Detaching(ws, c), id);
      case ReleaseHold(ws, c) => TakeClosed(s, ws, Release(ClientsOf(s, ws), c), Releasing(ws, c), id);
      case ExpireHold(ws, c, x) => TakeClosed(s, ws, Expire(ClientsOf(s, ws), c, x), Timer(ws, c, x), id);
      case Teardown(ws) => TeardownClosed(s, ws, id);
      case InvokeShutdown(ws) => TeardownClosed(s, ws, id);
      case _ => OtherClosed(s, step, id);
    }
  }

  lemma {:induction false} RunClosed(states: seq<Sys>, steps: seq<Step>, n: nat, id: nat)
    requires Run(states, steps) && n < |states|
    ensures Closed(states[n], id)
  {
    hide Next, Inv;
    if n > 0 {
      RunClosed(states, steps, n - 1, id);
      assert Follows(states, steps, n - 1);
      RunInv(states, steps, n - 1);
      StepClosed(states[n - 1], steps[n - 1], id);
    }
  }

  /** In every run exactly the built workspaces that are not registered are being shut down or have
      been: a teardown always leads to the shutdown, and so does losing the race for a path. */
  lemma {:induction false} ShutDownExactlyIfUnregistered(states: seq<Sys>, steps: seq<Step>, n: nat, id: nat)
    requires Run(states, steps) && n < |states| && id in states[n].all
    ensures id !in states[n].workspaces <==> ShuttingDown(id) in states[n].ops || states[n].all[id].shutdowns > 0
  {
    RunClosed(states, steps, n, id);
    RunInv(states, steps, n);
    assert WsOk(states[n], id);
  }

  /** A pending shutdown, when it runs, calls the hook once. */
  lemma ShutdownCallsHook(s: Sys, id: nat)
    requires Inv(s) && ShuttingDown(id) in s.ops
    ensures var s' := Next(s, InvokeShutdown(id));
            && s'.ops == s.ops - multiset{ShuttingDown(id)}
            && id in s'.all && s'.all[id].shutdowns == s.all[id].shutdowns + 1
  {
    assert WsOk(s, id);
  }

  // ------------------------------------------------------------------- what requests do

  predicate Claimed(s: Sys, path: string, client: string) {
    path in s.pathIndex && s.pathIndex[path] in s.workspaces && client in ClientsOf(s, s.pathIndex[path])
  }

  /** Creating a workspace ends with the client holding a claim on the one registered at the path:
      at once if there is one, else when the new one has been built. */
  lemma {:induction false} CreateClaims(states: seq<Sys>, steps: seq<Step>, n: nat, path: string, client: string)
    requires Run(states, steps) && n < |steps|
    ensures steps[n] == Create(path, client) ==>
              Claimed(states[n + 1], path, client) || Building(path, client) in states[n + 1].ops
    ensures steps[n] == Create(path, client) && path in states[n].pathIndex ==>
              Claimed(states[n + 1], path, client) && states[n + 1].pathIndex == states[n].pathIndex
    ensures steps[n] == FinishCreate(path, client) && Enabled(states[n], steps[n]) ==>
              Claimed(states[n + 1], path, client)
  {
    assert Follows(states, steps, n);
    RunInv(states, steps, n);
    if steps[n] == Create(path, client) { CreateStep(states[n], path, client); }
    if steps[n] == FinishCreate(path, client) && Enabled(states[n], steps[n]) {
      FinishCreateStep(states[n], path, client);
    }
  }

  lemma RegisterClaims(s: Sys, id: nat, client: string)
    requires id in s.all
    ensures client in ClientsOf(DoRegister(s, id, client), id)
    ensures DoRegister(s, id, client).pathIndex == s.pathIndex && DoRegister(s, id, client).workspaces == s.workspaces
  {
  }

  lemma CreateStep(s: Sys, path: string, client: string)
    requires Inv(s)
    ensures var s' := DoCreate(s, path, client);
            && (Claimed(s', path, client) || Building(path, client) in s'.ops)
            && (path in s.pathIndex ==> Claimed(s', path, client) && s'.pathIndex == s.pathIndex)
  {
    if Found(s, path) {
      assert WsOk(s, s.pathIndex[path]);
      RegisterClaims(s, s.pathIndex[path], client);
    }
    hide DoRegister;
  }

  lemma FinishCreateStep(s: Sys, path: string, client: string)
    requires Inv(s)
    ensures Claimed(DoFinishCreate(s, path, client), path, client)
  {
    var s1 := Built(s, path, client);
    if Found(s, path) {
      RegisterClaims(s1, s.pathIndex[path], client);
      var s2 := DoRegister(s1, s.pathIndex[path], client);
      assert ClientsOf(DoFinishCreate(s, path, client), s.pathIndex[path]) == ClientsOf(s2, s.pathIndex[path]);
    } else {
      var s2 := s1.(workspaces := s.workspaces + {s.nextID}, pathIndex := s.pathIndex[path := s.nextID]);
      RegisterClaims(s2, s.nextID, client);
    }
  }

  /** What each request leaves of the client's own claim, and that it leaves the others alone. */
  ghost predicate OthersSame(cs: Clients, cs': Clients, client: string) {
    forall c :: c != client ==> (c in cs' <==> c in cs) && (c in cs ==> cs'[c] == cs[c])
  }

  lemma RequestsDo(cs: Clients, client: string, cell: nat)
    requires Shape(cs)
    ensures client in Register(cs, client, cell) && OthersSame(cs, Register(cs, client, cell), client)
    ensures client in cs ==> Register(cs, client, cell) == cs
    ensures var a := Attach(cs, client, cell);
            client in a && !a[client].hold && a[client].streams == (if client in cs then cs[client].streams else 0) + 1
    ensures OthersSame(cs, Attach(cs, client, cell), client)
    ensures var r := Release(cs, client);
            (client in r <==> client in cs && cs[client].streams > 0) && (client in r ==> r[client] == cs[client])
    ensures OthersSame(cs, Release(cs, client), client)
    ensures var d := Detach(cs, client);
            (client in d <==> client in cs && cs[client].streams != 1)
            && (client in d ==> d[client].hold == cs[client].hold
                                && d[client].streams == if cs[client].hold then 0 else cs[client].streams - 1)
    ensures OthersSame(cs, Detach(cs, client), client)
    ensures var e := Expire(cs, client, cell);
            (client in e <==> client in cs && !(cs[client].hold && cs[client].cell == cell))
            && (client in e ==> e[client] == cs[client])
    ensures OthersSame(cs, Expire(cs, client, cell), client)
  {
  }

  /** Deleting a workspace gives the client's hold back: at once pending, and gone when it ran, with
      teardown to follow exactly if it was the last claim. */
  lemma DeleteReleases(s: Sys, id: nat, client: string)
    requires Inv(s)
    ensures id in s.workspaces ==> Releasing(id, client) in Next(s, DeleteWorkspace(id, client)).ops
    ensures Releasing(id, client) in s.ops ==>
              var s' := Next(s, ReleaseHold(id, client)); var cs, cs' := ClientsOf(s, id), ClientsOf(s', id);
              && (client in cs' ==> cs'[client].streams > 0)
              && OthersSame(cs, cs', client)
              && (s'.ops[TearingDown(id)] > s.ops[TearingDown(id)] <==> cs != map[] && cs' == map[])
  {
    assert WsOk(s, id);
  }
}
