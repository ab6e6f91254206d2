/**
 What the workspace registry guarantees in every run.
 */
module WorkspaceTheorems {
  import opened Options
  import opened Claims
  import opened Workspaces
  import opened WorkspaceInvariant

  /** A workspace with a claim on it is registered and nobody has begun to shut it down. */
  lemma {:induction false} LiveClaimsAreSafe(states: seq<Sys>, steps: seq<Step>, n: nat, id: nat)
    requires Run(states, steps) && n < |states| && ClientsOf(states[n], id) != map[]
    ensures id in states[n].workspaces && id in states[n].all
    ensures states[n].all[id].shutdowns == 0 && ShuttingDown(id) !in states[n].ops
  {
    RunInv(states, steps, n);
    assert WsOk(states[n], id);
  }

  lemma StepRegisters(s: Sys, step: Step, id: nat)
    requires id < s.nextID && id !in s.workspaces
    ensures id < Next(s, step).nextID && id !in Next(s, step).workspaces
  {
    hide DoFinishCreate, Register, Attach, Expire, Release, Detach;
    if Enabled(s, step) {
      match step
      case FinishCreate(path, client) => FinishCreateRegisters(s, path, client, id);
      case _ =>
    }
  }

  lemma FinishCreateRegisters(s: Sys, path: string, client: string, id: nat)
    requires id < s.nextID && id !in s.workspaces
    ensures id < DoFinishCreate(s, path, client).nextID && id !in DoFinishCreate(s, path, client).workspaces
  {
  }

  /** A workspace that is not registered never is again, and never gains a client again. */
  lemma {:induction false} GoneForGood(states: seq<Sys>, steps: seq<Step>, m: nat, n: nat, id: nat)
    requires Run(states, steps) && m <= n < |states|
    requires id < states[m].nextID && id !in states[m].workspaces
    ensures id < states[n].nextID && id !in states[n].workspaces && ClientsOf(states[n], id) == map[]
    decreases n
  {
    hide Next;
    if m < n {
      GoneForGood(states, steps, m, n - 1, id);
      assert Follows(states, steps, n - 1);
      StepRegisters(states[n - 1], steps[n - 1], id);
    }
    if ClientsOf(states[n], id) != map[] {
      LiveClaimsAreSafe(states, steps, n, id);
    }
  }

  /** No workspace leaks: with no teardown pending, every registered one is claimed. */
  lemma {:induction false} RegisteredIsClaimedOrTornDown(states: seq<Sys>, steps: seq<Step>, n: nat, id: nat)
    requires Run(states, steps) && n < |states| && id in states[n].workspaces
    ensures ClientsOf(states[n], id) != map[] || TearingDown(id) in states[n].ops
  {
    RunInv(states, steps, n);
    assert WsOk(states[n], id);
  }

  /** Running a pending teardown of an unclaimed workspace does take it down. */
  lemma {:induction false} TeardownTakesUnclaimed(states: seq<Sys>, steps: seq<Step>, n: nat, id: nat)
    requires Run(states, steps) && n < |steps| && steps[n] == Teardown(id) && Enabled(states[n], steps[n])
    ensures id in states[n + 1].workspaces <==> ClientsOf(states[n], id) != map[]
    ensures ClientsOf(states[n + 1], id) == ClientsOf(states[n], id)
  {
    assert Follows(states, steps, n);
    if ClientsOf(states[n], id) != map[] {
      LiveClaimsAreSafe(states, steps, n, id);
    }
  }

  predicate Registered(s: Sys, id: nat, path: string) {
    id in s.workspaces && id in s.all && s.all[id].path == path
  }

  /** The index and the registry are two views of one bijection: one workspace a path, and
      an index entry is never stale. */
  lemma {:induction false} OneWorkspacePerPath(states: seq<Sys>, steps: seq<Step>, n: nat, path: string)
    requires Run(states, steps) && n < |states|
    ensures var s := states[n];
            && (path in s.pathIndex <==> Found(s, path))
            && (path in s.pathIndex <==> exists id :: Registered(s, id, path))
            && (forall i, j :: Registered(s, i, path) && Registered(s, j, path) ==> i == j)
  {
    RunInv(states, steps, n);
    var s := states[n];
    if path in s.pathIndex {
      assert Registered(s, s.pathIndex[path], path);
    }
  }

  /** Every claim is a hold whose timer is still to fire, or some streams, never both; the
      streams counted are the streams open or just closing. */
  lemma {:induction false} ClaimsAreHoldsOrStreams(states: seq<Sys>, steps: seq<Step>, n: nat, id: nat, client: string)
    requires Run(states, steps) && n < |states|
    ensures var s := states[n]; var cs := ClientsOf(s, id);
            && Streams(cs, client) == s.ops[Stream(id, client)] + s.ops[Detaching(id, client)]
            && (client in cs ==>
                  && (cs[client].hold <==> cs[client].streams == 0)
                  && (cs[client].hold ==> Timer(id, client, cs[client].cell) in s.ops))
  {
    RunInv(states, steps, n);
    assert WsOk(states[n], id);
  }

  /** An open stream always finds its workspace when it detaches. */
  lemma {:induction false} StreamsFindTheirWorkspace(states: seq<Sys>, steps: seq<Step>, n: nat,
                                                     id: nat, client: string)
    requires Run(states, steps) && n < |states|
    requires Stream(id, client) in states[n].ops || Detaching(id, client) in states[n].ops
    ensures id in states[n].workspaces && client in ClientsOf(states[n], id)
  {
    ClaimsAreHoldsOrStreams(states, steps, n, id, client);
    LiveClaimsAreSafe(states, steps, n, id);
  }

  // ------------------------------------------------------------------- stale timers

  /** A hold that was converted, released or made anew is out of reach of its first timer. */
  lemma TimerOutOfReach(cs: Clients, client: string, cell: nat, newCell: nat)
    requires newCell > cell
    ensures !Expires(Attach(cs, client, newCell), client, cell)
    ensures Shape(cs) ==> !Expires(Release(cs, client), client, cell)
    ensures !Expires(Register(cs - {client}, client, newCell), client, cell)
  {
  }

  /** No section puts a claim back within reach of a timer. */
  lemma ReachKept(cs: Clients, other: string, otherCell: nat, newCell: nat, client: string, cell: nat)
    requires Shape(cs) && newCell > cell && !Expires(cs, client, cell)
    ensures !Expires(Register(cs, other, newCell), client, cell) && !Expires(Attach(cs, other, newCell), client, cell)
    ensures !Expires(Expire(cs, other, otherCell), client, cell) && !Expires(Release(cs, other), client, cell)
    ensures !Expires(Detach(cs, other), client, cell)
  {
  }

  /** The timer of `cell` can do nothing to the client's claim on workspace `id`. */
  predicate OutOfReach(s: Sys, id: nat, client: string, cell: nat) {
    cell < s.nextCell && id < s.nextID && !Expires(ClientsOf(s, id), client, cell)
  }

  lemma RegisterReach(s: Sys, ws: nat, c: string, id: nat, client: string, cell: nat)
    requires Shape(ClientsOf(s, id)) && OutOfReach(s, id, client, cell)
    ensures OutOfReach(DoRegister(s, ws, c), id, client, cell)
  {
    ReachKept(ClientsOf(s, id), c, 0, s.nextCell, client, cell);
  }

  lemma CreateReach(s: Sys, path: string, c: string, id: nat, client: string, cell: nat)
    requires Shape(ClientsOf(s, id)) && OutOfReach(s, id, client, cell)
    ensures OutOfReach(DoCreate(s, path, c), id, client, cell)
  {
    hide DoRegister, Expires;
    if Found(s, path) { RegisterReach(s, s.pathIndex[path], c, id, client, cell); }
  }

  lemma FinishCreateReach(s: Sys, path: string, c: string, id: nat, client: string, cell: nat)
    requires Shape(ClientsOf(s, id)) && OutOfReach(s, id, client, cell)
    ensures OutOfReach(DoFinishCreate(s, path, c), id, client, cell)
  {
    hide DoRegister, Expires;
    var s1 := Built(s, path, c);
    assert ClientsOf(s1, id) == ClientsOf(s, id);
    if Found(s, path) {
      RegisterReach(s1, s.pathIndex[path], c, id, client, cell);
      var s2 := DoRegister(s1, s.pathIndex[path], c);
      assert ClientsOf(s2.(ops := s2.ops + multiset{ShuttingDown(s.nextID)}), id) == ClientsOf(s2, id);
    } else {
      var s2 := s1.(workspaces := s.workspaces + {s.nextID}, pathIndex := s.pathIndex[path := s.nextID]);
      assert ClientsOf(s2, id) == ClientsOf(s1, id);
      RegisterReach(s2, s.nextID, c, id, client, cell);
    }
  }

  lemma AttachReach(s: Sys, ws: nat, c: string, id: nat, client: string, cell: nat)
    requires Shape(ClientsOf(s, id)) && OutOfReach(s, id, client, cell)
    ensures OutOfReach(DoAttachClient(s, ws, c), id, client, cell)
  {
    ReachKept(ClientsOf(s, id), c, 0, s.nextCell, client, cell);
  }

  lemma TakeReach(s: Sys, ws: nat, cs: Clients, done: Op, id: nat, client: string, cell: nat)
    requires OutOfReach(s, id, client, cell) && (ws == id ==> !Expires(cs, client, cell))
    ensures OutOfReach(DoTake(s, ws, cs, done), id, client, cell)
  {
  }

  lemma TeardownReach(s: Sys, ws: nat, id: nat, client: string, cell: nat)
    requires OutOfReach(s, id, client, cell)
    ensures OutOfReach(DoTeardown(s, ws), id, client, cell) && OutOfReach(DoInvokeShutdown(s, ws), id, client, cell)
  {
  }

  lemma StepReach(s: Sys, step: Step, id: nat, client: string, cell: nat)
    requires Inv(s) && OutOfReach(s, id, client, cell)
    ensures OutOfReach(Next(s, step), id, client, cell)
  {
    var cs := ClientsOf(s, id);
    assert Shape(cs) by { assert WsOk(s, id); }
    hide Inv, WsOk, Shape, Expires, DoCreate, DoFinishCreate, DoAttachClient, DoTake, DoTeardown, DoInvokeShutdown;
    if Enabled(s, step) {
      ReachKept(cs, if step.Teardown? || step.InvokeShutdown? then "" else step.client,
                if step.ExpireHold? then step.cell else 0, s.nextCell, client, cell);
      match step
      case Create(path, c) => CreateReach(s, path, c, id, client, cell);
      case FinishCreate(path, c) => FinishCreateReach(s, path, c, id, client, cell);
      case AttachClient(ws, c) => AttachReach(s, ws, c, id, client, cell);
      case DetachStream(ws, c) => TakeReach(s, ws, Detach(ClientsOf(s, ws), c), Detaching(ws, c), id, client, cell);
      case ReleaseHold(ws, c) => TakeReach(s, ws, Release(ClientsOf(s, ws), c), Releasing(ws, c), id, client, cell);
      case ExpireHold(ws, c, x) => TakeReach(s, ws, Expire(ClientsOf(s, ws), c, x), Timer(ws, c, x), id, client, cell);
      case Teardown(ws) => TeardownReach(s, ws, id, client, cell);
      case InvokeShutdown(ws) => TeardownReach(s, ws, id, client, cell);
      case _ =>
    }
  }

  /** A timer that can do nothing now never will again, however late it fires. */
  lemma {:induction false} LateTimerIsHarmless(states: seq<Sys>, steps: seq<Step>, m: nat, n: nat,
                                               id: nat, client: string, cell: nat)
    requires Run(states, steps) && m <= n < |states| && OutOfReach(states[m], id, client, cell)
    ensures OutOfReach(states[n], id, client, cell)
    ensures Expire(ClientsOf(states[n], id), client, cell) == ClientsOf(states[n], id)
    decreases n
  {
    hide Next;
    if m < n {
      LateTimerIsHarmless(states, steps, m, n - 1, id, client, cell);
      assert Follows(states, steps, n - 1);
      RunInv(states, steps, n - 1);
      StepReach(states[n - 1], steps[n - 1], id, client, cell);
    }
  }

  /** What takes a claim out of reach of the grace timers started for it so far: an attach
      that converts the hold, a release, or the claim being gone. */
  predicate Leaves(s: Sys, step: Step, id: nat, client: string) {
    || (step == AttachClient(id, client) && id in s.workspaces)
    || (step == ReleaseHold(id, client) && Releasing(id, client) in s.ops)
    || client !in ClientsOf(s, id)
  }

  /** A timer that fires late never removes a claim that was converted, released or made anew
      since it was started. */
  lemma {:induction false} StaleTimersRemoveNothing(states: seq<Sys>, steps: seq<Step>, m: nat, n: nat,
                                                    id: nat, client: string, cell: nat)
    requires Run(states, steps) && m < n < |states| && Leaves(states[m], steps[m], id, client)
    requires id < states[m].nextID && cell < states[m].nextCell
    ensures Expire(ClientsOf(states[n], id), client, cell) == ClientsOf(states[n], id)
  {
    hide Next, DoAttachClient, DoTake;
    var s := states[m];
    RunInv(states, steps, m);
    assert WsOk(s, id);
    assert Follows(states, steps, m);
    TimerOutOfReach(ClientsOf(s, id), client, cell, s.nextCell);
    if client !in ClientsOf(s, id) {
      StepReach(s, steps[m], id, client, cell);
    } else if steps[m] == AttachClient(id, client) {
      AttachLeaves(s, id, client, cell);
    } else {
      ReleaseLeaves(s, id, client, cell);
    }
    LateTimerIsHarmless(states, steps, m + 1, n, id, client, cell);
  }

  lemma AttachLeaves(s: Sys, id: nat, client: string, cell: nat)
    requires WsOk(s, id) && id in s.workspaces && id < s.nextID && cell < s.nextCell
    ensures OutOfReach(Next(s, AttachClient(id, client)), id, client, cell)
  {
    TimerOutOfReach(ClientsOf(s, id), client, cell, s.nextCell);
  }

  lemma ReleaseLeaves(s: Sys, id: nat, client: string, cell: nat)
    requires WsOk(s, id) && Releasing(id, client) in s.ops && id < s.nextID && cell < s.nextCell
    ensures OutOfReach(Next(s, ReleaseHold(id, client)), id, client, cell)
  {
    TimerOutOfReach(ClientsOf(s, id), client, cell, s.nextCell);
  }
}
