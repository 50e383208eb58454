/** One user's session at the node: the connect command, which takes a guard slot and gives it
    back on every way out. */
module NodeSession {
  import opened Prelude
  import opened GatewayGuard
  import GatewaySessions

  /** How a connect ends once its slot is taken. */
  datatype Ending = LinkFailed | NoTransport | CallFailed | Bridged(nearClosed: bool)

  /** A caller's slot taken and given back leaves the accounts as they were. */
  lemma SlotGivenBack(p: Policy, b: Books, r: Request, now: real, later: real)
    requires Admits(p, b, r, now) && forall u :: u in b.perUser ==> b.perUser[u] > 0
    ensures var after := Released(Attempted(p, b, r, now, later), r.user);
      after.total == b.total && after.perUser == b.perUser
  {
    hide Checked, Base;
    GatewaySessions.CheckKeepsAccounts(p, b, r, now);
    var base := Base(r.user);
    assert b.perUser[base := Held(b, base) + 1] - {base} == b.perUser - {base};
    if base in b.perUser {
      assert b.perUser[base := Held(b, base) + 1][base := Held(b, base)] == b.perUser;
    } else {
      assert b.perUser - {base} == b.perUser;
    }
  }

  /** The session's two steps are the guard's two events. */
  lemma StepsOfTheWorld(p: Policy, w: GatewaySessions.World, r: Request, now: real, later: real, i: nat)
    ensures var t := GatewaySessions.Step(p, w, GatewaySessions.Connect(r, now, later));
      && t.books == Attempted(p, w.books, r, now, later)
      && t.open == (if Admits(p, w.books, r, now) then w.open + [r.user] else w.open)
    ensures i < |w.open| ==>
      GatewaySessions.Step(p, w, GatewaySessions.Finish(i)).books == Released(w.books, w.open[i])
  {
    hide Checked, Base;
  }

  class Session {
    const guard: Guard
    const user: string
    const auth: Option<nat>
    const arrivalVia: string
    var activeGateways: int
    var currentTarget: Option<string>
    var running: bool

    constructor (guard: Guard, user: string, auth: Option<nat>, arrivalVia: string)
      ensures this.guard == guard && this.user == user && this.auth == auth && this.arrivalVia == arrivalVia
      ensures activeGateways == 0 && currentTarget == None && running
    {
      this.guard, this.user, this.auth, this.arrivalVia := guard, user, auth, arrivalVia;
      activeGateways, currentTarget, running := 0, None, true;
    }

    function RequestTo(neighbor: string): Request
    {
      Request(user, auth, neighbor, arrivalVia)
    }

    /** Up to the reservation: no other session can come between the check and the slot.
        The check reads the clock, and the reservation reads it again. */
    method Begin(neighbor: string, alias: string, now: real, later: real) returns (admitted: bool)
      modifies this`activeGateways, this`currentTarget, guard
      ensures admitted <==> Admits(guard.policy, old(guard.View()), RequestTo(neighbor), now)
      ensures guard.View() == Attempted(guard.policy, old(guard.View()), RequestTo(neighbor), now, later)
      ensures activeGateways == old(activeGateways) + if admitted then 1 else 0
      ensures currentTarget == if admitted then Some(alias) else old(currentTarget)
    {
      hide Checked, Full, Acquired;
      var reason := guard.Check(RequestTo(neighbor), now);
      if reason.Some? {
        return false;
      }
      ghost var checked := guard.View();
      var ok := guard.Acquire(user, later);
      if !ok {
        NotTaken(guard.policy, checked, user, later);
        return false;
      }
      activeGateways := activeGateways + 1;
      currentTarget := Some(alias);
      admitted := true;
    }

    lemma NotTaken(p: Policy, b: Books, user: string, now: real)
      requires Full(p, b, Base(user))
      ensures Acquired(p, b, user, now) == b
    {
    }

    /** Whatever happened, the slot goes back; the session ends only if the near side hung up. */
    method End(ending: Ending)
      modifies this, guard
      ensures guard.View() == Released(old(guard.View()), user)
      ensures activeGateways == old(activeGateways) - 1 && currentTarget == None
      ensures running == (old(running) && ending != Bridged(true))
    {
      guard.Release(user);
      activeGateways := activeGateways - 1;
      currentTarget := None;
      if ending == Bridged(true) {
        running := false;
      }
    }

    /** With no other session in between: on every way out the accounts and the session are as
        they were, but for a user who hung up. */
    method CmdConnect(neighbor: string, alias: string, now: real, later: real, ending: Ending) returns (admitted: bool)
      requires forall u :: u in guard.activePerUser ==> guard.activePerUser[u] > 0
      modifies this, guard
      ensures guard.activeTotal == old(guard.activeTotal) && guard.activePerUser == old(guard.activePerUser)
      ensures activeGateways == old(activeGateways)
      ensures currentTarget == if admitted then None else old(currentTarget)
      ensures running == (old(running) && !(admitted && ending == Bridged(true)))
    {
      hide Checked, Full, Acquired, Released;
      ghost var books := guard.View();
      admitted := Begin(neighbor, alias, now, later);
      if !admitted {
        GatewaySessions.CheckKeepsAccounts(guard.policy, books, RequestTo(neighbor), now);
        return;
      }
      SlotGivenBack(guard.policy, books, RequestTo(neighbor), now, later);
      End(ending);
    }
  }
}
