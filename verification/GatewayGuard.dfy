/** The one authority over outbound gateway circuits: access lists, the connect rate, the
    interlock and the circuit caps. */
module GatewayGuard {
  import opened Prelude
  import opened WireCalls

  /** Authentication levels, lowest first. */
  const IDENTIFIED: nat := 1

  datatype Policy = Policy(
    minAuth: nat, allow: set<string>, deny: set<string>, interlock: bool,
    rateLimit: nat, maxPerUser: nat, maxCircuits: nat)

  const WINDOW := 60.0

  function Norm(call: string): string { Strip(Upper(call)) }

  function FirstDash(s: string): (d: nat)
    ensures d <= |s|
  {
    if s == [] || s[0] == '-' then 0 else 1 + FirstDash(s[1..])
  }

  /** The callsign without its SSID. */
  function Base(call: string): string
  {
    var n := Norm(call);
    n[..FirstDash(n)]
  }

  /** `rate` holds the accepted connects of each caller not yet known to be over a minute old. */
  datatype Books = Books(rate: map<string, seq<real>>, total: nat, perUser: map<string, nat>)

  datatype Refusal = Denied | NotAllowed | AuthRequired | RateLimited | Interlocked

  datatype Request = Request(user: string, auth: Option<nat>, neighbor: string, arrivalVia: string)

  function Recent(times: seq<real>, cutoff: real): seq<real>
  {
    if times != [] && times[0] < cutoff then Recent(times[1..], cutoff) else times
  }

  function Times(b: Books, base: string): seq<real>
  {
    if base in b.rate then b.rate[base] else []
  }

  /** Forgetting what has left the window; a caller with nothing left is dropped. */
  function Pruned(b: Books, base: string, now: real): Books
  {
    var kept := Recent(Times(b, base), now - WINDOW);
    if Times(b, base) == [] then b
    else if kept == [] then b.(rate := b.rate - {base})
    else b.(rate := b.rate[base := kept])
  }

  predicate RateExceeded(p: Policy, b: Books, base: string, now: real)
  {
    var kept := Recent(Times(b, base), now - WINDOW);
    kept != [] && |kept| >= p.rateLimit
  }

  predicate Listed(calls: set<string>, user: string)
  {
    Norm(user) in calls || Base(user) in calls
  }

  predicate PassesLists(p: Policy, r: Request)
  {
    !Listed(p.deny, r.user) && (p.allow == {} || Listed(p.allow, r.user))
  }

  function Level(r: Request): nat { if r.auth.Some? then r.auth.value else IDENTIFIED }

  predicate Loops(p: Policy, r: Request)
  {
    p.interlock && r.arrivalVia != "" && Norm(r.neighbor) == Norm(r.arrivalVia)
  }

  datatype Verdict = Verdict(reason: Option<Refusal>, books: Books)

  /** The first failing gate, in order. Only the rate gate touches the books. */
  function Checked(p: Policy, b: Books, r: Request, now: real): Verdict
  {
    if Listed(p.deny, r.user) then Verdict(Some(Denied), b)
    else if p.allow != {} && !Listed(p.allow, r.user) then Verdict(Some(NotAllowed), b)
    else if Level(r) < p.minAuth then Verdict(Some(AuthRequired), b)
    else
      var after := if p.rateLimit > 0 then Pruned(b, Base(r.user), now) else b;
      if p.rateLimit > 0 && RateExceeded(p, b, Base(r.user), now) then Verdict(Some(RateLimited), after)
      else if Loops(p, r) then Verdict(Some(Interlocked), after)
      else Verdict(None, after)
  }

  function Held(b: Books, base: string): nat
  {
    if base in b.perUser then b.perUser[base] else 0
  }

  predicate Full(p: Policy, b: Books, base: string)
  {
    b.total >= p.maxCircuits || Held(b, base) >= p.maxPerUser
  }

  function Acquired(p: Policy, b: Books, user: string, now: real): Books
  {
    var base := Base(user);
    if Full(p, b, base) then b
    else Books(if p.rateLimit > 0 then b.rate[base := Times(b, base) + [now]] else b.rate,
               b.total + 1,
               b.perUser[base := Held(b, base) + 1])
  }

  /** Every gate passes, and neither cap is reached. */
  predicate Admits(p: Policy, b: Books, r: Request, now: real)
  {
    var verdict := Checked(p, b, r, now);
    verdict.reason.None? && !Full(p, verdict.books, Base(r.user))
  }

  /** The books after the check at `now` and, if it passes, the reservation, stamped `later`. */
  function Attempted(p: Policy, b: Books, r: Request, now: real, later: real): Books
  {
    var checked := Checked(p, b, r, now).books;
    if Admits(p, b, r, now) then Acquired(p, checked, r.user, later) else checked
  }

  function Released(b: Books, user: string): Books
  {
    var base := Base(user);
    b.(total := if b.total > 0 then b.total - 1 else 0,
       perUser := if Held(b, base) <= 1 then b.perUser - {base} else b.perUser[base := Held(b, base) - 1])
  }

  const NO_CIRCUITS := Books(map[], 0, map[])

  class Guard {
    const policy: Policy
    var rate: map<string, seq<real>>
    var activeTotal: nat
    var activePerUser: map<string, nat>

    constructor (policy: Policy)
      ensures this.policy == policy && View() == NO_CIRCUITS
    {
      this.policy := policy;
      rate, activeTotal, activePerUser := map[], 0, map[];
    }

    function View(): Books
      reads this
    {
      Books(rate, activeTotal, activePerUser)
    }

    method Check(r: Request, now: real) returns (reason: Option<Refusal>)
      modifies this`rate
      ensures reason == Checked(policy, old(View()), r, now).reason
      ensures View() == Checked(policy, old(View()), r, now).books
    {
      var full, base := Norm(r.user), Base(r.user);
      if full in policy.deny || base in policy.deny {
        return Some(Denied);
      }
      if policy.allow != {} && !(full in policy.allow || base in policy.allow) {
        return Some(NotAllowed);
      }
      var level := if r.auth.Some? then r.auth.value else IDENTIFIED;
      if level < policy.minAuth {
        return Some(AuthRequired);
      }
      if policy.rateLimit > 0 {
        var exceeded := PruneAndCount(base, now);
        if exceeded {
          return Some(RateLimited);
        }
      }
      if policy.interlock && r.arrivalVia != "" && Norm(r.neighbor) == Norm(r.arrivalVia) {
        return Some(Interlocked);
      }
      reason := None;
    }

    method PruneAndCount(base: string, now: real) returns (exceeded: bool)
      modifies this`rate
      ensures View() == Pruned(old(View()), base, now)
      ensures exceeded == RateExceeded(policy, old(View()), base, now)
    {
      if base !in rate || rate[base] == [] {
        return false;
      }
      var times := rate[base];
      var cutoff := now - WINDOW;
      while times != [] && times[0] < cutoff
        invariant Recent(times, cutoff) == Recent(old(rate[base]), cutoff)
      {
        times := times[1..];
      }
      if times == [] {
        rate := rate - {base};
        return false;
      }
      rate := rate[base := times];
      exceeded := |times| >= policy.rateLimit;
    }

    method Acquire(user: string, now: real) returns (ok: bool)
      modifies this
      ensures ok <==> !Full(policy, old(View()), Base(user))
      ensures View() == Acquired(policy, old(View()), user, now)
    {
      var base := Base(user);
      var n := if base in activePerUser then activePerUser[base] else 0;
      if activeTotal >= policy.maxCircuits {
        return false;
      }
      if n >= policy.maxPerUser {
        return false;
      }
      activeTotal := activeTotal + 1;
      activePerUser := activePerUser[base := n + 1];
      if policy.rateLimit > 0 {
        var times := if base in rate then rate[base] else [];
        rate := rate[base := times + [now]];
      }
      ok := true;
    }

    method Release(user: string)
      modifies this
      ensures View() == Released(old(View()), user)
    {
      var base := Base(user);
      if activeTotal > 0 {
        activeTotal := activeTotal - 1;
      }
      var n := if base in activePerUser then activePerUser[base] else 0;
      if n <= 1 {
        activePerUser := activePerUser - {base};
      } else {
        activePerUser := activePerUser[base := n - 1];
      }
    }
  }
}
