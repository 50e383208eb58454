/** Any number of node sessions sharing one guard: each checks and acquires in one step before it
    connects, and releases once, when its connection ends. */
module GatewaySessions {
  import opened Prelude
  import opened GatewayGuard

  /** An accepted connect. */
  datatype Accepted = Accepted(user: string, at: real)

  /** `open` holds the users of the connections now up; `log` every connect ever accepted. */
  datatype World = World(books: Books, open: seq<string>, log: seq<Accepted>)

  datatype Event =
    | Connect(request: Request, now: real, later: real)
    | Finish(session: nat)

  /** The check reads the clock as `now`, the reservation a moment `later`. */
  function OnConnect(p: Policy, w: World, r: Request, now: real, later: real): World
  {
    var books := Attempted(p, w.books, r, now, later);
    if Admits(p, w.books, r, now) then World(books, w.open + [r.user], w.log + [Accepted(r.user, later)])
    else w.(books := books)
  }

  function Step(p: Policy, w: World, e: Event): World
  {
    match e
    case Connect(r, now, later) => OnConnect(p, w, r, now, later)
    case Finish(i) =>
      if i >= |w.open| then w
      else w.(books := Released(w.books, w.open[i]), open := w.open[..i] + w.open[i + 1..])
  }

  const QUIET := World(NO_CIRCUITS, [], [])

  function Exec(p: Policy, es: seq<Event>): World
  {
    if es == [] then QUIET else Step(p, Exec(p, es[..|es| - 1]), es[|es| - 1])
  }

  // ---------- The accounts balance ----------

  /** How many of the open connections belong to the caller. */
  function OpenFor(open: seq<string>, base: string): nat
  {
    if open == [] then 0
    else OpenFor(open[..|open| - 1], base) + if Base(open[|open| - 1]) == base then 1 else 0
  }

  ghost function Sum(m: map<string, nat>): nat
  {
    if m == map[] then 0
    else
      var k :| k in m;
      m[k] + Sum(m - {k})
  }

  lemma {:induction false} SumSplit(m: map<string, nat>, k: string)
    requires k in m
    ensures Sum(m) == m[k] + Sum(m - {k})
    decreases |m|
  {
    var j :| j in m && Sum(m) == m[j] + Sum(m - {j});
    if j != k {
      SumSplit(m - {j}, k);
      SumSplit(m - {k}, j);
      assert m - {j} - {k} == m - {k} - {j};
    }
  }

  lemma SumUpdate(m: map<string, nat>, k: string, n: nat)
    ensures Sum(m[k := n]) == Sum(m - {k}) + n
  {
    SumSplit(m[k := n], k);
    assert m[k := n] - {k} == m - {k};
  }

  ghost predicate Balanced(w: World)
  {
    && w.books.total == |w.open| == Sum(w.books.perUser)
    && (forall b :: Held(w.books, b) == OpenFor(w.open, b))
    && (forall b :: b in w.books.perUser ==> w.books.perUser[b] > 0)
  }

  ghost predicate WithinCaps(p: Policy, w: World)
  {
    w.books.total <= p.maxCircuits && forall b :: b in w.books.perUser ==> w.books.perUser[b] <= p.maxPerUser
  }

  lemma SumWithout(m: map<string, nat>, k: string)
    ensures Sum(m - {k}) == Sum(m) - if k in m then m[k] else 0
  {
    if k in m {
      SumSplit(m, k);
    } else {
      assert m - {k} == m;
    }
  }

  lemma AcquireBalances(p: Policy, w: World, user: string, now: real)
    requires Balanced(w) && !Full(p, w.books, Base(user))
    ensures Balanced(World(Acquired(p, w.books, user, now), w.open + [user], w.log + [Accepted(user, now)]))
  {
    var base := Base(user);
    SumUpdate(w.books.perUser, base, Held(w.books, base) + 1);
    SumWithout(w.books.perUser, base);
    var after := Acquired(p, w.books, user, now);
    forall b ensures Held(after, b) == OpenFor(w.open + [user], b) {
      assert (w.open + [user])[..|w.open|] == w.open;
      assert Held(w.books, b) == OpenFor(w.open, b);
    }
  }

  lemma {:induction false} OpenWithout(open: seq<string>, i: nat, base: string)
    requires i < |open|
    ensures OpenFor(open[..i] + open[i + 1..], base) == OpenFor(open, base) - if Base(open[i]) == base then 1 else 0
    ensures OpenFor(open, Base(open[i])) > 0
    decreases |open|
  {
    hide Base;
    var n := |open| - 1;
    var without := open[..i] + open[i + 1..];
    if i == n {
      assert without == open[..n];
    } else {
      assert without[..n - 1] == open[..n][..i] + open[..n][i + 1..] && without[n - 1] == open[n];
      OpenWithout(open[..n], i, base);
    }
  }

  lemma ReleaseBalances(w: World, i: nat)
    requires Balanced(w) && i < |w.open|
    ensures Balanced(w.(books := Released(w.books, w.open[i]), open := w.open[..i] + w.open[i + 1..]))
  {
    var base := Base(w.open[i]);
    SumWithout(w.books.perUser, base);
    OpenWithout(w.open, i, base);
    if Held(w.books, base) > 1 {
      SumUpdate(w.books.perUser, base, Held(w.books, base) - 1);
    }
    var left := w.open[..i] + w.open[i + 1..];
    var after := Released(w.books, w.open[i]);
    forall b ensures Held(after, b) == OpenFor(left, b) {
      OpenWithout(w.open, i, b);
      assert Held(w.books, b) == OpenFor(w.open, b);
    }
    hide Base, Sum, OpenFor;
  }

  /** Checking touches nothing the accounts depend on. */
  lemma CheckKeepsAccounts(p: Policy, b: Books, r: Request, now: real)
    ensures var after := Checked(p, b, r, now).books; after.total == b.total && after.perUser == b.perUser
  {
  }

  lemma ConnectKeeps(p: Policy, w: World, r: Request, now: real, later: real)
    requires Balanced(w) && WithinCaps(p, w)
    ensures Balanced(OnConnect(p, w, r, now, later)) && WithinCaps(p, OnConnect(p, w, r, now, later))
  {
    hide Checked, Base, Sum, OpenFor;
    var verdict := Checked(p, w.books, r, now);
    CheckKeepsAccounts(p, w.books, r, now);
    var checked := w.(books := verdict.books);
    assert forall b :: Held(verdict.books, b) == Held(w.books, b);
    assert Balanced(checked);
    if Admits(p, w.books, r, now) {
      AcquireBalances(p, checked, r.user, later);
    }
  }

  /** Under any interleaving of sessions the total is the sum of the callers' counts, each count
      is exactly that caller's open connections and positive, and both caps hold. */
  lemma {:induction false} AccountsBalance(p: Policy, es: seq<Event>)
    ensures Balanced(Exec(p, es)) && WithinCaps(p, Exec(p, es))
  {
    if es != [] {
      var init, e := es[..|es| - 1], es[|es| - 1];
      AccountsBalance(p, init);
      var w := Exec(p, init);
      match e
      case Connect(r, now, later) => ConnectKeeps(p, w, r, now, later);
      case Finish(i) =>
        if i < |w.open| {
          ReleaseBalances(w, i);
        }
    }
  }

  /** When every connection has ended, nothing is left on the books. */
  lemma NothingLeaks(p: Policy, es: seq<Event>)
    requires Exec(p, es).open == []
    ensures Exec(p, es).books.total == 0 && Exec(p, es).books.perUser == map[]
  {
    hide Exec;
    AccountsBalance(p, es);
    var w := Exec(p, es);
    forall b ensures b !in w.books.perUser {
      assert Held(w.books, b) == OpenFor([], b) == 0;
    }
  }

  // ---------- The connect rate ----------

  /** The accepted connects of one caller, in order. */
  function LogOf(log: seq<Accepted>, base: string): seq<real>
  {
    if log == [] then []
    else LogOf(log[..|log| - 1], base) + if Base(log[|log| - 1].user) == base then [log[|log| - 1].at] else []
  }

  predicate Ascending(times: seq<real>)
  {
    forall i, j :: 0 <= i < j < |times| ==> times[i] <= times[j]
  }

  /** Any limit + 1 consecutive connects take more than the window. */
  ghost predicate Spaced(times: seq<real>, limit: nat)
  {
    forall i, j :: 0 <= i < j < |times| && j == i + limit ==> times[j] - times[i] > WINDOW
  }

  /** The connects in the 60 seconds from `a` on. */
  function InWindow(times: seq<real>, a: real): nat
  {
    if times == [] then 0
    else InWindow(times[..|times| - 1], a) + if a <= times[|times| - 1] <= a + 60.0 then 1 else 0
  }

  /** What the guard remembers of a caller is the end of the log; all it forgot is old. */
  predicate Remembers(times: seq<real>, kept: seq<real>, now: real)
  {
    && |kept| <= |times| && kept == times[|times| - |kept|..]
    && Ascending(times)
    && (forall i :: 0 <= i < |times| ==> times[i] <= now)
    && (forall i :: 0 <= i < |times| - |kept| ==> times[i] < now - WINDOW)
  }

  ghost predicate RateKept(p: Policy, w: World, now: real)
  {
    forall b :: Remembers(LogOf(w.log, b), Times(w.books, b), now) && Spaced(LogOf(w.log, b), p.rateLimit)
  }

  predicate Since(times: seq<real>, a: real)
  {
    forall i :: 0 <= i < |times| ==> times[i] >= a
  }

  lemma {:induction false} RecentKeeps(times: seq<real>, kept: seq<real>, now: real)
    requires Remembers(times, kept, now)
    ensures Remembers(times, Recent(kept, now - WINDOW), now)
    ensures Since(Recent(kept, now - WINDOW), now - WINDOW)
    decreases |kept|
  {
    if kept != [] && kept[0] < now - WINDOW {
      RecentKeeps(times, kept[1..], now);
    } else if kept != [] {
      var n := |times| - |kept|;
      assert forall i :: 0 <= i < |kept| ==> kept[i] == times[n + i];
    }
  }

  lemma Later(times: seq<real>, kept: seq<real>, now: real, later: real)
    requires Remembers(times, kept, now) && now <= later
    ensures Remembers(times, kept, later)
  {
  }

  lemma AcceptKeeps(times: seq<real>, kept: seq<real>, now: real, later: real, limit: nat)
    requires Remembers(times, kept, now) && Spaced(times, limit) && |kept| < limit && now <= later
    ensures Remembers(times + [later], kept + [later], later) && Spaced(times + [later], limit)
  {
    var all := times + [later];
    assert (kept + [later]) == all[|times| - |kept|..];
    forall i, j | 0 <= i < j < |all| && j == i + limit ensures all[j] - all[i] > WINDOW {
      if j == |times| {
        assert i < |times| - |kept|;
      }
    }
  }

  lemma LogGrows(log: seq<Accepted>, a: Accepted, base: string)
    ensures LogOf(log + [a], base) == LogOf(log, base) + if Base(a.user) == base then [a.at] else []
  {
    assert (log + [a])[..|log|] == log;
  }

  lemma CheckedTimes(p: Policy, b: Books, r: Request, now: real, base: string)
    requires p.rateLimit > 0
    ensures var v := Checked(p, b, r, now);
      && (Times(v.books, base) == Times(b, base) || Times(v.books, base) == Recent(Times(b, base), now - WINDOW))
      && (v.reason.None? ==> Times(v.books, Base(r.user)) == Recent(Times(b, Base(r.user)), now - WINDOW)
                             && |Times(v.books, Base(r.user))| < p.rateLimit)
  {
    hide Base, Listed, Loops, Recent;
    assert Recent([], now - WINDOW) == [] by { RecentNothing(now - WINDOW); }
  }

  lemma RecentNothing(cutoff: real)
    ensures Recent([], cutoff) == []
  {
  }

  lemma AcquiredTimes(p: Policy, b: Books, user: string, now: real, base: string)
    requires p.rateLimit > 0 && !Full(p, b, Base(user))
    ensures Times(Acquired(p, b, user, now), base) == Times(b, base) + if base == Base(user) then [now] else []
  {
    hide Base;
  }

  /** What one connect attempt does to the record of one caller. */
  lemma ConnectKeepsCaller(p: Policy, w: World, r: Request, was: real, now: real, later: real, b: string)
    requires p.rateLimit > 0 && was <= now <= later
    requires Remembers(LogOf(w.log, b), Times(w.books, b), was) && Spaced(LogOf(w.log, b), p.rateLimit)
    ensures var after := OnConnect(p, w, r, now, later);
      Remembers(LogOf(after.log, b), Times(after.books, b), later) && Spaced(LogOf(after.log, b), p.rateLimit)
  {
    hide Checked, Base, Remembers, Spaced, LogOf, Recent, Times, Acquired, Full;
    var v := Checked(p, w.books, r, now);
    var times, kept := LogOf(w.log, b), Times(w.books, b);
    Later(times, kept, was, now);
    RecentKeeps(times, kept, now);
    CheckedTimes(p, w.books, r, now, b);
    if Admits(p, w.books, r, now) {
      LogGrows(w.log, Accepted(r.user, later), b);
      AcquiredTimes(p, v.books, r.user, later, b);
    }
    if Admits(p, w.books, r, now) && b == Base(r.user) {
      AcceptKeeps(times, Times(v.books, b), now, later, p.rateLimit);
    } else {
      assert times + [] == times && Times(v.books, b) + [] == Times(v.books, b);
      Later(times, Times(v.books, b), now, later);
    }
  }

  lemma ConnectKeepsRate(p: Policy, w: World, r: Request, was: real, now: real, later: real)
    requires p.rateLimit > 0 && RateKept(p, w, was) && was <= now <= later
    ensures RateKept(p, OnConnect(p, w, r, now, later), later)
  {
    hide OnConnect, Remembers, Spaced, LogOf;
    var after := OnConnect(p, w, r, now, later);
    forall b ensures Remembers(LogOf(after.log, b), Times(after.books, b), later) && Spaced(LogOf(after.log, b), p.rateLimit) {
      ConnectKeepsCaller(p, w, r, was, now, later, b);
    }
  }

  /** The clock as an event leaves it. */
  function At(e: Event, was: real): real { if e.Connect? then e.later else was }

  function Clock(es: seq<Event>): real
  {
    if es == [] then 0.0 else At(es[|es| - 1], Clock(es[..|es| - 1]))
  }

  predicate NotBefore(was: real, e: Event)
  {
    e.Connect? ==> was <= e.now <= e.later
  }

  /** The clock never runs backwards. */
  predicate Monotone(es: seq<Event>)
  {
    es == [] ||
    (Monotone(es[..|es| - 1]) && NotBefore(Clock(es[..|es| - 1]), es[|es| - 1]))
  }

  lemma {:induction false} RateIsKept(p: Policy, es: seq<Event>)
    requires p.rateLimit > 0 && Monotone(es)
    ensures RateKept(p, Exec(p, es), Clock(es))
  {
    if es == [] {
      hide Exec;
      assert Exec(p, es) == QUIET by { StartsQuiet(p); }
    } else {
      hide RateKept, Monotone, OnConnect;
      var init, e := es[..|es| - 1], es[|es| - 1];
      assert Monotone(init) && NotBefore(Clock(init), e) by { MonotonePrefix(es); }
      RateIsKept(p, init);
      match e
      case Connect(r, now, later) => ConnectKeepsRate(p, Exec(p, init), r, Clock(init), now, later);
      case Finish(i) => FinishKeepsRate(p, Exec(p, init), i, Clock(init));
    }
  }

  lemma StartsQuiet(p: Policy)
    ensures Exec(p, []) == QUIET
  {
  }

  lemma MonotonePrefix(es: seq<Event>)
    requires es != [] && Monotone(es)
    ensures Monotone(es[..|es| - 1]) && NotBefore(Clock(es[..|es| - 1]), es[|es| - 1])
  {
  }

  lemma FinishKeepsRate(p: Policy, w: World, i: nat, now: real)
    requires RateKept(p, w, now)
    ensures RateKept(p, Step(p, w, Finish(i)), now)
  {
    hide Remembers, Spaced, LogOf, Base;
    var after := Step(p, w, Finish(i));
    forall b ensures Remembers(LogOf(after.log, b), Times(after.books, b), now) && Spaced(LogOf(after.log, b), p.rateLimit) {
      assert Times(after.books, b) == Times(w.books, b);
    }
  }

  lemma {:induction false} WindowSplits(s: seq<real>, t: seq<real>, a: real)
    ensures InWindow(s + t, a) == InWindow(s, a) + InWindow(t, a)
    ensures InWindow(t, a) <= |t|
  {
    if t == [] {
      assert s + t == s;
    } else {
      WindowSplits(s, t[..|t| - 1], a);
      assert (s + t)[..|s + t| - 1] == s + t[..|t| - 1];
    }
  }

  lemma {:induction false} BeforeWindow(s: seq<real>, a: real)
    requires forall i :: 0 <= i < |s| ==> s[i] < a
    ensures InWindow(s, a) == 0
  {
    if s != [] {
      BeforeWindow(s[..|s| - 1], a);
    }
  }

  lemma OldBeforeWindow(times: seq<real>, limit: nat, a: real, k: nat)
    requires Ascending(times) && Spaced(times, limit) && limit > 0
    requires times != [] && times[|times| - 1] <= a + WINDOW && k == Max(0, |times| - limit)
    ensures InWindow(times[..k], a) == 0
  {
    var n := |times| - 1;
    if k > 0 {
      assert times[n] - times[k - 1] > WINDOW;
    }
    BeforeWindow(times[..k], a);
  }

  /** Spacing bounds the count in every window. */
  lemma {:induction false} SpacedIsBounded(times: seq<real>, limit: nat, a: real)
    requires Ascending(times) && Spaced(times, limit) && limit > 0
    ensures InWindow(times, a) <= limit
  {
    var n := |times| - 1;
    if times == [] {
    } else if !(a <= times[n] <= a + WINDOW) {
      SpacedIsBounded(times[..n], limit, a);
    } else {
      var k := Max(0, n - limit + 1);
      OldBeforeWindow(times, limit, a, k);
      WindowSplits(times[..k], times[k..], a);
      assert times == times[..k] + times[k..];
    }
  }

  /** No caller ever has more than the configured number of accepted connects in any 60 seconds. */
  lemma NeverTooManyAMinute(p: Policy, es: seq<Event>, base: string, a: real)
    requires p.rateLimit > 0 && Monotone(es)
    ensures InWindow(LogOf(Exec(p, es).log, base), a) <= p.rateLimit
  {
    hide Exec;
    RateIsKept(p, es);
    SpacedIsBounded(LogOf(Exec(p, es).log, base), p.rateLimit, a);
  }

  lemma {:induction false} AllInWindow(s: seq<real>, a: real)
    requires forall i :: 0 <= i < |s| ==> a <= s[i] <= a + WINDOW
    ensures InWindow(s, a) == |s|
  {
    if s != [] {
      AllInWindow(s[..|s| - 1], a);
    }
  }

  lemma TailIsRecent(times: seq<real>, recent: seq<real>, now: real, a: real) returns (early: seq<real>)
    requires Remembers(times, recent, now) && Since(recent, a) && a + WINDOW == now
    ensures times == early + recent
    ensures forall i :: 0 <= i < |recent| ==> a <= recent[i] <= a + WINDOW
    ensures forall i :: 0 <= i < |early| ==> early[i] < a
  {
    var k := |times| - |recent|;
    early := times[..k];
    assert forall i :: 0 <= i < |recent| ==> recent[i] == times[k + i];
  }

  /** What is left of the queue is the log of the last 60 seconds. */
  lemma QueueIsTheWindow(times: seq<real>, recent: seq<real>, now: real, a: real)
    requires Remembers(times, recent, now) && Since(recent, a) && a + WINDOW == now
    ensures InWindow(times, a) == |recent|
  {
    hide Remembers, InWindow;
    var early := TailIsRecent(times, recent, now, a);
    BeforeWindow(early, a);
    AllInWindow(recent, a);
    WindowSplits(early, recent, a);
  }

  /** The lazily pruned queue decides exactly what counting the whole log would: the rate gate
      shuts if and only if the last 60 seconds already hold the configured number. */
  lemma RateGateIsExact(p: Policy, es: seq<Event>, base: string, now: real)
    requires p.rateLimit > 0 && Monotone(es) && Clock(es) <= now
    ensures RateExceeded(p, Exec(p, es).books, base, now)
            <==> InWindow(LogOf(Exec(p, es).log, base), now - 60.0) >= p.rateLimit
  {
    hide Exec, Spaced, Remembers, InWindow, Recent, Monotone, LogOf;
    RateIsKept(p, es);
    var w := Exec(p, es);
    var times, kept := LogOf(w.log, base), Times(w.books, base);
    assert Remembers(times, kept, Clock(es));
    Later(times, kept, Clock(es), now);
    RecentKeeps(times, kept, now);
    QueueIsTheWindow(times, Recent(kept, now - WINDOW), now, now - WINDOW);
  }

  /** A connect is accepted exactly when every gate and both caps let it through. */
  lemma AcceptedIff(p: Policy, es: seq<Event>, r: Request, now: real, later: real)
    requires Monotone(es) && Clock(es) <= now
    ensures var w := Exec(p, es);
      |Step(p, w, Connect(r, now, later)).open| == |w.open| + 1 <==>
      && PassesLists(p, r) && Level(r) >= p.minAuth && !Loops(p, r)
      && (p.rateLimit > 0 ==> InWindow(LogOf(w.log, Base(r.user)), now - 60.0) < p.rateLimit)
      && |w.open| < p.maxCircuits && OpenFor(w.open, Base(r.user)) < p.maxPerUser
  {
    hide Exec, Base, Listed, Loops, LogOf, InWindow, OpenFor, Sum, RateExceeded, Pruned, Monotone, Clock;
    var w := Exec(p, es);
    if p.rateLimit > 0 {
      RateGateIsExact(p, es, Base(r.user), now);
    }
    AccountsBalance(p, es);
    CheckKeepsAccounts(p, w.books, r, now);
    assert Held(w.books, Base(r.user)) == OpenFor(w.open, Base(r.user));
    assert Held(Checked(p, w.books, r, now).books, Base(r.user)) == Held(w.books, Base(r.user));
  }
}
