/** Who counts as one caller. The gates and the accounts go by the callsign without its SSID, so
    that a station cannot get around them by calling under another. */
module GatewayCallers {
  import opened Prelude
  import opened WireCalls
  import opened GatewayGuard
  import opened GatewaySessions

  // ---------- Callsigns ----------

  /** Nothing but white space. */
  predicate Blank(s: string) { forall i :: 0 <= i < |s| ==> IsSpace(s[i]) }

  predicate Trimmed(s: string) { s != [] ==> !IsSpace(s[0]) && !IsSpace(s[|s| - 1]) }

  lemma {:induction false} LStripCuts(s: string) returns (front: string)
    ensures s == front + LStrip(s) && Blank(front)
    ensures LStrip(s) != [] ==> !IsSpace(LStrip(s)[0])
  {
    front := [];
    if s != [] && IsSpace(s[0]) {
      front := LStripCuts(s[1..]);
      assert s == [s[0]] + s[1..];
      front := [s[0]] + front;
    }
  }

  lemma {:induction false} RStripCuts(s: string) returns (back: string)
    ensures s == RStrip(s) + back && Blank(back)
    ensures RStrip(s) != [] ==> !IsSpace(RStrip(s)[|RStrip(s)| - 1]) && RStrip(s)[0] == s[0]
  {
    back := [];
    if s != [] && IsSpace(s[|s| - 1]) {
      var n := |s| - 1;
      back := RStripCuts(s[..n]);
      assert s == s[..n] + [s[n]];
      back := back + [s[n]];
    }
  }

  /** The normal form: in upper case, without the white space at its ends. */
  lemma NormIs(call: string) returns (front: string, back: string)
    ensures Upper(call) == front + Norm(call) + back && Blank(front) && Blank(back) && Trimmed(Norm(call))
  {
    front := LStripCuts(Upper(call));
    back := RStripCuts(LStrip(Upper(call)));
  }

  /** The call is that of the station b under some SSID or none: in normal form it is b, or b and a
      dash and more. */
  predicate OfStation(call: string, b: string)
  {
    '-' !in b && b <= Norm(call) && (|b| < |Norm(call)| ==> Norm(call)[|b|] == '-')
  }

  lemma {:induction false} FirstDashIs(s: string)
    ensures FirstDash(s) < |s| ==> s[FirstDash(s)] == '-'
    ensures forall i :: 0 <= i < FirstDash(s) ==> s[i] != '-'
  {
    if s != [] && s[0] != '-' {
      FirstDashIs(s[1..]);
    }
  }

  /** The guard's name for a caller is the one station that its call is of. */
  lemma BaseIff(call: string, b: string)
    ensures b == Base(call) <==> OfStation(call, b)
  {
    var n := Norm(call);
    FirstDashIs(n);
    hide Norm, FirstDash;
    if OfStation(call, b) {
      assert forall i :: 0 <= i < |b| ==> n[i] == b[i] && b[i] in b;
      assert |b| == FirstDash(n);
    }
  }

  lemma UpperDash(c: string)
    requires '-' !in c
    ensures '-' !in Upper(c)
  {
  }

  lemma UpperDecimal(n: nat)
    ensures Upper(Decimal(n)) == Decimal(n) && !IsSpace(Decimal(n)[|Decimal(n)| - 1])
  {
    UpperKeeps(Decimal(n));
  }

  lemma {:induction false} StripTrimmed(s: string)
    requires Trimmed(s)
    ensures Strip(s) == s
  {
  }

  lemma UpperTrimmed(c: string)
    requires Trimmed(c)
    ensures Trimmed(Upper(c))
  {
  }

  /** A station's calls, with an SSID or without, all count as one caller. */
  lemma SsidIsIgnored(c: string, n: nat)
    requires '-' !in c && Trimmed(c)
    ensures Base(c + "-" + Decimal(n)) == Base(c) == Upper(c)
  {
    var call, u := c + "-" + Decimal(n), Upper(c);
    UpperDash(c);
    UpperDecimal(n);
    UpperTrimmed(c);
    hide Decimal, Strip, IsSpace;
    assert Upper(call) == u + "-" + Decimal(n);
    StationTrimmed(u, Decimal(n));
    StripTrimmed(u);
    StripTrimmed(Upper(call));
    assert OfStation(c, u) && OfStation(call, u);
    BaseIff(c, u);
    BaseIff(call, u);
  }

  lemma StationTrimmed(u: string, d: string)
    requires Trimmed(u) && d != [] && !IsSpace(d[|d| - 1])
    ensures Trimmed(u + "-" + d)
  {
  }

  // ---------- The gates ----------

  /** On a list by its full call, or as a station. */
  predicate OnList(calls: set<string>, user: string)
  {
    Norm(user) in calls || exists b :: b in calls && OfStation(user, b)
  }

  lemma ListedIff(calls: set<string>, user: string)
    ensures Listed(calls, user) <==> OnList(calls, user)
  {
    BaseIff(user, Base(user));
    forall b | b in calls && OfStation(user, b) ensures b == Base(user) {
      BaseIff(user, b);
    }
    hide Norm, OfStation, Base;
  }

  /** Gate by gate, what a request fails; who comes without a level counts as identified, level 1. */
  predicate Fails(p: Policy, r: Request, gate: Refusal)
  {
    match gate
    case Denied => OnList(p.deny, r.user)
    case NotAllowed => p.allow != {} && !OnList(p.allow, r.user)
    case AuthRequired => (if r.auth.Some? then r.auth.value else 1) < p.minAuth
    case Interlocked => p.interlock && r.arrivalVia != [] && Norm(r.neighbor) == Norm(r.arrivalVia)
    case RateLimited => false
  }

  /** The order in which the gates are tried. */
  function Turn(gate: Refusal): nat
  {
    match gate case Denied => 0 case NotAllowed => 1 case AuthRequired => 2 case RateLimited => 3 case Interlocked => 4
  }

  /** A request is refused by the first gate that it fails, the rate gate in its turn, and passes if
      it fails none. */
  lemma FirstGateFailed(p: Policy, b: Books, r: Request, now: real, gate: Refusal)
    ensures var reason := Checked(p, b, r, now).reason;
      var fails := Fails(p, r, gate) || (gate == RateLimited && p.rateLimit > 0 && RateExceeded(p, b, Base(r.user), now));
      && (reason == None ==> !fails)
      && (reason.Some? && Turn(gate) < Turn(reason.value) ==> !fails)
      && (reason == Some(gate) ==> fails)
  {
    ListedIff(p.deny, r.user);
    ListedIff(p.allow, r.user);
    hide Norm, Listed, OnList, Base, RateExceeded, Pruned;
  }

  /** A station on the deny list is refused under every SSID. */
  lemma DeniedUnderEverySsid(p: Policy, b: Books, r: Request, now: real, c: string, n: nat)
    requires '-' !in c && Trimmed(c) && Upper(c) in p.deny && r.user in {c, c + "-" + Decimal(n)}
    ensures Checked(p, b, r, now).reason == Some(Denied)
  {
    SsidIsIgnored(c, n);
    hide Base, Norm, Decimal;
  }

  // ---------- The accounts ----------

  /** How many of the open connections are the station's. */
  function OpenOf(open: seq<string>, b: string): nat
  {
    if open == [] then 0
    else OpenOf(open[..|open| - 1], b) + if OfStation(open[|open| - 1], b) then 1 else 0
  }

  /** How many of the accepted connects of the 60 seconds from a on are the station's. */
  function AcceptedOf(log: seq<Accepted>, b: string, a: real): nat
  {
    if log == [] then 0
    else
      var last := log[|log| - 1];
      AcceptedOf(log[..|log| - 1], b, a) + if OfStation(last.user, b) && a <= last.at <= a + 60.0 then 1 else 0
  }

  lemma {:induction false} OpenOfIs(open: seq<string>, b: string)
    ensures OpenOf(open, b) == OpenFor(open, b)
  {
    hide Base, OfStation;
    if open != [] {
      OpenOfIs(open[..|open| - 1], b);
      BaseIff(open[|open| - 1], b);
    }
  }

  lemma {:induction false} AcceptedOfIs(log: seq<Accepted>, b: string, a: real)
    ensures AcceptedOf(log, b, a) == InWindow(LogOf(log, b), a)
  {
    hide Base, OfStation, InWindow;
    if log == [] {
      NoneInWindow(a);
    } else {
      var n := |log| - 1;
      var last := log[n];
      AcceptedOfIs(log[..n], b, a);
      BaseIff(last.user, b);
      WindowSplits(LogOf(log[..n], b), if Base(last.user) == b then [last.at] else [], a);
      OneInWindow(last.at, a);
      NoneInWindow(a);
    }
  }

  lemma OneInWindow(at: real, a: real)
    ensures InWindow([at], a) == if a <= at <= a + 60.0 then 1 else 0
  {
    assert [at][..0] == [];
  }

  lemma NoneInWindow(a: real)
    ensures InWindow([], a) == 0
  {
  }

  /** Under any interleaving of sessions, under whatever SSIDs it calls: a station never has more
      connections open than its cap, and the node none beyond its own. */
  lemma StationCap(p: Policy, es: seq<Event>, b: string)
    ensures OpenOf(Exec(p, es).open, b) <= p.maxPerUser
    ensures |Exec(p, es).open| <= p.maxCircuits
  {
    hide Exec, Sum, OpenFor, OpenOf;
    AccountsBalance(p, es);
    OpenOfIs(Exec(p, es).open, b);
    assert Held(Exec(p, es).books, b) == OpenFor(Exec(p, es).open, b);
  }

  /** ... and never more accepted connects in any 60 seconds than the rate allows. */
  lemma StationRate(p: Policy, es: seq<Event>, b: string, a: real)
    requires p.rateLimit > 0 && Monotone(es)
    ensures AcceptedOf(Exec(p, es).log, b, a) <= p.rateLimit
  {
    hide Exec, InWindow, LogOf, AcceptedOf, Monotone;
    NeverTooManyAMinute(p, es, b, a);
    AcceptedOfIs(Exec(p, es).log, b, a);
  }

  /** A connect is accepted if and only if the caller is on no deny list, on the allow list if there is
      one, of sufficient level, not going back the way it came, has had fewer connects in the last 60
      seconds than the rate allows, and neither its station's cap nor the node's is reached. */
  lemma AcceptedExactly(p: Policy, es: seq<Event>, r: Request, now: real, later: real)
    requires Monotone(es) && Clock(es) <= now
    ensures var w := Exec(p, es); var b := Base(r.user);
      OfStation(r.user, b) &&
      (|Step(p, w, Connect(r, now, later)).open| == |w.open| + 1 <==>
       && (forall gate :: !Fails(p, r, gate))
       && (p.rateLimit > 0 ==> AcceptedOf(w.log, b, now - 60.0) < p.rateLimit)
       && |w.open| < p.maxCircuits && OpenOf(w.open, b) < p.maxPerUser)
  {
    hide Exec, Base, Listed, OnList, Norm, LogOf, InWindow, OpenFor, OpenOf, AcceptedOf, Monotone, Clock, OfStation, Step;
    var w, b := Exec(p, es), Base(r.user);
    BaseIff(r.user, b);
    ListedIff(p.deny, r.user);
    ListedIff(p.allow, r.user);
    AcceptedIff(p, es, r, now, later);
    OpenOfIs(w.open, b);
    AcceptedOfIs(w.log, b, now - 60.0);
    GatesAre(p, r);
  }

  lemma GatesAre(p: Policy, r: Request)
    ensures (forall gate :: !Fails(p, r, gate)) <==> PassesLists(p, r) && Level(r) >= p.minAuth && !Loops(p, r)
  {
    ListedIff(p.deny, r.user);
    ListedIff(p.allow, r.user);
    hide Listed, OnList, Norm;
    if forall gate :: !Fails(p, r, gate) {
      assert !Fails(p, r, Denied) && !Fails(p, r, NotAllowed) && !Fails(p, r, AuthRequired) && !Fails(p, r, Interlocked);
    }
  }

  /** Two calls that differ in their SSID alone share one cap: with the cap taken under one, the other
      is refused. */
  lemma CapHoldsAcrossSsids(p: Policy, es: seq<Event>, r: Request, now: real, later: real, c: string, n: nat, m: nat)
    requires Monotone(es) && Clock(es) <= now && '-' !in c && Trimmed(c)
    requires r.user == c + "-" + Decimal(n) && OpenOf(Exec(p, es).open, Upper(c)) >= p.maxPerUser
    ensures |Step(p, Exec(p, es), Connect(r, now, later)).open| == |Exec(p, es).open|
    ensures OfStation(c + "-" + Decimal(m), Upper(c)) && OfStation(c, Upper(c))
  {
    SsidIsIgnored(c, n);
    SsidIsIgnored(c, m);
    BaseIff(c + "-" + Decimal(m), Upper(c));
    BaseIff(c, Upper(c));
    hide Exec, Base, Norm, OpenOf, AcceptedOf, Monotone, Clock, OfStation, Decimal, Fails, Trimmed;
    AcceptedExactly(p, es, r, now, later);
    OpensAtMostOne(p, Exec(p, es), r, now, later);
  }

  lemma OpensAtMostOne(p: Policy, w: World, r: Request, now: real, later: real)
    ensures |Step(p, w, Connect(r, now, later)).open| in {|w.open|, |w.open| + 1}
  {
    hide Admits, Attempted;
  }
}
