// Along the cycle of live processes every view-change token comes to rest.

module Circulation {
  import opened Types
  import opened Recovery
  import opened MergeProofs
  import opened ViewChangeSpec
  import opened Successor

  type Tour = t: TourShape | IsTour(t) ghost witness (OneMember(); TourShape(1, {}, [0]))

  // ----- one token on its way -----

  function Handle(vc: Vc, msg: Msg, report: Report): VcEffect
    requires MsgFits(vc.n, msg) && Fits(vc.n, report)
  {
    match msg
    case Gather(_, _, _, _) => OnGather(vc, msg, report)
    case Installing(_, _, _, _) => OnInstall(vc, msg)
    case ReadmitGather(_, _, _, _) => OnReadmitGather(vc, msg, report)
    case ReadmitInstalling(_, _, _, _, _) => OnReadmitInstall(vc, msg)
  }

  /** `token` is empty once dropped; `at` is its next receiver; `given`: the plans each was told to apply. */
  datatype Flight = Flight(vcs: seq<Vc>, at: nat, token: seq<Msg>, given: seq<seq<Plan>>)

  predicate FlightOk(n: nat, f: Flight) {
    && |f.vcs| == |f.given| == n && f.at < n && (forall p :: 0 <= p < n ==> f.vcs[p].n == n)
    && (forall i :: 0 <= i < |f.token| ==> MsgFits(n, f.token[i]))
  }

  lemma HandleFits(vc: Vc, msg: Msg, report: Report)
    requires MsgFits(vc.n, msg) && Fits(vc.n, report)
    ensures var e := Handle(vc, msg, report);
      e.vc.n == vc.n && forall i :: 0 <= i < |Tokens(e.acts)| ==> MsgFits(vc.n, Tokens(e.acts)[i])
  {
    TokensOf(Handle(vc, msg, report).acts);
  }

  /** Who is out once this token's round is over, as this node sees it: the driver's retarget. */
  function Route(vc: Vc, msg: Msg): set<nat> {
    if msg.Gather? || msg.Installing? then vc.dead + {msg.victim} else vc.dead - {msg.rejoiner}
  }

  function Hop(n: nat, f: Flight, report: Report): (r: Flight)
    requires FlightOk(n, f) && Fits(n, report)
    ensures FlightOk(n, r)
  {
    if f.token == [] then f
    else
      var e := Handle(f.vcs[f.at], f.token[0], report);
      HandleFits(f.vcs[f.at], f.token[0], report);
      Flight(f.vcs[f.at := e.vc], NextAlive(f.at, n, Route(f.vcs[f.at], f.token[0])), Tokens(e.acts),
             f.given[f.at := f.given[f.at] + Plans(e.acts)])
  }

  /** After `h` hops; whoever is visited at hop `i` contributes `reports(i)`. */
  function Travel(n: nat, f: Flight, reports: nat -> Report, h: nat): (r: Flight)
    requires FlightOk(n, f) && forall i :: Fits(n, reports(i))
    ensures FlightOk(n, r)
  {
    if h == 0 then f
    else
      assert Fits(n, reports(h - 1));
      Hop(n, Travel(n, f, reports, h - 1), reports(h - 1))
  }

  // ----- what one visit does -----

  predicate IsGather(msg: Msg) { msg.Gather? || msg.ReadmitGather? }

  /** Same kind, same process going or coming; the coordinator serves the state transfer. */
  predicate SameRound(a: Msg, b: Msg) {
    && a.view == b.view && a.coordinator == b.coordinator
    && (a.Gather? || a.Installing? <==> b.Gather? || b.Installing?)
    && (if a.Gather? || a.Installing? then a.victim == b.victim else a.rejoiner == b.rejoiner)
    && (a.ReadmitInstalling? ==> a.source == a.coordinator)
  }

  /** Once it handles the token, this node's dead set is `gone`. */
  predicate Settles(vc: Vc, msg: Msg, gone: set<nat>) {
    Route(vc, msg) == gone && (msg.ReadmitGather? || msg.ReadmitInstalling? ==> msg.rejoiner < vc.n)
  }

  /** A gather visit completes the round here, with the plan of all reports, or passes on with one more report. */
  lemma GatherVisit(vc: Vc, msg: Msg, report: Report, gone: set<nat>)
    requires MsgFits(vc.n, msg) && Fits(vc.n, report) && IsGather(msg)
    requires vc.installed < msg.view && Settles(vc, msg, gone)
    ensures var e := Handle(vc, msg, report); var all := WithReport(msg.reports, vc.me, report);
      && e.vc.me == vc.me && |Tokens(e.acts)| == 1 && SameRound(Tokens(e.acts)[0], msg) && EntriesFit(vc.n, all)
      && (if vc.me == msg.coordinator && (forall p :: 0 <= p < vc.n && p !in gone ==> p in Reporters(all))
          then (!IsGather(Tokens(e.acts)[0]) && e.vc.installed == msg.view && e.vc.dead == gone
                && Tokens(e.acts)[0].plan == PlanFrom(vc.n, all) && Plans(e.acts) == [PlanFrom(vc.n, all)])
          else (IsGather(Tokens(e.acts)[0]) && Tokens(e.acts)[0].reports == all && Plans(e.acts) == []
                && e.vc.installed == vc.installed && Settles(e.vc, msg, gone)))
  {
    TokensOf(Handle(vc, msg, report).acts);
  }

  /** An install visit installs and passes the token on, or drops it. */
  lemma InstallVisit(vc: Vc, msg: Msg, report: Report, gone: set<nat>)
    requires MsgFits(vc.n, msg) && Fits(vc.n, report) && !IsGather(msg)
    ensures var e := Handle(vc, msg, report);
      if vc.installed >= msg.view then e.vc == vc && Tokens(e.acts) == [] && Plans(e.acts) == []
      else (Tokens(e.acts) == [msg] && Plans(e.acts) == [msg.plan] && e.vc.me == vc.me && e.vc.installed == msg.view
            && (Settles(vc, msg, gone) ==> e.vc.dead == gone))
  {
    TokensOf(Handle(vc, msg, report).acts);
  }

  // ----- walking round the cycle -----

  /** Index reached from `i` after `h` places, on a cycle of `m`. */
  function Turn(m: nat, i: nat, h: nat): (r: nat)
    requires i < m
    ensures r < m
  {
    if h == 0 then i else After(Turn(m, i, h - 1), m)
  }

  lemma {:induction false} TurnClosed(m: nat, i: nat, h: nat)
    requires i < m && h <= 2 * m
    ensures Turn(m, i, h) == if i + h < m then i + h else if i + h < 2 * m then i + h - m else i + h - 2 * m
  {
    if h > 0 { TurnClosed(m, i, h - 1); }
  }

  /** Processes met from index `i` on, over `h` places. */
  ghost function Met(order: seq<nat>, i: nat, h: nat): set<nat>
    requires i < |order|
  {
    set x | 0 <= x <= h :: order[Turn(|order|, i, x)]
  }

  lemma MetGrows(order: seq<nat>, i: nat, h: nat)
    requires i < |order|
    ensures Met(order, i, h + 1) == Met(order, i, h) + {order[Turn(|order|, i, h + 1)]}
    ensures Met(order, i, 0) == {order[i]}
  {
    assert order[Turn(|order|, i, 0)] == order[i];
  }

  /** A whole tour, or all but one step of it, meets everybody. */
  lemma MetAll(t: Tour, i: nat, h: nat, p: nat)
    requires i < |t.order| && h + 1 >= |t.order| && p in t.order
    ensures p in Met(t.order, i, h)
  {
    var j :| 0 <= j < |t.order| && t.order[j] == p;
    var x := Offset(|t.order|, i, j);
    TurnClosed(|t.order|, i, x);
    assert Turn(|t.order|, i, x) == j;
  }

  /** Fewer steps leave the next process unmet. */
  lemma NotYetMet(t: Tour, i: nat, h: nat)
    requires i < |t.order| && h + 1 < |t.order|
    ensures t.order[Turn(|t.order|, i, h + 1)] !in Met(t.order, i, h)
  {
    var m := |t.order|;
    TurnClosed(m, i, h + 1);
    forall x | 0 <= x <= h ensures t.order[Turn(m, i, x)] != t.order[Turn(m, i, h + 1)] {
      TurnClosed(m, i, x);
      DistinctPlaces(t, Turn(m, i, x), Turn(m, i, h + 1));
    }
  }

  lemma DistinctPlaces(t: Tour, a: nat, b: nat)
    requires a < |t.order| && b < |t.order| && a != b
    ensures t.order[a] != t.order[b]
  {
    if a < b { assert t.order[a] < t.order[b]; } else { assert t.order[b] < t.order[a]; }
  }

  // ----- the gather phase -----

  /** Hops until the coordinator, at index `c`, has heard from all `m`, starting at index `d`. */
  function GatherHops(m: nat, d: nat, c: nat): (h: nat)
    requires d < m && c < m
    ensures h < 2 * m
  {
    var away := Offset(m, d, c);
    if away == 0 then m else if away + 1 == m then away else away + m
  }

  /** The first visit to the coordinator with at least `m - 1` hops made. */
  lemma GatherHopsFirst(m: nat, d: nat, c: nat, h: nat)
    requires d < m && c < m && 1 <= h <= GatherHops(m, d, c)
    ensures Turn(m, d, h) == c && h + 1 >= m <==> h == GatherHops(m, d, c)
  {
    TurnClosed(m, d, h);
  }

  predicate Waits(vc: Vc, p: nat, first: Msg, gone: set<nat>) {
    vc.me == p && vc.installed < first.view && Settles(vc, first, gone)
  }

  predicate HasInstalled(vc: Vc, p: nat, first: Msg, gone: set<nat>) {
    vc.me == p && vc.installed == first.view && vc.dead == gone
  }

  /** Members met from index `c` within `k` places have installed; the others wait. */
  ghost predicate Crew(t: Tour, vcs: seq<Vc>, first: Msg, met: set<nat>) {
    && |vcs| == t.n
    && (forall p :: p in t.order ==>
          if p in met then HasInstalled(vcs[p], p, first, t.gone) else Waits(vcs[p], p, first, t.gone))
  }

  lemma CrewWaits(t: Tour, vcs: seq<Vc>, first: Msg, met: set<nat>, p: nat, vc: Vc)
    requires Crew(t, vcs, first, met) && p in t.order && p !in met && Waits(vc, p, first, t.gone)
    ensures Crew(t, vcs[p := vc], first, met)
  {
  }

  lemma CrewInstalls(t: Tour, vcs: seq<Vc>, first: Msg, met: set<nat>, p: nat, vc: Vc)
    requires Crew(t, vcs, first, met) && p in t.order && HasInstalled(vc, p, first, t.gone)
    ensures Crew(t, vcs[p := vc], first, met + {p})
  {
  }

  /** The members met have each been given this one plan, the others none. */
  ghost predicate Given(t: Tour, f: Flight, met: set<nat>, plan: Plan) {
    |f.given| == t.n && forall p :: p in t.order ==> f.given[p] == if p in met then [plan] else []
  }

  lemma GivenMore(t: Tour, f: Flight, f': Flight, met: set<nat>, plan: Plan, p: nat)
    requires Given(t, f, met, plan) && p < t.n && p !in met && f'.given == f.given[p := f.given[p] + [plan]]
    requires p in t.order
    ensures Given(t, f', met + {p}, plan)
  {
  }

  /** Nobody has installed; the gather has met `h` processes beyond its origin and carries `entries`. */
  ghost predicate Gathering(t: Tour, f: Flight, d: nat, c: nat, first: Msg, h: nat, entries: seq<Entry>) {
    && FlightOk(t.n, f) && d < |t.order| && c < |t.order| && first.coordinator == t.order[c]
    && Crew(t, f.vcs, first, {})
    && |f.token| == 1 && IsGather(f.token[0]) && SameRound(f.token[0], first)
    && f.at == t.order[Turn(|t.order|, d, h + 1)]
    && f.token[0].reports == entries && Reporters(entries) == Met(t.order, d, h)
    && forall p :: p in t.order ==> f.given[p] == []
  }

  /** Whoever was met from the coordinator on has installed `plan`; the token is about to visit `f.at`. */
  ghost predicate Spreading(t: Tour, f: Flight, c: nat, first: Msg, k: nat, plan: Plan) {
    && FlightOk(t.n, f) && c < |t.order|
    && Crew(t, f.vcs, first, Met(t.order, c, k))
    && |f.token| == 1 && !IsGather(f.token[0]) && SameRound(f.token[0], first) && f.token[0].plan == plan
    && f.at == t.order[Turn(|t.order|, c, k + 1)]
    && Given(t, f, Met(t.order, c, k), plan)
  }

  lemma AtMember(t: Tour, i: nat)
    requires i < |t.order|
    ensures t.order[i] in t.order && t.order[i] < t.n && t.order[i] !in t.gone
  {
    OrderBounds(t, i);
  }

  /** A waiting member's gather visit, and whether it completes the round. */
  lemma WaitingVisit(vc: Vc, p: nat, msg: Msg, first: Msg, report: Report, gone: set<nat>, complete: bool)
    requires MsgFits(vc.n, msg) && Fits(vc.n, report) && IsGather(msg)
    requires SameRound(msg, first) && Waits(vc, p, first, gone)
    requires complete <==>
      p == first.coordinator && forall x :: 0 <= x < vc.n && x !in gone ==> x in Reporters(msg.reports) + {p}
    ensures var e := Handle(vc, msg, report); var all := WithReport(msg.reports, p, report);
      && |Tokens(e.acts)| == 1 && SameRound(Tokens(e.acts)[0], first) && IsGather(Tokens(e.acts)[0]) == !complete
      && EntriesFit(vc.n, all)
      && (if complete then
            (HasInstalled(e.vc, p, first, gone)
             && Tokens(e.acts)[0].plan == PlanFrom(vc.n, all) && Plans(e.acts) == [PlanFrom(vc.n, all)])
          else Waits(e.vc, p, first, gone) && Tokens(e.acts)[0].reports == all && Plans(e.acts) == [])
  {
    GatherVisit(vc, msg, report, gone);
  }

  lemma Incomplete(t: Tour, d: nat, c: nat, h: nat)
    requires d < |t.order| && c < |t.order| && h + 1 < GatherHops(|t.order|, d, c)
    ensures var p := t.order[Turn(|t.order|, d, h + 1)];
      !(p == t.order[c] && forall x :: 0 <= x < t.n && x !in t.gone ==> x in Met(t.order, d, h) + {p})
  {
    var m := |t.order|;
    var i := Turn(m, d, h + 1);
    GatherHopsFirst(m, d, c, h + 1);
    if i == c {
      NotYetMet(t, d, h + 1);
      MetGrows(t.order, d, h);
      AtMember(t, Turn(m, d, h + 2));
    } else {
      DistinctPlaces(t, i, c);
    }
  }

  lemma Complete(t: Tour, d: nat, c: nat, h: nat)
    requires d < |t.order| && c < |t.order| && h + 1 == GatherHops(|t.order|, d, c)
    ensures Turn(|t.order|, d, h + 1) == c
    ensures forall x :: 0 <= x < t.n && x !in t.gone ==> x in Met(t.order, d, h) + {t.order[c]}
  {
    GatherHopsFirst(|t.order|, d, c, h + 1);
    MetGrows(t.order, d, h);
    forall x | 0 <= x < t.n && x !in t.gone ensures x in Met(t.order, d, h + 1) { MetAll(t, d, h + 1, x); }
  }

  ghost predicate Gathers(t: Tour, f: Flight, d: nat, c: nat, first: Msg, h: nat, entries: seq<Entry>) {
    exists x :: x == f && Gathering(t, x, d, c, first, h, entries)
  }

  lemma GatherHop(t: Tour, f: Flight, d: nat, c: nat, first: Msg, h: nat, entries: seq<Entry>, report: Report)
    requires Gathers(t, f, d, c, first, h, entries) && FlightOk(t.n, f) && Fits(t.n, report)
    requires c < |t.order| && d < |t.order| && h + 1 < GatherHops(|t.order|, d, c)
    ensures Gathers(t, Hop(t.n, f, report), d, c, first, h + 1,
                    WithReport(entries, t.order[Turn(|t.order|, d, h + 1)], report))
  {
    var i := Turn(|t.order|, d, h + 1);
    AtMember(t, i);
    Incomplete(t, d, c, h);
    WaitingVisit(f.vcs[f.at], f.at, f.token[0], first, report, t.gone, false);
    CrewWaits(t, f.vcs, first, {}, f.at, Handle(f.vcs[f.at], f.token[0], report).vc);
    SingleCycle(t, i);
    MetGrows(t.order, d, h);
    NothingAfter(f.given[f.at]);
    assert Gathering(t, Hop(t.n, f, report), d, c, first, h + 1, WithReport(entries, t.order[i], report));
  }

  ghost predicate SpreadBegins(t: Tour, f: Flight, c: nat, first: Msg, plan: Plan) {
    exists x :: x == f && Spreading(t, x, c, first, 0, plan)
  }

  lemma GatherCompletes(t: Tour, f: Flight, d: nat, c: nat, first: Msg, h: nat, entries: seq<Entry>, report: Report)
    requires Gathers(t, f, d, c, first, h, entries) && FlightOk(t.n, f) && Fits(t.n, report)
    requires c < |t.order| && d < |t.order| && h + 1 == GatherHops(|t.order|, d, c)
    ensures var all := WithReport(entries, t.order[Turn(|t.order|, d, h + 1)], report);
      EntriesFit(t.n, all) && SpreadBegins(t, Hop(t.n, f, report), c, first, PlanFrom(t.n, all))
  {
    AtMember(t, c);
    Complete(t, d, c, h);
    WaitingVisit(f.vcs[f.at], f.at, f.token[0], first, report, t.gone, true);
    CrewInstalls(t, f.vcs, first, {}, f.at, Handle(f.vcs[f.at], f.token[0], report).vc);
    SingleCycle(t, c);
    MetGrows(t.order, c, 0);
    assert Turn(|t.order|, c, 1) == After(Turn(|t.order|, c, 0), |t.order|);
    var plan := PlanFrom(t.n, WithReport(entries, t.order[c], report));
    GivenMore(t, f, Hop(t.n, f, report), {}, plan, f.at);
    assert Spreading(t, Hop(t.n, f, report), c, first, 0, plan);
  }

  /** The reports a gather carries after `h` hops. */
  ghost function Gathered(t: Tour, d: nat, start: seq<Entry>, reports: nat -> Report, h: nat): seq<Entry>
    requires d < |t.order|
  {
    if h == 0 then start
    else WithReport(Gathered(t, d, start, reports, h - 1), t.order[Turn(|t.order|, d, h)], reports(h - 1))
  }

  lemma {:induction false} GatherPhase(t: Tour, f: Flight, d: nat, c: nat, first: Msg, reports: nat -> Report, h: nat)
    requires GatherAt(t, f, d, c, first, reports, 0) && d < |t.order|
    requires c < |t.order| && h < GatherHops(|t.order|, d, c)
    ensures GatherAt(t, f, d, c, first, reports, h)
  {
    if h > 0 {
      GatherPhase(t, f, d, c, first, reports, h - 1);
      GatherAdvances(t, f, d, c, first, reports, h);
    }
  }

  /** A flight that has collected the reports of its first `h` hops. */
  ghost predicate StillGathers(t: Tour, f: Flight, d: nat, c: nat, first: Msg, start: seq<Entry>,
                               reports: nat -> Report, h: nat) {
    d < |t.order| && Gathers(t, f, d, c, first, h, Gathered(t, d, start, reports, h))
  }

  /** After `h` hops of this flight, the gather is still under way. */
  ghost predicate GatherAt(t: Tour, f: Flight, d: nat, c: nat, first: Msg, reports: nat -> Report, h: nat) {
    && FlightOk(t.n, f) && (forall i :: Fits(t.n, reports(i)))
    && IsGather(first) && EntriesFit(t.n, first.reports) && d < |t.order|
    && StillGathers(t, Travel(t.n, f, reports, h), d, c, first, first.reports, reports, h)
  }

  lemma GatherLaunched(t: Tour, f: Flight, d: nat, c: nat, first: Msg, reports: nat -> Report)
    requires IsGather(first) && Gathering(t, f, d, c, first, 0, first.reports) && forall i :: Fits(t.n, reports(i))
    ensures GatherAt(t, f, d, c, first, reports, 0)
  {
    assert Travel(t.n, f, reports, 0) == f;
    assert Gathers(t, f, d, c, first, 0, Gathered(t, d, first.reports, reports, 0));
  }

  lemma GatherAdvances(t: Tour, f: Flight, d: nat, c: nat, first: Msg, reports: nat -> Report, h: nat)
    requires d < |t.order| && c < |t.order| && 0 < h < GatherHops(|t.order|, d, c)
    requires GatherAt(t, f, d, c, first, reports, h - 1)
    ensures GatherAt(t, f, d, c, first, reports, h)
  {
    TravelHop(t.n, f, reports, h);
    var r, r' := Travel(t.n, f, reports, h - 1), Travel(t.n, f, reports, h);
    GatherCollects(t, r, r', d, c, first, first.reports, reports, h);
  }

  lemma GatherCollects(t: Tour, f: Flight, f': Flight, d: nat, c: nat, first: Msg, start: seq<Entry>,
                       reports: nat -> Report, h: nat)
    requires d < |t.order| && c < |t.order| && 0 < h < GatherHops(|t.order|, d, c)
    requires StillGathers(t, f, d, c, first, start, reports, h - 1)
    requires FlightOk(t.n, f) && Fits(t.n, reports(h - 1)) && f' == Hop(t.n, f, reports(h - 1))
    ensures StillGathers(t, f', d, c, first, start, reports, h)
  {
    var entries, all := Gathered(t, d, start, reports, h - 1), Gathered(t, d, start, reports, h);
    NextGather(t, f, f', d, c, first, h, entries, all, reports(h - 1));
  }

  lemma NextGather(t: Tour, f: Flight, f': Flight, d: nat, c: nat, first: Msg, h: nat, entries: seq<Entry>,
                   all: seq<Entry>, report: Report)
    requires d < |t.order| && c < |t.order| && 0 < h < GatherHops(|t.order|, d, c)
    requires Gathers(t, f, d, c, first, h - 1, entries)
    requires all == WithReport(entries, t.order[Turn(|t.order|, d, h)], report)
    requires FlightOk(t.n, f) && Fits(t.n, report) && f' == Hop(t.n, f, report)
    ensures Gathers(t, f', d, c, first, h, all)
  {
    GatherHop(t, f, d, c, first, h - 1, entries, report);
  }

  /** The coordinator has installed the plan of the reports gathered and sent it on. */
  ghost predicate Resolved(t: Tour, f: Flight, d: nat, c: nat, first: Msg, start: seq<Entry>, reports: nat -> Report,
                           h: nat) {
    && d < |t.order| && EntriesFit(t.n, Gathered(t, d, start, reports, h))
    && SpreadBegins(t, f, c, first, PlanFrom(t.n, Gathered(t, d, start, reports, h)))
  }

  lemma GatherResolves(t: Tour, f: Flight, f': Flight, d: nat, c: nat, first: Msg, start: seq<Entry>,
                       reports: nat -> Report, h: nat)
    requires d < |t.order| && c < |t.order| && h == GatherHops(|t.order|, d, c)
    requires Gathers(t, f, d, c, first, h - 1, Gathered(t, d, start, reports, h - 1))
    requires FlightOk(t.n, f) && Fits(t.n, reports(h - 1)) && f' == Hop(t.n, f, reports(h - 1))
    ensures Resolved(t, f', d, c, first, start, reports, h)
  {
    var entries, all := Gathered(t, d, start, reports, h - 1), Gathered(t, d, start, reports, h);
    LastGather(t, f, f', d, c, first, h, entries, all, reports(h - 1));
  }

  lemma LastGather(t: Tour, f: Flight, f': Flight, d: nat, c: nat, first: Msg, h: nat, entries: seq<Entry>,
                   all: seq<Entry>, report: Report)
    requires d < |t.order| && c < |t.order| && h == GatherHops(|t.order|, d, c)
    requires Gathers(t, f, d, c, first, h - 1, entries)
    requires all == WithReport(entries, t.order[Turn(|t.order|, d, h)], report)
    requires FlightOk(t.n, f) && Fits(t.n, report) && f' == Hop(t.n, f, report)
    ensures EntriesFit(t.n, all) && SpreadBegins(t, f', c, first, PlanFrom(t.n, all))
  {
    GatherCompletes(t, f, d, c, first, h - 1, entries, report);
  }

  // ----- the install phase -----

  lemma InstallHop(t: Tour, f: Flight, c: nat, first: Msg, k: nat, plan: Plan, report: Report)
    requires Spreading(t, f, c, first, k, plan) && Fits(t.n, report) && k + 1 < |t.order|
    ensures Spreading(t, Hop(t.n, f, report), c, first, k + 1, plan)
  {
    var i := Turn(|t.order|, c, k + 1);
    AtMember(t, i);
    NotYetMet(t, c, k);
    InstallVisit(f.vcs[f.at], f.token[0], report, t.gone);
    CrewInstalls(t, f.vcs, first, Met(t.order, c, k), f.at, Handle(f.vcs[f.at], f.token[0], report).vc);
    SingleCycle(t, i);
    MetGrows(t.order, c, k);
    GivenMore(t, f, Hop(t.n, f, report), Met(t.order, c, k), plan, f.at);
  }

  lemma InstallStops(t: Tour, f: Flight, c: nat, first: Msg, plan: Plan, report: Report)
    requires Spreading(t, f, c, first, |t.order| - 1, plan) && Fits(t.n, report)
    ensures AtRest(t, Hop(t.n, f, report), first.view, plan)
  {
    forall p | p in t.order ensures p in Met(t.order, c, |t.order| - 1) { MetAll(t, c, |t.order| - 1, p); }
    AtMember(t, Turn(|t.order|, c, |t.order|));
    InstallVisit(f.vcs[f.at], f.token[0], report, t.gone);
    NothingAfter(f.given[f.at]);
  }

  /** No token is left, and every member has installed the view and applied this one plan. */
  ghost predicate AtRest(t: Tour, f: Flight, view: nat, plan: Plan) {
    && |f.vcs| == |f.given| == t.n && f.token == []
    && (forall p :: p in t.order ==>
          f.vcs[p].installed == view && f.vcs[p].dead == t.gone && f.given[p] == [plan])
  }

  lemma TravelHop(n: nat, f: Flight, reports: nat -> Report, h: nat)
    requires FlightOk(n, f) && (forall i :: Fits(n, reports(i))) && h > 0
    ensures Fits(n, reports(h - 1))
    ensures Travel(n, f, reports, h) == Hop(n, Travel(n, f, reports, h - 1), reports(h - 1))
  {
  }

  /** After `h` hops of this flight, the install has spread over `k` places. */
  ghost predicate SpreadAt(t: Tour, f: Flight, c: nat, first: Msg, reports: nat -> Report, plan: Plan, h: nat, k: nat) {
    exists r :: FlightOk(t.n, f) && (forall i :: Fits(t.n, reports(i)))
      && r == Travel(t.n, f, reports, h) && Spreading(t, r, c, first, k, plan)
  }

  lemma InstallBegins(t: Tour, f: Flight, d: nat, c: nat, first: Msg, reports: nat -> Report, h: nat)
    requires GatherAt(t, f, d, c, first, reports, 0) && d < |t.order|
    requires c < |t.order| && h == GatherHops(|t.order|, d, c)
    ensures FlightOk(t.n, f) && IsGather(first) && forall i :: Fits(t.n, reports(i))
    ensures Resolved(t, Travel(t.n, f, reports, h), d, c, first, first.reports, reports, h)
  {
    GatherPhase(t, f, d, c, first, reports, h - 1);
    GatherEnds(t, f, d, c, first, reports, h);
  }

  lemma GatherEnds(t: Tour, f: Flight, d: nat, c: nat, first: Msg, reports: nat -> Report, h: nat)
    requires d < |t.order| && c < |t.order| && h == GatherHops(|t.order|, d, c)
    requires GatherAt(t, f, d, c, first, reports, h - 1)
    ensures FlightOk(t.n, f) && IsGather(first) && forall i :: Fits(t.n, reports(i))
    ensures Resolved(t, Travel(t.n, f, reports, h), d, c, first, first.reports, reports, h)
  {
    TravelHop(t.n, f, reports, h);
    var r, r' := Travel(t.n, f, reports, h - 1), Travel(t.n, f, reports, h);
    GatherResolves(t, r, r', d, c, first, first.reports, reports, h);
  }

  /** `plan` merges the reports gathered over the first `h` hops. */
  ghost predicate MergesTour(t: Tour, d: nat, start: seq<Entry>, reports: nat -> Report, h: nat, plan: Plan) {
    d < |t.order| && var entries := Gathered(t, d, start, reports, h);
      EntriesFit(t.n, entries) && plan == PlanFrom(t.n, entries)
  }

  lemma SpreadFrom(t: Tour, f: Flight, d: nat, c: nat, first: Msg, reports: nat -> Report, h: nat) returns (plan: Plan)
    requires FlightOk(t.n, f) && IsGather(first) && forall i :: Fits(t.n, reports(i))
    requires Resolved(t, Travel(t.n, f, reports, h), d, c, first, first.reports, reports, h)
    ensures SpreadAt(t, f, c, first, reports, plan, h, 0) && MergesTour(t, d, first.reports, reports, h, plan)
  {
    plan := PlanFrom(t.n, Gathered(t, d, first.reports, reports, h));
  }

  lemma InstallAdvances(t: Tour, f: Flight, c: nat, first: Msg, reports: nat -> Report, plan: Plan, h: nat, k: nat)
    requires 0 < h && 0 < k < |t.order| && SpreadAt(t, f, c, first, reports, plan, h - 1, k - 1)
    ensures SpreadAt(t, f, c, first, reports, plan, h, k)
  {
    TravelHop(t.n, f, reports, h);
    InstallHop(t, Travel(t.n, f, reports, h - 1), c, first, k - 1, plan, reports(h - 1));
  }

  lemma {:induction false} InstallPhase(t: Tour, f: Flight, c: nat, first: Msg, reports: nat -> Report,
                                        plan: Plan, g: nat, h: nat, k: nat)
    requires SpreadAt(t, f, c, first, reports, plan, g, 0) && h == g + k && k < |t.order|
    ensures SpreadAt(t, f, c, first, reports, plan, h, k)
    decreases k
  {
    if k > 0 {
      InstallPhase(t, f, c, first, reports, plan, g, h - 1, k - 1);
      InstallAdvances(t, f, c, first, reports, plan, h, k);
    }
  }

  /** The round's one token is under way, as a gather or as an install. */
  ghost predicate InFlight(f: Flight, first: Msg, gather: bool) {
    |f.token| == 1 && IsGather(f.token[0]) == gather && SameRound(f.token[0], first)
  }

  /**
   * A gather for `g < 2m` hops, an install for exactly `m` more, then nothing:
   * everybody has installed the view and been given exactly one plan, the same.
   */
  ghost predicate ComesToRest(t: Tour, f: Flight, reports: nat -> Report, first: Msg, g: nat, plan: Plan) {
    && FlightOk(t.n, f) && (forall i :: Fits(t.n, reports(i)))
    && g < 2 * |t.order|
    && (forall h :: 0 <= h < g ==> InFlight(Travel(t.n, f, reports, h), first, true))
    && (forall h :: g <= h < g + |t.order| ==> InFlight(Travel(t.n, f, reports, h), first, false))
    && AtRest(t, Travel(t.n, f, reports, g + |t.order|), first.view, plan)
  }

  lemma LastHop(t: Tour, f: Flight, c: nat, first: Msg, reports: nat -> Report, plan: Plan, h: nat)
    requires FlightOk(t.n, f) && forall i :: Fits(t.n, reports(i))
    requires 0 < h && SpreadAt(t, f, c, first, reports, plan, h - 1, |t.order| - 1)
    ensures AtRest(t, Travel(t.n, f, reports, h), first.view, plan)
  {
    TravelHop(t.n, f, reports, h);
    InstallStops(t, Travel(t.n, f, reports, h - 1), c, first, plan, reports(h - 1));
  }

  lemma RoundRests(t: Tour, f: Flight, c: nat, first: Msg, reports: nat -> Report, plan: Plan, g: nat, h: nat)
    requires FlightOk(t.n, f) && forall i :: Fits(t.n, reports(i))
    requires SpreadAt(t, f, c, first, reports, plan, g, 0) && h == g + |t.order|
    ensures AtRest(t, Travel(t.n, f, reports, h), first.view, plan)
  {
    InstallPhase(t, f, c, first, reports, plan, g, h - 1, |t.order| - 1);
    LastHop(t, f, c, first, reports, plan, h);
  }

  lemma InstallInFlight(t: Tour, f: Flight, c: nat, first: Msg, reports: nat -> Report, plan: Plan, g: nat, h: nat)
    requires FlightOk(t.n, f) && forall i :: Fits(t.n, reports(i))
    requires SpreadAt(t, f, c, first, reports, plan, g, 0) && g <= h < g + |t.order|
    ensures InFlight(Travel(t.n, f, reports, h), first, false)
  {
    InstallPhase(t, f, c, first, reports, plan, g, h, h - g);
  }

  lemma GatherInFlight(t: Tour, f: Flight, d: nat, c: nat, first: Msg, reports: nat -> Report, h: nat)
    requires FlightOk(t.n, f) && forall i :: Fits(t.n, reports(i))
    requires GatherAt(t, f, d, c, first, reports, 0) && d < |t.order|
    requires c < |t.order| && h < GatherHops(|t.order|, d, c)
    ensures InFlight(Travel(t.n, f, reports, h), first, true)
  {
    GatherPhase(t, f, d, c, first, reports, h);
  }

  lemma SpreadRests(t: Tour, f: Flight, d: nat, c: nat, first: Msg, reports: nat -> Report, plan: Plan, g: nat)
    requires FlightOk(t.n, f) && forall i :: Fits(t.n, reports(i))
    requires GatherAt(t, f, d, c, first, reports, 0) && d < |t.order|
    requires c < |t.order| && g == GatherHops(|t.order|, d, c) && SpreadAt(t, f, c, first, reports, plan, g, 0)
    ensures ComesToRest(t, f, reports, first, g, plan)
  {
    forall h | 0 <= h < g ensures InFlight(Travel(t.n, f, reports, h), first, true) {
      GatherInFlight(t, f, d, c, first, reports, h);
    }
    forall h | g <= h < g + |t.order| ensures InFlight(Travel(t.n, f, reports, h), first, false) {
      InstallInFlight(t, f, c, first, reports, plan, g, h);
    }
    RoundRests(t, f, c, first, reports, plan, g, g + |t.order|);
  }

  /** Termination of a round already on its way, and the plan it installs. */
  lemma RoundTerminates(t: Tour, f: Flight, d: nat, c: nat, first: Msg, reports: nat -> Report) returns (plan: Plan)
    requires IsGather(first) && Gathering(t, f, d, c, first, 0, first.reports) && EntriesFit(t.n, first.reports)
    requires forall i :: Fits(t.n, reports(i))
    ensures ComesToRest(t, f, reports, first, GatherHops(|t.order|, d, c), plan)
    ensures MergesTour(t, d, first.reports, reports, GatherHops(|t.order|, d, c), plan)
  {
    var g := GatherHops(|t.order|, d, c);
    GatherLaunched(t, f, d, c, first, reports);
    InstallBegins(t, f, d, c, first, reports, g);
    plan := SpreadFrom(t, f, d, c, first, reports, g);
    SpreadRests(t, f, d, c, first, reports, plan, g);
  }

  // ----- the plan of a round -----

  /** One report from every member and from nobody else, the origin's own first. */
  ghost predicate OneEach(t: Tour, entries: seq<Entry>) {
    && |entries| == |t.order| && EntriesFit(t.n, entries)
    && (forall p :: p in Reporters(entries) <==> p in t.order)
    && (forall i, j :: 0 <= i < j < |entries| ==> entries[i].who != entries[j].who)
  }

  /**
   * The plan loses nothing of these reports: every clock a reporter saw or
   * issued is within the boundary, which is the least such; a key has an action
   * exactly when it is within the boundary and some reporter lacks it; the action
   * resends every payload id a reporter holds for the key, and skips it only when
   * nobody holds any.
   */
  ghost predicate Resolves(n: nat, entries: seq<Entry>, plan: Plan) {
    && |plan.boundary| == n
    && (forall e, q :: e in entries && 0 <= q < n ==>
          && |e.report.seen| == |e.report.issued| == n
          && e.report.seen[q] <= plan.boundary[q] && e.report.issued[q] <= plan.boundary[q])
    && (forall q :: 0 <= q < n && plan.boundary[q] > 0 ==>
          exists e :: e in entries && Reaches(e.report, q, plan.boundary[q]))
    && (forall k :: k in plan.actions <==>
          k in KeysUpTo(plan.boundary) && exists e :: e in entries && k !in e.report.done)
    && (forall k, e :: k in plan.actions && e in entries && k in e.report.have ==>
          Resends(plan.actions[k], e.report.have[k]))
    && (forall k :: k in plan.actions && plan.actions[k].Resend? ==>
          exists e :: e in entries && k in e.report.have && e.report.have[k] != [])
  }

  predicate Reaches(r: Report, q: nat, clock: nat) {
    q < |r.seen| && q < |r.issued| && (r.seen[q] == clock || r.issued[q] == clock)
  }

  predicate Resends(action: Action, payloads: seq<Payload>) {
    payloads != [] ==> action.Resend? && forall x :: x in payloads ==> x.Id() in Ids(action.payloads)
  }

  lemma MergeResolves(n: nat, entries: seq<Entry>)
    requires EntriesFit(n, entries)
    ensures Resolves(n, entries, PlanFrom(n, entries))
  {
    var all, plan := Snapshots(entries), PlanFrom(n, entries);
    forall e | e in entries ensures e.report in all && Fits(n, e.report) {
      var i: nat :| i < |entries| && entries[i] == e;
      assert all[i] == e.report;
    }
    forall r | r in all ensures exists e :: e in entries && e.report == r {
      var i: nat :| i < |all| && all[i] == r;
      assert entries[i] in entries;
    }
    forall q | 0 <= q < n ensures plan.boundary[q] == Bound(all, q) { }
    forall q | 0 <= q < n && plan.boundary[q] > 0
      ensures exists e :: e in entries && Reaches(e.report, q, plan.boundary[q])
    {
      var r :| r in all && (r.seen[q] == Bound(all, q) || r.issued[q] == Bound(all, q));
      var e :| e in entries && e.report == r;
    }
    forall k | k in plan.actions ensures plan.actions[k] == ActionFor(all, k) { }
    forall k, e | k in plan.actions && e in entries && k in e.report.have
      ensures Resends(plan.actions[k], e.report.have[k])
    {
      HeldIsResent(all, e.report, k);
    }
    forall k | k in plan.actions && plan.actions[k].Resend?
      ensures exists e :: e in entries && k in e.report.have && e.report.have[k] != []
    {
      UnionFacts(all, k);
      assert Union(all, k)[0] in Union(all, k);
      var r :| r in all && k in r.have && Union(all, k)[0] in r.have[k];
      var e :| e in entries && e.report == r;
    }
  }

  lemma HeldIsResent(all: seq<Report>, r: Report, k: Key)
    requires r in all && k in r.have
    ensures Resends(ActionFor(all, k), r.have[k])
  {
    UnionFacts(all, k);
    forall x | x in r.have[k] ensures x.Id() in Ids(Union(all, k)) { assert Offered(all, k, x); }
    if r.have[k] != [] { assert r.have[k][0].Id() in Ids(Union(all, k)); }
  }

  lemma DistinctTurns(t: Tour, d: nat, i: nat, j: nat)
    requires d < |t.order| && i < j < |t.order|
    ensures t.order[Turn(|t.order|, d, i)] != t.order[Turn(|t.order|, d, j)]
  {
    TurnClosed(|t.order|, d, i);
    TurnClosed(|t.order|, d, j);
    DistinctPlaces(t, Turn(|t.order|, d, i), Turn(|t.order|, d, j));
  }

  lemma EachReports(t: Tour, d: nat, all: seq<Entry>)
    requires d < |t.order| == |all| && EntriesFit(t.n, all)
    requires forall x :: 0 <= x < |all| ==> all[x].who == t.order[Turn(|t.order|, d, x)]
    ensures OneEach(t, all)
  {
    var m := |t.order|;
    forall i, j | 0 <= i < j < m ensures all[i].who != all[j].who { DistinctTurns(t, d, i, j); }
    forall p | p in t.order ensures p in Reporters(all) {
      MetAll(t, d, m - 1, p);
      var x :| 0 <= x <= m - 1 && t.order[Turn(m, d, x)] == p;
      assert all[x] in all;
    }
    forall p | p in Reporters(all) ensures p in t.order { }
  }

  /** The origin's report, then one from everybody met for the first time, in order. */
  ghost predicate InTourOrder(t: Tour, d: nat, start: seq<Entry>, reports: nat -> Report, all: seq<Entry>)
    requires d < |t.order|
  {
    && 1 <= |all| <= |t.order| && |start| == 1 && all[0] == start[0]
    && forall x :: 1 <= x < |all| ==> all[x] == Entry(t.order[Turn(|t.order|, d, x)], reports(x - 1))
  }

  lemma OrderedReporters(t: Tour, d: nat, start: seq<Entry>, reports: nat -> Report, all: seq<Entry>)
    requires d < |t.order| && InTourOrder(t, d, start, reports, all) && start[0].who == t.order[d]
    ensures Reporters(all) == Met(t.order, d, |all| - 1)
  {
    forall x | 0 <= x < |all| ensures all[x].who == t.order[Turn(|t.order|, d, x)] && all[x] in all { }
    forall p | p in Met(t.order, d, |all| - 1) ensures p in Reporters(all) {
      var x :| 0 <= x <= |all| - 1 && t.order[Turn(|t.order|, d, x)] == p;
      assert all[x] in all;
    }
  }

  lemma {:induction false} GatheredInOrder(t: Tour, d: nat, start: seq<Entry>, reports: nat -> Report, h: nat)
    requires d < |t.order| && |start| == 1 && start[0].who == t.order[d]
    ensures var all := Gathered(t, d, start, reports, h);
      InTourOrder(t, d, start, reports, all) && |all| == if h < |t.order| then h + 1 else |t.order|
  {
    if h > 0 {
      GatheredInOrder(t, d, start, reports, h - 1);
      AppendInOrder(t, d, start, reports, Gathered(t, d, start, reports, h - 1), h);
    }
  }

  lemma AppendInOrder(t: Tour, d: nat, start: seq<Entry>, reports: nat -> Report, before: seq<Entry>, h: nat)
    requires d < |t.order| && InTourOrder(t, d, start, reports, before) && start[0].who == t.order[d]
    requires h > 0 && |before| == if h < |t.order| then h else |t.order|
    ensures var all := WithReport(before, t.order[Turn(|t.order|, d, h)], reports(h - 1));
      InTourOrder(t, d, start, reports, all) && |all| == if h < |t.order| then h + 1 else |t.order|
  {
    var i := Turn(|t.order|, d, h);
    OrderedReporters(t, d, start, reports, before);
    if h < |t.order| {
      NotYetMet(t, d, h - 1);
    } else {
      AtMember(t, i);
      MetAll(t, d, |before| - 1, t.order[i]);
    }
  }

  /** Every member's report, the origin's first and the others' in the order met, counts exactly once in the plan. */
  ghost predicate PlanResolves(t: Tour, d: nat, start: seq<Entry>, reports: nat -> Report, plan: Plan)
    requires d < |t.order|
  {
    exists all :: InTourOrder(t, d, start, reports, all) && OneEach(t, all) && Resolves(t.n, all, plan)
  }

  lemma TourPlanResolves(t: Tour, d: nat, c: nat, start: seq<Entry>, reports: nat -> Report, plan: Plan)
    requires d < |t.order| && c < |t.order| && |start| == 1 && start[0].who == t.order[d]
    requires MergesTour(t, d, start, reports, GatherHops(|t.order|, d, c), plan)
    ensures PlanResolves(t, d, start, reports, plan)
  {
    var h := GatherHops(|t.order|, d, c);
    var all := Gathered(t, d, start, reports, h);
    GatherHopsFirst(|t.order|, d, c, h);
    GatheredInOrder(t, d, start, reports, h);
    forall x | 0 <= x < |all| ensures all[x].who == t.order[Turn(|t.order|, d, x)] { }
    EachReports(t, d, all);
    MergeResolves(t.n, all);
  }

  // ----- the two rounds -----

  /** Every member is at `view` and believes `dead` dead; the others may be anywhere. */
  ghost predicate AllAt(t: Tour, vcs: seq<Vc>, view: nat, dead: set<nat>) {
    && |vcs| == t.n && (forall p :: 0 <= p < t.n ==> vcs[p].n == t.n)
    && (forall p :: p in t.order ==> vcs[p] == Vc(p, t.n, view, dead))
  }

  /** `p` has reacted with one token, which goes to the next process of the round. */
  function Launch(n: nat, vcs: seq<Vc>, p: nat, e: VcEffect): Flight
    requires |vcs| == n && p < n
  {
    var tokens := Tokens(e.acts);
    Flight(vcs[p := e.vc], if tokens == [] then p else NextAlive(p, n, Route(e.vc, tokens[0])), tokens,
           seq(n, i => [])[p := Plans(e.acts)])
  }

  lemma LaunchGathers(t: Tour, vcs: seq<Vc>, d: nat, c: nat, e: VcEffect, first: Msg, report: Report)
    requires d < |t.order| && c < |t.order| && t.order[d] < t.n && Fits(t.n, report)
    requires Crew(t, vcs, first, {}) && (forall p :: 0 <= p < t.n ==> vcs[p].n == t.n)
    requires e.acts == [Send(first)] && e.vc.n == t.n && Waits(e.vc, t.order[d], first, t.gone)
    requires IsGather(first) && first.coordinator == t.order[c] && first.reports == [Entry(t.order[d], report)]
    ensures Gathering(t, Launch(t.n, vcs, t.order[d], e), d, c, first, 0, first.reports)
  {
    AtMember(t, d);
    TokensOf(e.acts);
    SingleCycle(t, d);
    CrewWaits(t, vcs, first, {}, t.order[d], e.vc);
    MetGrows(t.order, d, 0);
    assert Turn(|t.order|, d, 1) == After(Turn(|t.order|, d, 0), |t.order|);
  }

  /**
   * Exclusion terminates: whoever detects the crash, the Gather reaches a
   * complete coordinator in fewer than 2m hops, the Install dies after exactly
   * m, and every survivor has installed the view without the victim.
   */
  lemma ExclusionTerminates(t: Tour, vcs: seq<Vc>, view: nat, victim: nat, d: nat, report: Report,
                            reports: nat -> Report) returns (plan: Plan)
    requires victim < t.n && victim in t.gone && AllAt(t, vcs, view, t.gone - {victim})
    requires d < |t.order| && t.order[d] < t.n
    requires Fits(t.n, report) && forall i :: Fits(t.n, reports(i))
    ensures var start := [Entry(t.order[d], report)];
      && ComesToRest(t, Launch(t.n, vcs, t.order[d], OnConfirm(vcs[t.order[d]], victim, report)), reports,
                     Gather(view + 1, t.order[0], victim, start), GatherHops(|t.order|, d, 0), plan)
      && PlanResolves(t, d, start, reports, plan)
  {
    var p := t.order[d];
    var e := OnConfirm(vcs[p], victim, report);
    AtMember(t, d);
    assert t.gone - {victim} + {victim} == t.gone;
    LowestSurvivor(t, e.vc);
    var first := Gather(view + 1, t.order[0], victim, [Entry(p, report)]);
    LaunchGathers(t, vcs, d, 0, e, first, report);
    plan := RoundTerminates(t, Launch(t.n, vcs, p, e), d, 0, first, reports);
    TourPlanResolves(t, d, 0, first.reports, reports, plan);
  }

  lemma LowestSurvivor(t: Tour, vc: Vc)
    requires vc.n == t.n && vc.dead == t.gone
    ensures Coordinator(vc) == t.order[0]
  {
    AtMember(t, 0);
    forall p | p in Alive(vc) ensures t.order[0] <= p {
      var j :| 0 <= j < |t.order| && t.order[j] == p;
      assert j > 0 ==> t.order[0] < t.order[j];
    }
    CoordinatorIsLowest(vc, t.order[0]);
  }

  /** The lowest member other than the one at index `d`; that one itself when alone. */
  function OtherLowest(m: nat, d: nat): (c: nat)
    requires d < m
    ensures c < m
  {
    if d == 0 && m > 1 then 1 else 0
  }

  lemma LowestOther(t: Tour, d: nat, vc: Vc)
    requires d < |t.order| && vc.n == t.n && vc.me == t.order[d] && vc.dead == t.gone + {vc.me}
    ensures Coordinator(vc) == t.order[OtherLowest(|t.order|, d)]
  {
    var m := |t.order|;
    if m == 1 {
      forall x | 0 <= x < t.n ensures x in vc.dead {
        if x !in t.gone { assert x in t.order; }
      }
    } else {
      var c := OtherLowest(m, d);
      AtMember(t, c);
      DistinctPlaces(t, c, d);
      forall p | p in Alive(vc) ensures t.order[c] <= p {
        var j :| 0 <= j < m && t.order[j] == p;
        assert j > c ==> t.order[c] < t.order[j];
      }
      CoordinatorIsLowest(vc, t.order[c]);
    }
  }

  /**
   * Re-admission terminates: the rejoiner's Gather completes in fewer than 2m
   * hops on the grown ring, the Install dies after exactly m, and every member
   * has installed the view with the rejoiner live again.
   */
  lemma ReadmissionTerminates(t: Tour, vcs: seq<Vc>, view: nat, d: nat, report: Report, reports: nat -> Report)
    returns (plan: Plan)
    requires d < |t.order| && t.order[d] < t.n && AllAt(t, vcs, view, t.gone + {t.order[d]})
    requires Fits(t.n, report) && forall i :: Fits(t.n, reports(i))
    ensures var start, c := [Entry(t.order[d], report)], OtherLowest(|t.order|, d);
      && ComesToRest(t, Launch(t.n, vcs, t.order[d], OnRequestReadmit(vcs[t.order[d]], report)), reports,
                     ReadmitGather(view + 1, t.order[c], t.order[d], start), GatherHops(|t.order|, d, c), plan)
      && PlanResolves(t, d, start, reports, plan)
  {
    var p, c := t.order[d], OtherLowest(|t.order|, d);
    var e := OnRequestReadmit(vcs[p], report);
    AtMember(t, d);
    assert t.gone + {p} - {p} == t.gone;
    LowestOther(t, d, e.vc);
    var first := ReadmitGather(view + 1, t.order[c], p, [Entry(p, report)]);
    LaunchGathers(t, vcs, d, c, e, first, report);
    plan := RoundTerminates(t, Launch(t.n, vcs, p, e), d, c, first, reports);
    TourPlanResolves(t, d, c, first.reports, reports, plan);
  }
}
