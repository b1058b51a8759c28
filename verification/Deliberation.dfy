/** Who is convoked to decide on a law, what freezes, and how the pause ends
    (common/blockchain/deliberation.py; searchers in common/blockchain/difficulty.py). */
module Deliberation {
  import opened Wrappers
  import opened Availability
  import Difficulty

  // ---- sorting by descending computing power ----

  function Insert<T>(x: T, sorted: seq<T>, before: (T, T) -> bool): (r: seq<T>)
    ensures multiset(r) == multiset(sorted) + multiset{x}
  {
    if sorted == [] then [x]
    else if before(x, sorted[0]) then [x] + sorted
    else
      assert sorted == [sorted[0]] + sorted[1..];
      [sorted[0]] + Insert(x, sorted[1..], before)
  }

  /** sorted(): stable, so equal elements keep their order. */
  function Sorted<T>(xs: seq<T>, before: (T, T) -> bool): (r: seq<T>)
    ensures multiset(r) == multiset(xs)
  {
    if xs == [] then []
    else
      assert xs == xs[..|xs| - 1] + [xs[|xs| - 1]];
      Insert(xs[|xs| - 1], Sorted(xs[..|xs| - 1], before), before)
  }

  // ---- searchers ----

  /** The crew of a team that is alive. */
  function Present(live: seq<Worker>, crew: seq<string>): seq<Worker>
    requires DistinctIds(live)
  {
    if crew == [] then []
    else if IsLive(live, crew[|crew| - 1]) then
      Present(live, crew[..|crew| - 1]) + [live[IndexOf(live, crew[|crew| - 1])]]
    else Present(live, crew[..|crew| - 1])
  }

  function TotalHashrate(ws: seq<Worker>, hps: Hps): real {
    if ws == [] then 0.0 else TotalHashrate(ws[..|ws| - 1], hps) + HashrateOf(ws[|ws| - 1], hps)
  }

  /** The independent searchers: a pool adds its members up, a standalone searches alone. */
  function Searchers(live: seq<Worker>, teams: seq<Team>, hps: Hps): seq<(string, real)>
    requires DistinctIds(live)
  {
    PoolSearchers(live, teams, hps) + LoneSearchers(live, live, teams, hps)
  }

  function PoolSearchers(live: seq<Worker>, teams: seq<Team>, hps: Hps): seq<(string, real)>
    requires DistinctIds(live)
  {
    if teams == [] then []
    else
      var t := teams[|teams| - 1];
      var present := Present(live, Crew(t));
      PoolSearchers(live, teams[..|teams| - 1], hps)
      + if present != [] then [("equipo:" + t.teamId, TotalHashrate(present, hps))] else []
  }

  function LoneSearchers(some: seq<Worker>, live: seq<Worker>, teams: seq<Team>, hps: Hps): seq<(string, real)> {
    if some == [] then []
    else
      var w := some[|some| - 1];
      LoneSearchers(some[..|some| - 1], live, teams, hps)
      + if TeamPolicyOf(w.workerId, teams).None? then [("standalone:" + w.workerId, HashrateOf(w, hps))] else []
  }

  /** effective_hashrate: the fastest independent searcher. */
  function EffectiveHashrate(reports: seq<Worker>, teams: seq<Team>, hps: Hps): real {
    var list := Sorted(Searchers(Live(reports), teams, hps), (a: (string, real), b: (string, real)) => a.1 > b.1);
    if list == [] then 0.0 else list[0].1
  }

  // ---- convoked voters ----

  datatype Convocado = Convocado(
    voterId: string, isTeam: bool, name: string, owner: string, hashrate: real, prevetoed: bool,
    teamId: string, defaultDecision: string)

  const ACCEPT: string := "accept"
  const REJECT: string := "reject"

  predicate IsDecision(s: string) {
    s == ACCEPT || s == REJECT
  }

  function NormalizeDecision(s: string): string {
    if IsDecision(s) then s else ""
  }

  function FirstOf(a: string, b: string, c: string): string {
    if a != "" then a else if b != "" then b else c
  }

  /** A team decides as one, if it has a coordinator, somebody alive, and the law concerns it. */
  function TeamVoter(live: seq<Worker>, t: Team, ch: Announcement, hps: Hps): Option<Convocado>
    requires DistinctIds(live)
  {
    var present := Present(live, Crew(t));
    if present == [] || t.coordinator == "" || !PolicyConvokes(TeamPolicy(t), ch) then None
    else Some(Convocado(t.coordinator, true, FirstOf(t.name, t.teamId, t.coordinator), t.owner,
                        TotalHashrate(present, hps), Prevetoed(TeamPolicy(t), ch.lawId), t.teamId,
                        NormalizeDecision(t.defaultDecision)))
  }

  function AsVoter(w: Worker, hps: Hps): Convocado {
    Convocado(w.workerId, false, w.workerId, w.owner, HashrateOf(w, hps), false, "", NormalizeDecision(w.defaultDecision))
  }

  /** A standalone outside every team decides alone. */
  function LoneVoter(w: Worker, teams: seq<Team>, ch: Announcement, hps: Hps): Option<Convocado> {
    if TeamPolicyOf(w.workerId, teams).Some? || !Deliberates(w) || !PolicyConvokes(StandalonePolicy(w), ch) then None
    else Some(AsVoter(w, hps))
  }

  function OneOf(c: Option<Convocado>): seq<Convocado> {
    if c.Some? then [c.value] else []
  }

  function TeamVoters(live: seq<Worker>, teams: seq<Team>, ch: Announcement, hps: Hps): seq<Convocado>
    requires DistinctIds(live)
  {
    if teams == [] then []
    else TeamVoters(live, teams[..|teams| - 1], ch, hps) + OneOf(TeamVoter(live, teams[|teams| - 1], ch, hps))
  }

  function LoneVoters(some: seq<Worker>, teams: seq<Team>, ch: Announcement, hps: Hps): seq<Convocado> {
    if some == [] then []
    else LoneVoters(some[..|some| - 1], teams, ch, hps) + OneOf(LoneVoter(some[|some| - 1], teams, ch, hps))
  }

  /** Lexicographic order on ids, which breaks ties. */
  predicate TextLess(a: string, b: string) {
    b != "" && (a == "" || a[0] < b[0] || (a[0] == b[0] && TextLess(a[1..], b[1..])))
  }

  predicate Precedes(a: Convocado, b: Convocado) {
    a.hashrate > b.hashrate || (a.hashrate == b.hashrate && TextLess(a.voterId, b.voterId))
  }

  function Unsorted(live: seq<Worker>, teams: seq<Team>, ch: Announcement, hps: Hps): seq<Convocado>
    requires DistinctIds(live)
  {
    TeamVoters(live, teams, ch, hps) + LoneVoters(live, teams, ch, hps)
  }

  /** convocados on values. */
  function ConvocadosOf(reports: seq<Worker>, teams: seq<Team>, ch: Announcement, hps: Hps): seq<Convocado> {
    Sorted(Unsorted(Live(reports), teams, Normalized(ch), hps), Precedes)
  }

  /** The first loop of convocados: the voters of the teams, and everybody alive who is in a team. */
  method ConvokedTeams(live: seq<Worker>, teams: seq<Team>, ch: Announcement, hps: Hps)
    returns (found: seq<Convocado>, inTeam: set<string>)
    requires DistinctIds(live)
    ensures found == TeamVoters(live, teams, ch, hps)
    ensures forall id :: id in inTeam <==> IsLive(live, id) && TeamPolicyOf(id, teams).Some?
  {
    hide TeamVoter, IsLive, TeamPolicy;
    found, inTeam := [], {};
    for i := 0 to |teams|
      invariant found == TeamVoters(live, teams[..i], ch, hps)
      invariant forall id :: id in inTeam <==> IsLive(live, id) && TeamPolicyOf(id, teams[..i]).Some?
    {
      var crew := Crew(teams[i]);
      inTeam := inTeam + set id | id in crew && IsLive(live, id);
      assert teams[..i + 1][..i] == teams[..i];
      found := found + OneOf(TeamVoter(live, teams[i], ch, hps));
    }
    assert teams[..|teams|] == teams;
  }

  /** convocados: one voter per convoked team, then one per convoked standalone, biggest first. */
  method Convocados(reports: seq<Worker>, teams: seq<Team>, challenge: Announcement, hps: Hps)
    returns (list: seq<Convocado>)
    ensures list == ConvocadosOf(reports, teams, challenge, hps)
  {
    hide Live, Normalized, PolicyConvokes, TeamVoters, AsVoter, IsLive, Sorted, TeamPolicyOf;
    var ch := Normalized(challenge);
    var live := Live(reports);
    var voters, inTeam := ConvokedTeams(live, teams, ch, hps);
    var loners: seq<Convocado> := [];
    for i := 0 to |live|
      invariant loners == LoneVoters(live[..i], teams, ch, hps)
    {
      var w := live[i];
      assert live[..i + 1][..i] == live[..i];
      LiveAt(live, i);
      if w.workerId !in inTeam && Deliberates(w) && PolicyConvokes(StandalonePolicy(w), ch) {
        loners := loners + [AsVoter(w, hps)];
      }
    }
    assert live[..|live|] == live;
    list := Sorted(voters + loners, Precedes);
  }

  /** biggest */
  function Biggest(list: seq<Convocado>): (b: real)
    ensures list == [] ==> b == 0.0
    ensures list != [] ==> exists c :: c in list && c.hashrate == b
    ensures forall c :: c in list ==> c.hashrate <= b
  {
    if list == [] then 0.0
    else if |list| == 1 then list[0].hashrate
    else
      var rest := Biggest(list[1..]);
      if list[0].hashrate > rest then list[0].hashrate else rest
  }

  // ---- the answers ----

  /** The answer of v that counts: the one given in the pause, else the default. */
  function Effective(v: string, decisions: map<string, string>, defaults: map<string, string>): Option<string> {
    if v in decisions && IsDecision(decisions[v]) then Some(decisions[v])
    else if v in defaults && IsDecision(defaults[v]) then Some(defaults[v])
    else None
  }

  /** effective_decisions: first the answers given, then the defaults for the rest. */
  method EffectiveDecisions(voters: seq<string>, decisions: map<string, string>, defaults: map<string, string>)
    returns (effective: map<string, string>)
    ensures forall v :: v in effective <==> v in voters && Effective(v, decisions, defaults).Some?
    ensures forall v :: v in effective ==> Effective(v, decisions, defaults) == Some(effective[v])
  {
    effective := map v | v in voters && v in decisions && IsDecision(decisions[v]) :: decisions[v];
    for i := 0 to |voters|
      invariant forall v :: v in effective ==> v in voters && Effective(v, decisions, defaults) == Some(effective[v])
      invariant forall v :: v in voters && v in decisions && IsDecision(decisions[v]) ==> v in effective
      invariant forall k :: 0 <= k < i && Effective(voters[k], decisions, defaults).Some? ==> voters[k] in effective
    {
      var v := voters[i];
      if v !in effective && v in defaults && IsDecision(defaults[v]) {
        effective := effective[v := defaults[v]];
      }
    }
  }

  datatype Outcome = Open | Discard | Requeue | Unanswered

  function Accepting(voters: seq<string>, decisions: map<string, string>, defaults: map<string, string>): (r: seq<string>)
    ensures forall v :: v in r <==> v in voters && Effective(v, decisions, defaults) == Some(ACCEPT)
  {
    if voters == [] then []
    else if Effective(voters[0], decisions, defaults) == Some(ACCEPT) then
      [voters[0]] + Accepting(voters[1..], decisions, defaults)
    else Accepting(voters[1..], decisions, defaults)
  }

  predicate SomeReject(voters: seq<string>, decisions: map<string, string>, defaults: map<string, string>) {
    exists v :: v in voters && Effective(v, decisions, defaults) == Some(REJECT)
  }

  /** resolve: the outcome and who mines. */
  function Resolve(voters: seq<string>, decisions: map<string, string>, defaults: map<string, string>): (Outcome, seq<string>) {
    var accepted := Accepting(voters, decisions, defaults);
    if accepted != [] then (Open, accepted)
    else if SomeReject(voters, decisions, defaults) then (Discard, [])
    else (Requeue, [])
  }

  /** all_answered */
  predicate AllAnswered(voters: seq<string>, decisions: map<string, string>) {
    voters != [] && forall v :: v in voters ==> v in decisions && IsDecision(decisions[v])
  }

  /** participates */
  predicate Participates(participants: Option<seq<string>>, voterId: string) {
    participants.Some? ==> voterId in participants.value
  }

  /** Turning one answer into "accept" never closes an open outcome, drops no participant, and adds nobody but
      the one who changed. */
  lemma AcceptingMoreIsMonotone(voters: seq<string>, decisions: map<string, string>, defaults: map<string, string>, v: string)
    ensures var before, after := Resolve(voters, decisions, defaults), Resolve(voters, decisions[v := ACCEPT], defaults);
      && (before.0 == Open || v in voters ==> after.0 == Open)
      && (v !in voters ==> after == before) && (v in voters ==> v in after.1)
      && (forall u :: u in before.1 ==> u in after.1)
      && (forall u :: u in after.1 ==> u in before.1 || u == v)
  {
    var changed := decisions[v := ACCEPT];
    forall u | u != v ensures Effective(u, changed, defaults) == Effective(u, decisions, defaults) {
    }
    if v in voters {
      assert v in Accepting(voters, changed, defaults);
    } else {
      SameAnswers(voters, decisions, changed, defaults, defaults);
    }
  }

  /** The outcome only depends on the answers of the voters. */
  lemma {:induction false} SameAnswers(voters: seq<string>, d1: map<string, string>, d2: map<string, string>,
                    f1: map<string, string>, f2: map<string, string>)
    requires forall v :: v in voters ==> Effective(v, d1, f1) == Effective(v, d2, f2)
    ensures Accepting(voters, d1, f1) == Accepting(voters, d2, f2)
    ensures Resolve(voters, d1, f1) == Resolve(voters, d2, f2)
  {
    if voters != [] {
      SameAnswers(voters[1..], d1, d2, f1, f2);
    }
  }

  /** Ending the pause early is safe: once everybody has answered, no default matters and the law is judged. */
  lemma EarlyEndIsFinal(voters: seq<string>, decisions: map<string, string>, f1: map<string, string>, f2: map<string, string>)
    requires AllAnswered(voters, decisions)
    ensures Resolve(voters, decisions, f1) == Resolve(voters, decisions, f2)
    ensures Resolve(voters, decisions, f1).0 == Open || Resolve(voters, decisions, f1).0 == Discard
  {
    SameAnswers(voters, decisions, decisions, f1, f2);
    assert voters[0] in voters;
  }

  // ---- the biggest voter against the fastest searcher ----

  lemma {:induction false} TeamVoterIsSearcher(live: seq<Worker>, teams: seq<Team>, ch: Announcement, hps: Hps, c: Convocado)
    requires DistinctIds(live) && c in TeamVoters(live, teams, ch, hps)
    ensures exists s :: s in PoolSearchers(live, teams, hps) && s.1 == c.hashrate
  {
    var t := teams[|teams| - 1];
    var front := teams[..|teams| - 1];
    if c in TeamVoters(live, front, ch, hps) {
      TeamVoterIsSearcher(live, front, ch, hps, c);
      var s :| s in PoolSearchers(live, front, hps) && s.1 == c.hashrate;
      assert s in PoolSearchers(live, teams, hps);
    } else {
      var s := ("equipo:" + t.teamId, TotalHashrate(Present(live, Crew(t)), hps));
      assert s in PoolSearchers(live, teams, hps);
    }
  }

  lemma {:induction false} LoneVoterIsSearcher(some: seq<Worker>, live: seq<Worker>, teams: seq<Team>, ch: Announcement, hps: Hps, c: Convocado)
    requires c in LoneVoters(some, teams, ch, hps)
    ensures exists s :: s in LoneSearchers(some, live, teams, hps) && s.1 == c.hashrate
  {
    var w := some[|some| - 1];
    var front := some[..|some| - 1];
    if c in LoneVoters(front, teams, ch, hps) {
      LoneVoterIsSearcher(front, live, teams, ch, hps, c);
      var s :| s in LoneSearchers(front, live, teams, hps) && s.1 == c.hashrate;
      assert s in LoneSearchers(some, live, teams, hps);
    } else {
      var s := ("standalone:" + w.workerId, HashrateOf(w, hps));
      assert s in LoneSearchers(some, live, teams, hps);
    }
  }

  lemma {:induction false} InsertKeepsMaxFirst(x: (string, real), sorted: seq<(string, real)>, before: ((string, real), (string, real)) -> bool)
    requires forall a, b :: before(a, b) <==> a.1 > b.1
    requires sorted != [] ==> forall s :: s in sorted ==> s.1 <= sorted[0].1
    ensures var r := Insert(x, sorted, before); r != [] && forall s :: s in r ==> s.1 <= r[0].1
  {
    var r := Insert(x, sorted, before);
    assert |r| > 0;
    forall s | s in r ensures s.1 <= r[0].1 {
      assert s in multiset(r);
      assert s in multiset(sorted) || s == x;
    }
  }

  lemma {:induction false} SortedHasMaxFirst(xs: seq<(string, real)>, before: ((string, real), (string, real)) -> bool)
    requires forall a, b :: before(a, b) <==> a.1 > b.1
    ensures var r := Sorted(xs, before); r != [] ==> forall s :: s in r ==> s.1 <= r[0].1
  {
    if xs != [] {
      SortedHasMaxFirst(xs[..|xs| - 1], before);
      InsertKeepsMaxFirst(xs[|xs| - 1], Sorted(xs[..|xs| - 1], before), before);
    }
  }

  /** No searcher is faster than effective_hashrate says. */
  lemma FastestBoundsAll(reports: seq<Worker>, teams: seq<Team>, hps: Hps, s: (string, real))
    requires s in Searchers(Live(reports), teams, hps)
    ensures s.1 <= EffectiveHashrate(reports, teams, hps)
  {
    var before := (a: (string, real), b: (string, real)) => a.1 > b.1;
    var all := Searchers(Live(reports), teams, hps);
    SortedHasMaxFirst(all, before);
    assert s in multiset(all);
    assert s in multiset(Sorted(all, before));
  }

  lemma VoterIsSearcher(live: seq<Worker>, teams: seq<Team>, ch: Announcement, hps: Hps, c: Convocado)
    returns (s: (string, real))
    requires DistinctIds(live) && c in Unsorted(live, teams, ch, hps)
    ensures s in Searchers(live, teams, hps) && s.1 == c.hashrate
  {
    if c in TeamVoters(live, teams, ch, hps) {
      TeamVoterIsSearcher(live, teams, ch, hps, c);
      s :| s in PoolSearchers(live, teams, hps) && s.1 == c.hashrate;
    } else {
      LoneVoterIsSearcher(live, live, teams, ch, hps, c);
      s :| s in LoneSearchers(live, live, teams, hps) && s.1 == c.hashrate;
    }
  }

  lemma {:induction false} TotalNonNegative(ws: seq<Worker>, hps: Hps)
    requires hps.cpu >= 0.0 && hps.gpu >= 0.0
    ensures TotalHashrate(ws, hps) >= 0.0
  {
    if ws != [] {
      TotalNonNegative(ws[..|ws| - 1], hps);
      HashrateNonNegative(ws[|ws| - 1], hps);
    }
  }

  lemma {:induction false} SearchersNonNegative(live: seq<Worker>, some: seq<Worker>, teams: seq<Team>, hps: Hps)
    requires DistinctIds(live) && hps.cpu >= 0.0 && hps.gpu >= 0.0
    ensures forall s :: s in PoolSearchers(live, teams, hps) + LoneSearchers(some, live, teams, hps) ==> s.1 >= 0.0
    decreases |teams| + |some|
  {
    if teams != [] {
      var front := teams[..|teams| - 1];
      SearchersNonNegative(live, [], front, hps);
      TotalNonNegative(Present(live, Crew(teams[|teams| - 1])), hps);
      assert forall s :: s in PoolSearchers(live, front, hps) ==> s in PoolSearchers(live, front, hps) + LoneSearchers([], live, front, hps);
    }
    LoneNonNegative(some, live, teams, hps);
  }

  lemma {:induction false} LoneNonNegative(some: seq<Worker>, live: seq<Worker>, teams: seq<Team>, hps: Hps)
    requires hps.cpu >= 0.0 && hps.gpu >= 0.0
    ensures forall s :: s in LoneSearchers(some, live, teams, hps) ==> s.1 >= 0.0
  {
    if some != [] {
      LoneNonNegative(some[..|some| - 1], live, teams, hps);
      HashrateNonNegative(some[|some| - 1], hps);
    }
  }

  lemma EffectiveNonNegative(reports: seq<Worker>, teams: seq<Team>, hps: Hps)
    requires hps.cpu >= 0.0 && hps.gpu >= 0.0
    ensures EffectiveHashrate(reports, teams, hps) >= 0.0
  {
    var before := (a: (string, real), b: (string, real)) => a.1 > b.1;
    var live := Live(reports);
    var all := Searchers(live, teams, hps);
    SearchersNonNegative(live, live, teams, hps);
    var list := Sorted(all, before);
    if list != [] {
      assert list[0] in multiset(list);
      assert list[0] in multiset(all);
    }
  }

  /** The difficulty frozen on the biggest convoked voter is never above what the fastest searcher of the whole
      network would justify. */
  lemma BiggestIsASearcher(reports: seq<Worker>, teams: seq<Team>, ch: Announcement, hps: Hps)
    requires hps.cpu >= 0.0 && hps.gpu >= 0.0
    ensures Biggest(ConvocadosOf(reports, teams, ch, hps)) <= EffectiveHashrate(reports, teams, hps)
  {
    hide EffectiveHashrate, Unsorted;
    EffectiveNonNegative(reports, teams, hps);
    var list := ConvocadosOf(reports, teams, ch, hps);
    if list != [] {
      var c :| c in list && c.hashrate == Biggest(list);
      assert c in multiset(list);
      assert c in multiset(Unsorted(Live(reports), teams, Normalized(ch), hps));
      var s := VoterIsSearcher(Live(reports), teams, Normalized(ch), hps, c);
      FastestBoundsAll(reports, teams, hps, s);
    }
  }
}
