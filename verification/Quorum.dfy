/** The quorum gate and the convocation are two traversals of one population; on consistent team records they
    agree (availability.py against deliberation.py). */
module Quorum {
  import opened Wrappers
  import opened Availability
  import opened Deliberation

  predicate DistinctTexts(s: seq<string>) {
    forall i, j :: 0 <= i < j < |s| ==> s[i] != s[j]
  }

  /** What the team store keeps: every team names a coordinator outside its members, and no live worker is listed
      by two teams. */
  ghost predicate ConsistentTeams(live: seq<Worker>, teams: seq<Team>) {
    && (forall i :: 0 <= i < |teams| ==> teams[i].coordinator != "" && DistinctTexts(Crew(teams[i])))
    && (forall i, j, id :: 0 <= i < j < |teams| && id in Crew(teams[i]) && id in Crew(teams[j]) ==> !IsLive(live, id))
  }

  function SumIf(ws: seq<Worker>, keep: Worker -> bool, hps: Hps): real {
    if ws == [] then 0.0
    else SumIf(ws[..|ws| - 1], keep, hps) + if keep(ws[|ws| - 1]) then HashrateOf(ws[|ws| - 1], hps) else 0.0
  }

  lemma {:induction false} SumOfFilter(ws: seq<Worker>, keep: Worker -> bool, hps: Hps)
    ensures TotalHashrate(Filter(ws, keep), hps) == SumIf(ws, keep, hps)
  {
    if ws != [] {
      SumOfFilter(ws[..|ws| - 1], keep, hps);
      var front := Filter(ws[..|ws| - 1], keep);
      assert (front + [ws[|ws| - 1]])[..|front|] == front;
    }
  }

  lemma {:induction false} SumSplits(ws: seq<Worker>, p: Worker -> bool, q: Worker -> bool, r: Worker -> bool, hps: Hps)
    requires forall w :: w in ws ==> (p(w) <==> q(w) || r(w)) && !(q(w) && r(w))
    ensures SumIf(ws, p, hps) == SumIf(ws, q, hps) + SumIf(ws, r, hps)
  {
    if ws != [] {
      assert ws[|ws| - 1] in ws;
      SumSplits(ws[..|ws| - 1], p, q, r, hps);
    }
  }

  lemma {:induction false} SumAgrees(ws: seq<Worker>, p: Worker -> bool, q: Worker -> bool, hps: Hps)
    requires forall w :: w in ws ==> (p(w) <==> q(w))
    ensures SumIf(ws, p, hps) == SumIf(ws, q, hps)
  {
    if ws != [] {
      assert ws[|ws| - 1] in ws;
      SumAgrees(ws[..|ws| - 1], p, q, hps);
    }
  }

  lemma {:induction false} SumOfNone(ws: seq<Worker>, p: Worker -> bool, hps: Hps)
    requires forall w :: w in ws ==> !p(w)
    ensures SumIf(ws, p, hps) == 0.0
  {
    if ws != [] {
      assert ws[|ws| - 1] in ws;
      SumOfNone(ws[..|ws| - 1], p, hps);
    }
  }

  lemma {:induction false} SumOfOne(ws: seq<Worker>, id: string, hps: Hps)
    requires DistinctIds(ws)
    ensures SumIf(ws, (w: Worker) => w.workerId == id, hps) == if IsLive(ws, id) then HashrateOf(ws[IndexOf(ws, id)], hps) else 0.0
  {
    var only := (w: Worker) => w.workerId == id;
    if IsLive(ws, id) {
      var i := IndexOf(ws, id);
      SumUpTo(ws, id, i, |ws|, hps);
      assert ws[..|ws|] == ws;
    } else {
      forall w | w in ws ensures !only(w) {
        var i :| 0 <= i < |ws| && ws[i] == w;
      }
      SumOfNone(ws, only, hps);
    }
  }

  lemma {:induction false} SumUpTo(ws: seq<Worker>, id: string, i: nat, n: nat, hps: Hps)
    requires DistinctIds(ws) && i < n <= |ws| && ws[i].workerId == id
    ensures SumIf(ws[..n], (w: Worker) => w.workerId == id, hps) == HashrateOf(ws[i], hps)
  {
    var only := (w: Worker) => w.workerId == id;
    assert ws[..n][..n - 1] == ws[..n - 1];
    if i == n - 1 {
      forall w | w in ws[..n - 1] ensures !only(w) {
        var k :| 0 <= k < n - 1 && ws[k] == w;
      }
      SumOfNone(ws[..n - 1], only, hps);
    } else {
      SumUpTo(ws, id, i, n - 1, hps);
    }
  }

  /** The power of a team is the power of the live workers it lists. */
  lemma {:induction false} CrewPower(live: seq<Worker>, crew: seq<string>, hps: Hps)
    requires DistinctIds(live) && DistinctTexts(crew)
    ensures TotalHashrate(Present(live, crew), hps) == SumIf(live, (w: Worker) => w.workerId in crew, hps)
  {
    var inCrew := (w: Worker) => w.workerId in crew;
    if crew == [] {
      SumOfNone(live, inCrew, hps);
    } else {
      var front, last := crew[..|crew| - 1], crew[|crew| - 1];
      assert crew == front + [last];
      CrewPower(live, front, hps);
      SumOfOne(live, last, hps);
      SumSplits(live, inCrew, (w: Worker) => w.workerId in front, (w: Worker) => w.workerId == last, hps);
      var p := Present(live, front);
      if IsLive(live, last) {
        assert (p + [live[IndexOf(live, last)]])[..|p|] == p;
      }
    }
  }

  lemma {:induction false} PresentIffLive(live: seq<Worker>, crew: seq<string>)
    requires DistinctIds(live)
    ensures Present(live, crew) != [] <==> exists i :: 0 <= i < |crew| && IsLive(live, crew[i])
  {
    if crew != [] {
      PresentIffLive(live, crew[..|crew| - 1]);
    }
  }

  // ---- teams ----

  function TotalPower(list: seq<Convocado>): real {
    if list == [] then 0.0 else TotalPower(list[..|list| - 1]) + list[|list| - 1].hashrate
  }

  lemma {:induction false} PowerAdds(a: seq<Convocado>, b: seq<Convocado>)
    ensures TotalPower(a + b) == TotalPower(a) + TotalPower(b)
  {
    if b != [] {
      PowerAdds(a, b[..|b| - 1]);
      assert (a + b)[..|a + b| - 1] == a + b[..|b| - 1];
    } else {
      assert a + b == a;
    }
  }

  lemma {:induction false} PowerOfInsert(c: Convocado, list: seq<Convocado>)
    ensures TotalPower(Insert(c, list, Precedes)) == TotalPower(list) + c.hashrate
  {
    assert TotalPower([c]) == c.hashrate;
    if list != [] {
      if Precedes(c, list[0]) {
        PowerAdds([c], list);
      } else {
        PowerOfInsert(c, list[1..]);
        PowerAdds([list[0]], Insert(c, list[1..], Precedes));
        PowerAdds([list[0]], list[1..]);
        assert list == [list[0]] + list[1..];
      }
    }
  }

  lemma {:induction false} PowerOfSorted(list: seq<Convocado>)
    ensures TotalPower(Sorted(list, Precedes)) == TotalPower(list)
  {
    if list != [] {
      PowerOfSorted(list[..|list| - 1]);
      PowerOfInsert(list[|list| - 1], Sorted(list[..|list| - 1], Precedes));
    }
  }

  predicate ByTeam(w: Worker, teams: seq<Team>, ch: Announcement) {
    var p := TeamPolicyOf(w.workerId, teams);
    p.Some? && PolicyConvokes(p.value, ch)
  }

  predicate ByItself(w: Worker, teams: seq<Team>, ch: Announcement) {
    TeamPolicyOf(w.workerId, teams).None? && Deliberates(w) && PolicyConvokes(StandalonePolicy(w), ch)
  }

  lemma {:induction false} ListedSomewhere(id: string, teams: seq<Team>)
    ensures TeamPolicyOf(id, teams).Some? <==> exists i :: 0 <= i < |teams| && id in Crew(teams[i])
  {
    if teams != [] {
      ListedSomewhere(id, teams[..|teams| - 1]);
    }
  }

  /** A worker of the last team is in no earlier one. */
  lemma LastTeamIsNew(live: seq<Worker>, teams: seq<Team>, w: Worker)
    requires teams != [] && ConsistentTeams(live, teams) && w in live && w.workerId in Crew(teams[|teams| - 1])
    ensures TeamPolicyOf(w.workerId, teams[..|teams| - 1]).None?
  {
    ListedSomewhere(w.workerId, teams[..|teams| - 1]);
    var k :| 0 <= k < |live| && live[k] == w;
    assert IsLive(live, w.workerId);
  }

  lemma FrontConsistent(live: seq<Worker>, teams: seq<Team>)
    requires teams != [] && ConsistentTeams(live, teams)
    ensures ConsistentTeams(live, teams[..|teams| - 1])
  {
  }

  /** The last team's share: its convoked live workers. */
  predicate OfTeam(w: Worker, t: Team, ch: Announcement) {
    w.workerId in Crew(t) && PolicyConvokes(TeamPolicy(t), ch)
  }

  lemma OneTeamPower(live: seq<Worker>, t: Team, ch: Announcement, hps: Hps)
    requires DistinctIds(live) && t.coordinator != "" && DistinctTexts(Crew(t))
    ensures TotalPower(OneOf(TeamVoter(live, t, ch, hps))) == SumIf(live, (w: Worker) => OfTeam(w, t, ch), hps)
  {
    var mine := (w: Worker) => OfTeam(w, t, ch);
    if PolicyConvokes(TeamPolicy(t), ch) {
      CrewPower(live, Crew(t), hps);
      SumAgrees(live, mine, (w: Worker) => w.workerId in Crew(t), hps);
    } else {
      SumOfNone(live, mine, hps);
    }
  }

  lemma {:induction false} TeamsPower(live: seq<Worker>, teams: seq<Team>, ch: Announcement, hps: Hps)
    requires DistinctIds(live) && ConsistentTeams(live, teams)
    ensures TotalPower(TeamVoters(live, teams, ch, hps)) == SumIf(live, (w: Worker) => ByTeam(w, teams, ch), hps)
  {
    var all := (w: Worker) => ByTeam(w, teams, ch);
    if teams == [] {
      SumOfNone(live, all, hps);
    } else {
      var front, t := teams[..|teams| - 1], teams[|teams| - 1];
      FrontConsistent(live, teams);
      TeamsPower(live, front, ch, hps);
      OneTeamPower(live, t, ch, hps);
      PowerAdds(TeamVoters(live, front, ch, hps), OneOf(TeamVoter(live, t, ch, hps)));
      forall w | w in live && w.workerId in Crew(t) ensures !ByTeam(w, front, ch) {
        LastTeamIsNew(live, teams, w);
      }
      SumSplits(live, all, (w: Worker) => ByTeam(w, front, ch), (w: Worker) => OfTeam(w, t, ch), hps);
    }
  }

  lemma {:induction false} LonersPower(some: seq<Worker>, teams: seq<Team>, ch: Announcement, hps: Hps)
    ensures TotalPower(LoneVoters(some, teams, ch, hps)) == SumIf(some, (w: Worker) => ByItself(w, teams, ch), hps)
  {
    if some != [] {
      var front, w := some[..|some| - 1], some[|some| - 1];
      LonersPower(front, teams, ch, hps);
      PowerAdds(LoneVoters(front, teams, ch, hps), OneOf(LoneVoter(w, teams, ch, hps)));
      assert TotalPower(OneOf(LoneVoter(w, teams, ch, hps))) == if ByItself(w, teams, ch) then HashrateOf(w, hps) else 0.0 by {
        if ByItself(w, teams, ch) {
          assert [LoneVoter(w, teams, ch, hps).value][..0] == [];
        }
      }
    }
  }

  /** The workers the quorum counts and the voters the deliberation convokes have the same total power. */
  lemma QuorumPowerIsConvokedPower(reports: seq<Worker>, teams: seq<Team>, ch: Announcement, hps: Hps)
    requires ConsistentTeams(Live(reports), teams)
    ensures TotalHashrate(EligibleOf(reports, teams, ch, true), hps) == TotalPower(ConvocadosOf(reports, teams, ch, hps))
  {
    var live, nch := Live(reports), Normalized(ch);
    var eligible := (w: Worker) => Eligible(w, teams, nch, true);
    SumOfFilter(live, eligible, hps);
    SumSplits(live, eligible, (w: Worker) => ByTeam(w, teams, nch), (w: Worker) => ByItself(w, teams, nch), hps);
    TeamsPower(live, teams, nch, hps);
    LonersPower(live, teams, nch, hps);
    PowerAdds(TeamVoters(live, teams, nch, hps), LoneVoters(live, teams, nch, hps));
    PowerOfSorted(Unsorted(live, teams, nch, hps));
  }

  // ---- emptiness ----

  lemma {:induction false} TeamVotersIff(live: seq<Worker>, teams: seq<Team>, ch: Announcement, hps: Hps)
    requires DistinctIds(live) && ConsistentTeams(live, teams)
    ensures TeamVoters(live, teams, ch, hps) != [] <==> exists w :: w in live && ByTeam(w, teams, ch)
  {
    if teams != [] {
      var front, t := teams[..|teams| - 1], teams[|teams| - 1];
      FrontConsistent(live, teams);
      TeamVotersIff(live, front, ch, hps);
      PresentIffLive(live, Crew(t));
      if TeamVoters(live, front, ch, hps) != [] {
        var w :| w in live && ByTeam(w, front, ch);
        if w.workerId in Crew(t) {
          LastTeamIsNew(live, teams, w);
        }
        assert ByTeam(w, teams, ch);
      }
      if TeamVoter(live, t, ch, hps).Some? {
        var i :| 0 <= i < |Crew(t)| && IsLive(live, Crew(t)[i]);
        var k :| 0 <= k < |live| && live[k].workerId == Crew(t)[i];
        assert ByTeam(live[k], teams, ch);
      }
      if w :| w in live && ByTeam(w, teams, ch) {
        if w.workerId in Crew(t) {
          var k :| 0 <= k < |live| && live[k] == w;
          assert IsLive(live, w.workerId);
          assert TeamVoter(live, t, ch, hps).Some?;
        } else {
          assert ByTeam(w, front, ch);
        }
      }
    }
  }

  lemma {:induction false} LoneVotersIff(some: seq<Worker>, teams: seq<Team>, ch: Announcement, hps: Hps)
    ensures LoneVoters(some, teams, ch, hps) != [] <==> exists w :: w in some && ByItself(w, teams, ch)
  {
    if some != [] {
      var front, w := some[..|some| - 1], some[|some| - 1];
      LoneVotersIff(front, teams, ch, hps);
      if u :| u in some && ByItself(u, teams, ch) {
        assert u in front || u == w;
      }
      if LoneVoter(w, teams, ch, hps).Some? {
        assert w in some && ByItself(w, teams, ch);
      }
      if u :| u in front && ByItself(u, teams, ch) {
        assert u in some;
      }
    }
  }

  lemma VotersIff(live: seq<Worker>, teams: seq<Team>, ch: Announcement, hps: Hps)
    requires DistinctIds(live) && ConsistentTeams(live, teams)
    ensures Unsorted(live, teams, ch, hps) != [] <==> exists w :: w in live && (ByTeam(w, teams, ch) || ByItself(w, teams, ch))
  {
    TeamVotersIff(live, teams, ch, hps);
    LoneVotersIff(live, teams, ch, hps);
  }

  /** A law has a quorum of at least one exactly when somebody would be convoked to decide on it. */
  lemma QuorumIffSomebodyDecides(reports: seq<Worker>, teams: seq<Team>, ch: Announcement, hps: Hps)
    requires ConsistentTeams(Live(reports), teams)
    ensures EligibleOf(reports, teams, ch, true) != [] <==> ConvocadosOf(reports, teams, ch, hps) != []
    ensures Assess(reports, teams, ch, 1, true, true).ok <==> ConvocadosOf(reports, teams, ch, hps) != []
  {
    hide Live, Unsorted, ByTeam, ByItself, Eligible, ConsistentTeams;
    var live, nch := Live(reports), Normalized(ch);
    var eligible, unsorted := EligibleOf(reports, teams, ch, true), Unsorted(live, teams, nch, hps);
    VotersIff(live, teams, nch, hps);
    forall w ensures Eligible(w, teams, nch, true) <==> ByTeam(w, teams, nch) || ByItself(w, teams, nch) {
      EligibleEitherWay(w, teams, nch);
    }
    if eligible != [] {
      assert eligible[0] in eligible;
    }
    if w :| w in live && (ByTeam(w, teams, nch) || ByItself(w, teams, nch)) {
      assert w in eligible;
    }
    assert |multiset(ConvocadosOf(reports, teams, ch, hps))| == |multiset(unsorted)|;
  }

  lemma EligibleEitherWay(w: Worker, teams: seq<Team>, ch: Announcement)
    ensures Eligible(w, teams, ch, true) <==> ByTeam(w, teams, ch) || ByItself(w, teams, ch)
  {
  }
}
