/** Whose law goes next: round-robin, turn quota and quorum filter (common/queue.py). */
module Turns {
  import opened Wrappers
  import opened Laws
  import Difficulty

  /** How many past authors push_window_author keeps. */
  const KEEP: nat := 64

  datatype Quota = Quota(maxShare: real, sample: int)

  /** authors_over_quota */
  function AuthorsOverQuota(recent: seq<string>, q: Quota): set<string> {
    if |recent| < q.sample || q.sample <= 0 then {}
    else
      var window := recent[..q.sample];
      set a | a in window && a != "" && multiset(window)[a] as real / |window| as real > q.maxShare
  }

  /** The laws that have miners today, oldest first. */
  function Openable(pending: seq<Law>, canOpen: Law -> bool): (r: seq<Law>)
    ensures forall law :: law in r <==> law in pending && canOpen(law)
  {
    if pending == [] then []
    else if canOpen(pending[0]) then [pending[0]] + Openable(pending[1..], canOpen)
    else Openable(pending[1..], canOpen)
  }

  predicate Fair(law: Law, last: Option<string>, over: set<string>) {
    Some(TurnHolder(law)) != last && TurnHolder(law) !in over
  }

  /** The first law by somebody other than last and within quota. */
  function FirstFair(laws: seq<Law>, last: Option<string>, over: set<string>): (r: Option<Law>)
    ensures r.Some? ==> r.value in laws && Fair(r.value, last, over)
    ensures r.None? ==> forall law :: law in laws ==> !Fair(law, last, over)
  {
    if laws == [] then None
    else if Fair(laws[0], last, over) then Some(laws[0])
    else FirstFair(laws[1..], last, over)
  }

  /** select_next_law: the oldest law that is fair; failing that the quota yields before the round-robin, and
      at last the oldest law goes. */
  function SelectNextLaw(pending: seq<Law>, last: Option<string>, recent: seq<string>, q: Quota,
                         canOpen: Law -> bool): (r: Option<Law>)
    ensures r.Some? ==> r.value in pending && canOpen(r.value)
    ensures r.None? <==> forall law :: law in pending ==> !canOpen(law)
  {
    var laws := Openable(pending, canOpen);
    if laws == [] then
      assert forall law :: law in pending ==> !(canOpen(law) && law !in laws);
      None
    else
      assert laws[0] in pending && canOpen(laws[0]);
      var first := FirstFair(laws, last, AuthorsOverQuota(recent, q));
      if first.Some? then first
      else
        var second := if last.Some? then FirstFair(laws, last, {}) else None;
        if second.Some? then second else Some(laws[0])
  }

  // ---- the history a turn leaves ----

  /** nct:last_author and nct:window_authors, most recent first. */
  datatype History = History(last: Option<string>, authors: seq<string>)

  /** recent_window_authors */
  function Recent(authors: seq<string>, count: int): seq<string> {
    if count <= 0 then [] else if |authors| <= count then authors else authors[..count]
  }

  /** push_window_author */
  function Push(authors: seq<string>, author: string): seq<string> {
    if author == "" then authors
    else if |authors| < KEEP then [author] + authors
    else ([author] + authors)[..KEEP]
  }

  function Charge(h: History, law: Law): History {
    History(Some(TurnHolder(law)), Push(h.authors, TurnHolder(law)))
  }

  /** The queue and the network as the leader finds them at one turn. */
  datatype Offer = Offer(pending: seq<Law>, canOpen: Law -> bool)

  function Heads(o: Offer): seq<Law> {
    Openable(o.pending, o.canOpen)
  }

  function Choice(h: History, o: Offer, q: Quota): Option<Law> {
    SelectNextLaw(o.pending, h.last, Recent(h.authors, q.sample), q, o.canOpen)
  }

  function AfterTurn(h: History, o: Offer, q: Quota): History {
    var c := Choice(h, o, q);
    if c.Some? then Charge(h, c.value) else h
  }

  /** History before turn i. */
  function HistoryAt(h: History, offers: seq<Offer>, q: Quota, i: nat): History
    requires i <= |offers|
  {
    if i == 0 then h else AfterTurn(HistoryAt(h, offers, q, i - 1), offers[i - 1], q)
  }

  function ChoiceAt(h: History, offers: seq<Offer>, q: Quota, i: nat): Option<Law>
    requires i < |offers|
  {
    Choice(HistoryAt(h, offers, q, i), offers[i], q)
  }

  /** The longest an author can stay over quota without being served, and one turn more. */
  function WaitBound(q: Quota): (b: nat)
    ensures b >= 2
  {
    var k := Difficulty.Ceil(q.sample as real * (1.0 - q.maxShare));
    (if k > 1 then k else 1) + 1
  }

  /** With the constants of the system (a sample of ten, half of it for one author) the bound is six turns. */
  lemma DefaultWaitBound()
    ensures WaitBound(Quota(0.5, 10)) == 6
  {
    assert 10.0 * (1.0 - 0.5) == 5.0;
  }

  /** At the head of the openable laws one only loses the turn to another author, and only while being the
      last author served or over quota. */
  lemma HeadLosesOnlyToOthers(h: History, o: Offer, q: Quota)
    requires Heads(o) != []
    ensures var head := Heads(o)[0];
      Choice(h, o, q).Some? && (Choice(h, o, q).value == head
        || (&& TurnHolder(Choice(h, o, q).value) != TurnHolder(head)
            && (h.last == Some(TurnHolder(head)) || TurnHolder(head) in AuthorsOverQuota(Recent(h.authors, q.sample), q))))
  {
    assert Heads(o)[0] in Heads(o);
  }

  /** The head of the openable laws goes when it is fair. */
  lemma FairHeadIsChosen(h: History, o: Offer, q: Quota, law: Law)
    requires Leads(o, law)
    requires h.last != Some(TurnHolder(law))
    requires TurnHolder(law) !in AuthorsOverQuota(Recent(h.authors, q.sample), q)
    ensures Choice(h, o, q) == Some(law)
  {
  }

  predicate Named(laws: seq<Law>) {
    forall l :: l in laws ==> TurnHolder(l) != ""
  }

  /** law is the oldest openable law of the offer, and every queued law has somebody to charge. */
  ghost predicate Leads(o: Offer, law: Law) {
    Heads(o) != [] && Heads(o)[0] == law && Named(o.pending)
  }

  /** The author a does not occur among the k most recent authors. */
  predicate Unserved(authors: seq<string>, a: string, k: nat) {
    forall i :: 0 <= i < k && i < |authors| ==> authors[i] != a
  }

  lemma CountAfterPrefix(s: seq<string>, a: string, k: nat)
    requires k <= |s| && Unserved(s, a, k)
    ensures multiset(s)[a] <= |s| - k
  {
    assert s == s[..k] + s[k..];
    assert a !in s[..k];
    assert multiset(s) == multiset(s[..k]) + multiset(s[k..]);
    assert |multiset(s[k..])| == |s| - k;
    assert multiset(s[k..])[a] <= |multiset(s[k..])| by {
      CountAtMostSize(multiset(s[k..]), a);
    }
  }

  lemma CountAtMostSize(m: multiset<string>, a: string)
    ensures m[a] <= |m|
  {
    var only := multiset{}[a := m[a]];
    assert only <= m;
    assert |m| == |only| + |m - only|;
    assert |only| == m[a];
  }

  /** The arithmetic of the bound: with k of the sample taken by others, the share is within the quota. */
  lemma ShareFades(count: nat, k: nat, q: Quota)
    requires q.sample > 0 && count <= q.sample - k && k + 1 >= WaitBound(q)
    ensures count as real / q.sample as real <= q.maxShare
  {
    var total := q.sample as real;
    assert k as real >= total * (1.0 - q.maxShare);
    assert total * (1.0 - q.maxShare) == total - q.maxShare * total;
    ScaleDown(count as real, q.maxShare, total);
  }

  lemma ScaleDown(x: real, y: real, c: real)
    requires x <= y * c && c > 0.0
    ensures x / c <= y
  {
    assert (x / c) * c == x;
  }

  /** After enough turns that went to others, nobody is over quota. */
  lemma QuotaFades(authors: seq<string>, a: string, k: nat, q: Quota)
    requires Unserved(authors, a, k) && k + 1 >= WaitBound(q)
    ensures a !in AuthorsOverQuota(Recent(authors, q.sample), q)
  {
    var recent := Recent(authors, q.sample);
    if |recent| >= q.sample > 0 {
      assert recent[..q.sample] == recent;
      if k < q.sample {
        CountAfterPrefix(recent, a, k);
        ShareFades(multiset(recent)[a], k, q);
      } else {
        assert a !in recent;
      }
    }
  }

  lemma PassedOverOnce(h: History, o: Offer, q: Quota, law: Law, k: nat)
    requires Leads(o, law) && Choice(h, o, q) != Some(law)
    requires Unserved(h.authors, TurnHolder(law), k)
    ensures var now := AfterTurn(h, o, q);
      Unserved(now.authors, TurnHolder(law), k + 1) && now.last.Some? && now.last != Some(TurnHolder(law))
  {
    HeadLosesOnlyToOthers(h, o, q);
    var chosen := Choice(h, o, q).value;
    assert chosen in o.pending;
    var now := AfterTurn(h, o, q);
    assert now == Charge(h, chosen);
    forall i | 0 <= i < k + 1 && i < |now.authors| ensures now.authors[i] != TurnHolder(law) {
      if i > 0 {
        assert now.authors[i] == h.authors[i - 1];
      }
    }
  }

  /** While the head of the queue is passed over, its author is pushed back through the history. */
  lemma {:induction false} PassedOver(h: History, offers: seq<Offer>, q: Quota, law: Law, k: nat)
    requires k <= |offers|
    requires forall i :: 0 <= i < k ==> Leads(offers[i], law)
    requires forall i :: 0 <= i < k ==> ChoiceAt(h, offers, q, i) != Some(law)
    ensures var now := HistoryAt(h, offers, q, k);
      && Unserved(now.authors, TurnHolder(law), k)
      && (k > 0 ==> now.last.Some? && now.last != Some(TurnHolder(law)))
  {
    hide Choice;
    if k > 0 {
      PassedOver(h, offers, q, law, k - 1);
      assert ChoiceAt(h, offers, q, k - 1) != Some(law);
      PassedOverOnce(HistoryAt(h, offers, q, k - 1), offers[k - 1], q, law, k - 1);
    }
  }

  /** law gets one of the first n turns. */
  ghost predicate ServedWithin(h: History, offers: seq<Offer>, q: Quota, law: Law, n: nat)
    requires n <= |offers|
  {
    exists i :: 0 <= i < n && ChoiceAt(h, offers, q, i) == Some(law)
  }

  /** Bounded waiting: a law that stays the oldest openable one is chosen within WaitBound turns, whatever the
      others propose and whatever the history was. */
  lemma OldestIsServed(h: History, offers: seq<Offer>, q: Quota, law: Law)
    requires |offers| >= WaitBound(q)
    requires forall i :: 0 <= i < WaitBound(q) ==> Leads(offers[i], law)
    ensures ServedWithin(h, offers, q, law, WaitBound(q))
  {
    hide Choice;
    var b := WaitBound(q);
    if !ServedWithin(h, offers, q, law, b - 1) {
      PassedOver(h, offers, q, law, b - 1);
      LastTurnIsHis(h, offers, q, law, b - 1);
    }
  }

  lemma LastTurnIsHis(h: History, offers: seq<Offer>, q: Quota, law: Law, k: nat)
    requires k < |offers| && Leads(offers[k], law) && k + 1 >= WaitBound(q)
    requires Unserved(HistoryAt(h, offers, q, k).authors, TurnHolder(law), k)
    requires HistoryAt(h, offers, q, k).last != Some(TurnHolder(law))
    ensures ChoiceAt(h, offers, q, k) == Some(law)
  {
    var now := HistoryAt(h, offers, q, k);
    QuotaFades(now.authors, TurnHolder(law), k, q);
    FairHeadIsChosen(now, offers[k], q, law);
  }

  // ---- waiting from any position ----

  /** The laws before the first occurrence of law. */
  function Ahead(laws: seq<Law>, law: Law): (r: seq<Law>)
    requires law in laws
    ensures |r| < |laws| && r <= laws && laws[|r|] == law && law !in r
  {
    if laws[0] == law then [] else [laws[0]] + Ahead(laws[1..], law)
  }

  function Without(laws: seq<Law>, gone: set<Law>): (r: seq<Law>)
    ensures |r| <= |laws|
    ensures (exists l :: l in laws && l in gone) ==> |r| < |laws|
  {
    if laws == [] then []
    else if laws[0] in gone then Without(laws[1..], gone)
    else [laws[0]] + Without(laws[1..], gone)
  }

  /** The laws ahead of law in an offer that contains it. */
  function AheadIn(o: Offer, law: Law): seq<Law> {
    if law in Heads(o) then Ahead(Heads(o), law) else []
  }

  /** From turn to turn the laws ahead of law only leave (served, or no longer openable), and a served one does
      leave. New laws join behind. */
  ghost predicate QueueMovesUp(h: History, offers: seq<Offer>, gone: seq<set<Law>>, q: Quota, law: Law) {
    && |gone| == |offers|
    && (forall i :: 0 <= i < |offers| ==> law in Heads(offers[i]) && Named(offers[i].pending))
    && (forall i :: 0 <= i < |offers| ==> Leaves(ChoiceAt(h, offers, q, i), gone[i]))
    && (forall i :: 0 < i < |offers| ==> AheadIn(offers[i], law) == Without(AheadIn(offers[i - 1], law), gone[i - 1]))
  }

  predicate Leaves(choice: Option<Law>, gone: set<Law>) {
    choice.Some? ==> choice.value in gone
  }

  lemma {:induction false} HistorySplits(h: History, offers: seq<Offer>, q: Quota, n: nat, i: nat)
    requires n + i <= |offers|
    ensures HistoryAt(HistoryAt(h, offers, q, n), offers[n..], q, i) == HistoryAt(h, offers, q, n + i)
  {
    hide Choice;
    if i > 0 {
      HistorySplits(h, offers, q, n, i - 1);
      assert offers[n..][i - 1] == offers[n + i - 1];
    }
  }

  lemma ChoiceSplits(h: History, offers: seq<Offer>, q: Quota, n: nat, i: nat)
    requires n + i < |offers|
    ensures ChoiceAt(HistoryAt(h, offers, q, n), offers[n..], q, i) == ChoiceAt(h, offers, q, n + i)
  {
    hide Choice;
    HistorySplits(h, offers, q, n, i);
  }

  lemma MovesUpLater(h: History, offers: seq<Offer>, gone: seq<set<Law>>, q: Quota, law: Law, n: nat)
    requires QueueMovesUp(h, offers, gone, q, law) && n <= |offers|
    ensures QueueMovesUp(HistoryAt(h, offers, q, n), offers[n..], gone[n..], q, law)
  {
    hide Choice;
    var h' := HistoryAt(h, offers, q, n);
    forall i | 0 <= i < |offers| - n ensures Leaves(ChoiceAt(h', offers[n..], q, i), gone[n..][i]) {
      ChoiceSplits(h, offers, q, n, i);
      assert gone[n..][i] == gone[n + i];
    }
    forall i | 0 < i < |offers| - n
      ensures AheadIn(offers[n..][i], law) == Without(AheadIn(offers[n..][i - 1], law), gone[n..][i - 1])
    {
      assert offers[n..][i] == offers[n + i] && offers[n..][i - 1] == offers[n + i - 1];
      assert gone[n..][i - 1] == gone[n + i - 1];
    }
  }

  /** While the law in front is not among the leavers it stays in front. */
  lemma {:induction false} FrontStays(h: History, offers: seq<Offer>, gone: seq<set<Law>>, q: Quota, law: Law, k: nat)
    requires QueueMovesUp(h, offers, gone, q, law) && k < |offers|
    requires AheadIn(offers[0], law) != []
    requires forall i :: 0 <= i < k ==> AheadIn(offers[0], law)[0] !in gone[i]
    ensures AheadIn(offers[k], law) != [] && AheadIn(offers[k], law)[0] == AheadIn(offers[0], law)[0]
    ensures |AheadIn(offers[k], law)| <= |AheadIn(offers[0], law)|
    ensures Leads(offers[k], AheadIn(offers[0], law)[0])
  {
    hide Choice, ChoiceAt, Without, AheadIn, Heads, Leads;
    if k > 0 {
      FrontStays(h, offers, gone, q, law, k - 1);
      assert AheadIn(offers[k], law) == Without(AheadIn(offers[k - 1], law), gone[k - 1]);
      FrontKept(AheadIn(offers[k - 1], law), gone[k - 1]);
    }
    FrontLeads(offers[k], law);
  }

  lemma FrontKept(laws: seq<Law>, gone: set<Law>)
    requires laws != [] && laws[0] !in gone
    ensures Without(laws, gone) != [] && Without(laws, gone)[0] == laws[0]
  {
  }

  lemma FrontLeads(o: Offer, law: Law)
    requires AheadIn(o, law) != [] && Named(o.pending)
    ensures Leads(o, AheadIn(o, law)[0])
  {
    assert AheadIn(o, law) <= Heads(o);
  }

  lemma {:induction false} NobodyAhead(h: History, offers: seq<Offer>, gone: seq<set<Law>>, q: Quota, law: Law, k: nat)
    requires QueueMovesUp(h, offers, gone, q, law) && k < |offers|
    requires AheadIn(offers[0], law) == []
    ensures AheadIn(offers[k], law) == [] && Leads(offers[k], law)
  {
    hide Choice;
    if k > 0 {
      NobodyAhead(h, offers, gone, q, law, k - 1);
      assert AheadIn(offers[k], law) == Without(AheadIn(offers[k - 1], law), gone[k - 1]);
    }
  }

  /** Within WaitBound turns the law in front leaves. */
  lemma FrontLeaves(h: History, offers: seq<Offer>, gone: seq<set<Law>>, q: Quota, law: Law) returns (n: nat)
    requires QueueMovesUp(h, offers, gone, q, law) && |offers| >= WaitBound(q)
    requires AheadIn(offers[0], law) != []
    ensures n < WaitBound(q)
    ensures n + 1 < |offers| ==> |AheadIn(offers[n + 1], law)| < |AheadIn(offers[0], law)|
  {
    hide Choice;
    var front := AheadIn(offers[0], law)[0];
    n := FirstLeave(h, offers, gone, q, law, front);
    FrontStays(h, offers, gone, q, law, n);
    if n + 1 < |offers| {
      assert AheadIn(offers[n + 1], law) == Without(AheadIn(offers[n + 1 - 1], law), gone[n + 1 - 1]);
      assert front in AheadIn(offers[n], law);
    }
  }

  lemma FirstLeave(h: History, offers: seq<Offer>, gone: seq<set<Law>>, q: Quota, law: Law, front: Law) returns (n: nat)
    requires QueueMovesUp(h, offers, gone, q, law) && |offers| >= WaitBound(q)
    requires AheadIn(offers[0], law) != [] && front == AheadIn(offers[0], law)[0]
    ensures n < WaitBound(q) && front in gone[n] && forall i :: 0 <= i < n ==> front !in gone[i]
  {
    hide Choice;
    n := 0;
    while n < WaitBound(q) && front !in gone[n]
      invariant n <= WaitBound(q)
      invariant forall i :: 0 <= i < n ==> front !in gone[i]
    {
      n := n + 1;
    }
    if n == WaitBound(q) {
      forall i | 0 <= i < n ensures Leads(offers[i], front) {
        FrontStays(h, offers, gone, q, law, i);
      }
      OldestIsServed(h, offers, q, front);
      assert false;
    }
  }

  /** A law with p openable laws ahead is chosen within (p + 1) * WaitBound turns. */
  lemma {:induction false} EveryPositionIsServed(h: History, offers: seq<Offer>, gone: seq<set<Law>>, q: Quota, law: Law)
    requires |offers| > 0 && QueueMovesUp(h, offers, gone, q, law)
    requires |offers| >= (|AheadIn(offers[0], law)| + 1) * WaitBound(q)
    ensures ServedWithin(h, offers, q, law, (|AheadIn(offers[0], law)| + 1) * WaitBound(q))
    decreases |AheadIn(offers[0], law)|
  {
    hide Choice;
    var p := |AheadIn(offers[0], law)|;
    var b := WaitBound(q);
    assert (p + 1) * b == p * b + b;
    if p == 0 {
      forall i | 0 <= i < b ensures Leads(offers[i], law) {
        NobodyAhead(h, offers, gone, q, law, i);
      }
      OldestIsServed(h, offers, q, law);
    } else {
      Monotone(1, p, b);
      var n := FrontLeaves(h, offers, gone, q, law);
      var next := |AheadIn(offers[n + 1], law)|;
      Monotone(next + 1, p, b);
      MovesUpLater(h, offers, gone, q, law, n + 1);
      var h' := HistoryAt(h, offers, q, n + 1);
      assert offers[n + 1..][0] == offers[n + 1];
      EveryPositionIsServed(h', offers[n + 1..], gone[n + 1..], q, law);
      ServedLater(h, offers, q, law, n + 1, (next + 1) * b, (p + 1) * b);
    }
  }

  lemma ServedLater(h: History, offers: seq<Offer>, q: Quota, law: Law, n: nat, m: nat, total: nat)
    requires n + m <= total <= |offers|
    requires ServedWithin(HistoryAt(h, offers, q, n), offers[n..], q, law, m)
    ensures ServedWithin(h, offers, q, law, total)
  {
    hide Choice;
    var i :| 0 <= i < m && ChoiceAt(HistoryAt(h, offers, q, n), offers[n..], q, i) == Some(law);
    ChoiceSplits(h, offers, q, n, i);
    assert ChoiceAt(h, offers, q, n + i) == Some(law);
  }

  lemma Monotone(a: nat, b: nat, c: nat)
    requires a <= b
    ensures a * c <= b * c
  {
    assert (b - a) * c >= 0;
  }
}
